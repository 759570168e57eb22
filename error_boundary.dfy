/**
 * src/components/SplineErrorBoundary.jsx: a latch that, once an error from the 3D scene has
 * been caught, shows a fixed notice instead of its children for the rest of its life.
 */
module ErrorBoundary {

  const UnavailableText: string := "3D preview unavailable"

  /** What `render` returns. */
  datatype Output = Notice(text: string) | Children

  /** What can happen to a mounted boundary: a child throws, or the tree re-renders. */
  datatype Event = Thrown | Rerendered

  /** `getDerivedStateFromError` ignores the error and the old state: the new state is always tripped. */
  function DerivedStateFromError(hasError: bool): (r: bool)
    ensures r
  {
    true
  }

  /** The `hasError` flag after a sequence of events. */
  function After(hasError: bool, events: seq<Event>): bool
    decreases |events|
  {
    if events == [] then hasError
    else After(if events[0] == Thrown then DerivedStateFromError(hasError) else hasError, events[1..])
  }

  /** `render`. */
  function View(hasError: bool): (o: Output)
    ensures o.Notice? <==> hasError
    ensures o.Notice? ==> o.text == UnavailableText
  {
    if hasError then Notice(UnavailableText) else Children
  }

  /** Once tripped, no sequence of events resets the boundary. */
  lemma {:induction false} TrippedIsAbsorbing(events: seq<Event>)
    ensures After(true, events)
    decreases |events|
  {
    if events != [] {
      TrippedIsAbsorbing(events[1..]);
    }
  }

  /** A boundary that started clear is tripped exactly when some child threw. */
  lemma {:induction false} TrippedIffThrown(events: seq<Event>)
    ensures After(false, events) <==> Thrown in events
    decreases |events|
  {
    if events != [] {
      if events[0] == Thrown {
        TrippedIsAbsorbing(events[1..]);
      } else {
        TrippedIffThrown(events[1..]);
        assert Thrown in events <==> Thrown in events[1..];
      }
    }
  }

  class SplineErrorBoundary {
    var hasError: bool

    constructor ()
      ensures !hasError
      ensures Render() == Children
    {
      hasError := false;
    }

    /** React's handling of an error thrown below: store the derived state. */
    method Catch()
      modifies this
      ensures hasError
      ensures Render() == Notice(UnavailableText)
    {
      hasError := DerivedStateFromError(hasError);
    }

    function Render(): (o: Output)
      reads this
      ensures o.Notice? <==> hasError
      ensures o.Notice? ==> o.text == UnavailableText
    {
      View(hasError)
    }
  }
}
