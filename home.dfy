/**
 * The `Home` component of src/Pages/Home.jsx as an object: its five state hooks are fields,
 * and the timer callbacks and the resize handler are methods that update them.
 */
module Home {
  import opened Wrappers
  import Typing
  import Device

  class Home {
    var text: string
    var wordIndex: nat
    var charIndex: nat
    var isTyping: bool
    var isDesktop: bool

    /** The animation part of the state. */
    function Animation(): Typing.Anim
      reads this
    {
      Typing.Anim(text, wordIndex, charIndex, isTyping)
    }

    ghost predicate Valid()
      reads this
    {
      Typing.Inv(Typing.Words, Animation())
    }

    /** The initial `useState` values. */
    constructor ()
      ensures Valid()
      ensures Animation() == Typing.Start(0)
      ensures !isDesktop
    {
      text, wordIndex, charIndex, isTyping := "", 0, 0, true;
      isDesktop := false;
    }

    /**
     * `handleTyping`. Returns the delay of the pause timer it arms, if it arms one;
     * in that case the state is left as it was.
     */
    method HandleTyping() returns (pause: Option<nat>)
      requires Valid()
      modifies this
      ensures Valid()
      ensures Typing.Step(Typing.Words, old(Animation()))
           == if pause.Some? then Typing.PauseScheduled else Typing.Updated(Animation())
      ensures isDesktop == old(isDesktop)
      ensures old(isTyping) && old(charIndex) < |Typing.Words[old(wordIndex)]| ==>
                && text == old(text) + [Typing.Words[old(wordIndex)][old(charIndex)]]
                && charIndex == old(charIndex) + 1 && wordIndex == old(wordIndex) && isTyping
                && pause == None
      ensures old(isTyping) && old(charIndex) == |Typing.Words[old(wordIndex)]| ==>
                && Animation() == old(Animation())
                && pause == Some(Typing.PauseDelay)
      ensures !old(isTyping) && old(charIndex) > 0 ==>
                && text == old(text)[..|old(text)| - 1]
                && charIndex == old(charIndex) - 1 && wordIndex == old(wordIndex) && !isTyping
                && pause == None
      ensures !old(isTyping) && old(charIndex) == 0 ==>
                && wordIndex == (old(wordIndex) + 1) % |Typing.Words|
                && text == "" && charIndex == 0 && isTyping
                && pause == None
    {
      Typing.StepPreservesInv(Typing.Words, Animation());
      var word := Typing.Words[wordIndex];
      pause := None;
      if isTyping {
        if charIndex < |word| {
          text := text + [word[charIndex]];
          charIndex := charIndex + 1;
        } else {
          pause := Some(Typing.PauseDelay);
        }
      } else {
        if charIndex > 0 {
          text := Typing.DropLast(text);
          charIndex := charIndex - 1;
        } else {
          wordIndex := (wordIndex + 1) % |Typing.Words|;
          isTyping := true;
        }
      }
    }

    /** The callback of the 1500 ms timer: switch to deleting. */
    method FinishPause()
      requires Valid()
      modifies this
      ensures Valid()
      ensures Animation() == Typing.FinishPause(old(Animation()))
      ensures text == old(text) && wordIndex == old(wordIndex) && charIndex == old(charIndex)
      ensures !isTyping && isDesktop == old(isDesktop)
    {
      Typing.FinishPausePreservesInv(Typing.Words, Animation());
      isTyping := false;
    }

    /** `checkDevice`, run at mount and on every resize, with the two browser signals as inputs. */
    method CheckDevice(pointerFine: bool, width: int)
      modifies this
      ensures isDesktop == Device.IsDesktop(pointerFine, width)
      ensures Animation() == old(Animation())
    {
      isDesktop := pointerFine && width > Device.DesktopMinWidth;
    }
  }
}
