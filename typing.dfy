/**
 * The hero section's typing animation (src/Pages/Home.jsx, `handleTyping` and the
 * effect that schedules it), as a pure state machine over an arbitrary phrase list.
 * The component itself, with its state fields, is the class `Home.Home`.
 */
module Typing {

  /** The phrases the animation cycles through (`WORDS`). */
  const Words: seq<string> := [
    "Electronics & Communication Engineering Student",
    "Web Developer | AI Enthusiast"
  ]

  /** Delay before the next step while typing, while deleting, and the pause after a full word (ms). */
  const TypingDelay: nat := 100
  const DeletingDelay: nat := 50
  const PauseDelay: nat := 1500

  /** The four pieces of component state the animation uses. */
  datatype Anim = Anim(text: string, wordIndex: nat, charIndex: nat, isTyping: bool)

  /** A freshly typed-nothing state at phrase `w`; `Start(0)` is the state at mount. */
  function Start(w: nat): Anim {
    Anim("", w, 0, true)
  }

  /** The displayed text is always the `charIndex`-prefix of the current phrase. */
  predicate Inv(words: seq<string>, s: Anim) {
    && s.wordIndex < |words|
    && s.charIndex <= |words[s.wordIndex]|
    && s.text == words[s.wordIndex][..s.charIndex]
  }

  /** What one call of `handleTyping` does: update the state, or only arm the 1500 ms pause timer. */
  datatype Effect = Updated(next: Anim) | PauseScheduled

  /** JavaScript's `s.slice(0, -1)`: drop the last character, if any. */
  function DropLast(s: string): (r: string)
    ensures |s| > 0 ==> r == s[..|s| - 1]
    ensures |s| == 0 ==> r == ""
  {
    if |s| == 0 then s else s[..|s| - 1]
  }

  /** The effect re-runs (and so schedules another step) when one of its dependencies changed. */
  predicate Reschedules(before: Anim, after: Anim)
    ensures Reschedules(before, after) <==> before.(text := after.text) != after
  {
    before.charIndex != after.charIndex || before.wordIndex != after.wordIndex || before.isTyping != after.isTyping
  }

  /** One timer callback of `handleTyping`. */
  function Step(words: seq<string>, s: Anim): (e: Effect)
    requires s.wordIndex < |words|
    ensures e.Updated? ==> e.next.wordIndex < |words|
    ensures e.PauseScheduled? <==> s.isTyping && s.charIndex >= |words[s.wordIndex]|
    ensures e.Updated? ==> Reschedules(s, e.next)
  {
    var word := words[s.wordIndex];
    if s.isTyping then
      if s.charIndex < |word| then
        Updated(s.(text := s.text + [word[s.charIndex]], charIndex := s.charIndex + 1))
      else
        PauseScheduled
    else if s.charIndex > 0 then
      Updated(s.(text := DropLast(s.text), charIndex := s.charIndex - 1))
    else
      Updated(s.(wordIndex := (s.wordIndex + 1) % |words|, isTyping := true))
  }

  /** The 1500 ms timer's callback, `setIsTyping(false)`. */
  function FinishPause(s: Anim): (r: Anim)
    ensures r.text == s.text && r.wordIndex == s.wordIndex && r.charIndex == s.charIndex
    ensures !r.isTyping
  {
    s.(isTyping := false)
  }

  /**
   * When the pause ends, the mode flips, so the effect runs again, and the step it schedules
   * updates the state: the animation resumes after its only idle point.
   */
  lemma PauseResumes(words: seq<string>, s: Anim)
    requires s.wordIndex < |words| && Step(words, s) == PauseScheduled
    ensures Reschedules(s, FinishPause(s))
    ensures Step(words, FinishPause(s)).Updated?
  {
  }

  /** The delay the effect passes to `setTimeout` for the next step. */
  function Delay(s: Anim): (ms: nat)
    ensures s.isTyping ==> ms == TypingDelay
    ensures !s.isTyping ==> ms == DeletingDelay
  {
    if s.isTyping then TypingDelay else DeletingDelay
  }

  /** The state after one step (a pause-arming step leaves it as it was). */
  function Advance(words: seq<string>, s: Anim): (r: Anim)
    requires s.wordIndex < |words|
    ensures r.wordIndex < |words|
  {
    match Step(words, s)
    case Updated(t) => t
    case PauseScheduled => s
  }

  /** The state after `k` steps. */
  function Iterate(words: seq<string>, s: Anim, k: nat): (r: Anim)
    requires s.wordIndex < |words|
    ensures r.wordIndex < |words|
    ensures Inv(words, s) ==> Inv(words, r)
    decreases k
  {
    StepPreservesInv(words, s);
    if k == 0 then s else Iterate(words, Advance(words, s), k - 1)
  }

  /** Every step keeps the displayed text equal to the current prefix of the current phrase. */
  lemma StepPreservesInv(words: seq<string>, s: Anim)
    requires s.wordIndex < |words|
    ensures Inv(words, s) ==> Inv(words, Advance(words, s))
  {
  }


  /** The pause transition keeps the invariant too. */
  lemma FinishPausePreservesInv(words: seq<string>, s: Anim)
    requires Inv(words, s)
    ensures Inv(words, FinishPause(s))
  {
  }

  lemma IterateSplit(words: seq<string>, s: Anim, a: nat, b: nat)
    requires s.wordIndex < |words|
    ensures Iterate(words, s, a + b) == Iterate(words, Iterate(words, s, a), b)
    decreases a
  {
    if a > 0 {
      IterateSplit(words, Advance(words, s), a - 1, b);
    }
  }

  /** In typing mode the rest of the phrase is typed out, one character per step. */
  lemma {:induction false} TypesOutWord(words: seq<string>, s: Anim)
    requires Inv(words, s) && s.isTyping
    ensures Iterate(words, s, |words[s.wordIndex]| - s.charIndex)
         == Anim(words[s.wordIndex], s.wordIndex, |words[s.wordIndex]|, true)
    decreases |words[s.wordIndex]| - s.charIndex
  {
    var word := words[s.wordIndex];
    if s.charIndex < |word| {
      StepPreservesInv(words, s);
      TypesOutWord(words, Advance(words, s));
    }
  }

  /** In deleting mode the text is erased, one character per step, down to empty. */
  lemma {:induction false} ErasesWord(words: seq<string>, s: Anim)
    requires Inv(words, s) && !s.isTyping
    ensures Iterate(words, s, s.charIndex) == Anim("", s.wordIndex, 0, false)
    decreases s.charIndex
  {
    if s.charIndex > 0 {
      StepPreservesInv(words, s);
      ErasesWord(words, Advance(words, s));
    }
  }

  /**
   * One full round at phrase `w`: type the phrase, arm the pause, switch to deleting
   * when the pause ends, erase it, and move on to the next phrase.
   */
  function Round(words: seq<string>, w: nat): (r: Anim)
    requires w < |words|
    ensures Inv(words, r)
  {
    var typed := Iterate(words, Start(w), |words[w]|);
    FinishPausePreservesInv(words, typed);
    Iterate(words, FinishPause(typed), |words[w]| + 1)
  }

  /**
   * A round types the phrase completely, then the step at the end of the phrase only arms
   * the pause, and after the pause the phrase is erased and typing restarts at the next
   * phrase (wrapping after the last one).
   */
  lemma {:induction false} RoundAdvances(words: seq<string>, w: nat)
    requires w < |words|
    ensures Iterate(words, Start(w), |words[w]|) == Anim(words[w], w, |words[w]|, true)
    ensures Step(words, Iterate(words, Start(w), |words[w]|)) == PauseScheduled
    ensures Round(words, w) == Start((w + 1) % |words|)
  {
    var n := |words[w]|;
    TypesOutWord(words, Start(w));
    var typed := Iterate(words, Start(w), n);
    assert typed.text == words[w];
    var paused := FinishPause(typed);
    assert Inv(words, paused);
    IterateSplit(words, paused, n, 1);
    ErasesWord(words, paused);
    var erased := Iterate(words, paused, n);
    assert erased == Anim("", w, 0, false);
    assert Iterate(words, erased, 1) == Advance(words, erased);
  }

  /** The phrase shown in the `k`-th round after mount. */
  function WordAfter(words: seq<string>, k: nat): (w: nat)
    requires |words| > 0
    ensures w < |words|
  {
    if k == 0 then 0 else Round(words, WordAfter(words, k - 1)).wordIndex
  }

  lemma MulBounds(d: int, n: int)
    requires n > 0
    ensures d >= 1 ==> d * n >= n
    ensures d <= -1 ==> d * n <= -n
  {
  }

  lemma ModUnique(x: int, q: int, r: int, n: int)
    requires n > 0 && 0 <= r < n && x == q * n + r
    ensures x % n == r
  {
    var q', r' := x / n, x % n;
    assert x == q' * n + r';
    MulBounds(q - q', n);
    assert (q - q') * n == r' - r;
  }
  lemma ModSucc(a: nat, n: nat)
    requires n > 0
    ensures (a % n + 1) % n == (a + 1) % n
  {
    var q, r := a / n, a % n;
    assert a == q * n + r;
    if r + 1 < n {
      ModUnique(a + 1, q, r + 1, n);
      ModUnique(r + 1, 0, r + 1, n);
    } else {
      assert a + 1 == (q + 1) * n;
      ModUnique(a + 1, q + 1, 0, n);
      ModUnique(r + 1, 1, 0, n);
    }
  }

  /** The phrases are shown in order and wrap around: round `k` shows phrase `k mod |words|`. */
  lemma {:induction false} WordsCycle(words: seq<string>, k: nat)
    requires |words| > 0
    ensures WordAfter(words, k) == k % |words|
  {
    if k > 0 {
      WordsCycle(words, k - 1);
      RoundAdvances(words, WordAfter(words, k - 1));
      ModSucc(k - 1, |words|);
    }
  }
}
