/**
 * The typewriter reveal of main.js, as a value: two lines grow one character
 * at a time toward two fixed texts, gated by a start flag, a per-character
 * delay and a pause before the second line. `Tick` is one call of the
 * per-frame update, with the current time in milliseconds as a parameter.
 */
module TextReveal {

  const FinalText1: string := "A new kind of"
  const FinalText2: string := "design tool"
  /** Milliseconds between two characters. */
  const CharDelay: nat := 100
  /** Milliseconds between the last character of line 1 and the first of line 2. */
  const LineDelay: nat := 400

  /** The reveal's part of the page state. */
  datatype TextState = TextState(line1: string, line2: string, lastCharTime: nat, started: bool)

  /** Both lines are prefixes of their targets, and line 2 is begun only once line 1 is whole. */
  predicate Revealing(s: TextState)
  {
    && s.line1 <= FinalText1
    && s.line2 <= FinalText2
    && (s.line2 != [] ==> s.line1 == FinalText1)
  }

  /** Both lines show their whole text. */
  predicate Complete(s: TextState)
  {
    s.line1 == FinalText1 && s.line2 == FinalText2
  }

  /** Number of characters shown so far, over both lines. */
  function Shown(s: TextState): nat
  {
    |s.line1| + |s.line2|
  }

  /** Number of characters still to be revealed. */
  function Remaining(s: TextState): int
  {
    |FinalText1| + |FinalText2| - Shown(s)
  }

  /** One call of the per-frame text update at time `now`. */
  function Tick(s: TextState, now: nat): TextState
  {
    if !s.started then s
    else if now - s.lastCharTime < CharDelay then s
    else if |s.line1| < |FinalText1| then
      s.(line1 := s.line1 + [FinalText1[|s.line1|]], lastCharTime := now)
    else if |s.line1| == |FinalText1| && |s.line2| == 0 && now - s.lastCharTime < LineDelay then s
    else if |s.line2| < |FinalText2| then
      s.(line2 := s.line2 + [FinalText2[|s.line2|]], lastCharTime := now)
    else s
  }

  /** Calls made before the reveal starts, or too soon after the last character, change nothing. */
  lemma TickGated(s: TextState, now: nat)
    ensures !s.started ==> Tick(s, now) == s
    ensures now < s.lastCharTime + CharDelay ==> Tick(s, now) == s
  {
  }

  /**
   * A call either changes nothing, or appends exactly one character to one
   * line and records `now` as the time of the last character.
   */
  lemma TickStep(s: TextState, now: nat)
    ensures var t := Tick(s, now);
      || t == s
      || (&& |s.line1| < |FinalText1| && t.line1 == s.line1 + [FinalText1[|s.line1|]] && t.line2 == s.line2
          && t.lastCharTime == now && t.started == s.started)
      || (&& |s.line2| < |FinalText2| && t.line1 == s.line1 && t.line2 == s.line2 + [FinalText2[|s.line2|]]
          && t.lastCharTime == now && t.started == s.started)
    ensures var t := Tick(s, now);
      t.lastCharTime != s.lastCharTime ==> Shown(t) == Shown(s) + 1
    ensures var t := Tick(s, now);
      Shown(t) == Shown(s) || (Shown(t) == Shown(s) + 1 && t.lastCharTime == now)
  {
  }

  /** The reveal only ever extends the two lines along their target texts. */
  lemma TickKeepsRevealing(s: TextState, now: nat)
    requires Revealing(s)
    ensures var t := Tick(s, now);
      Revealing(t) && s.line1 <= t.line1 && s.line2 <= t.line2
  {
  }

  /** Line 2 gains a character only when line 1 is whole, and line 1 is then left alone. */
  lemma TickLine2AfterLine1(s: TextState, now: nat)
    requires Revealing(s)
    ensures var t := Tick(s, now);
      t.line2 != s.line2 ==> s.line1 == FinalText1 && t.line1 == s.line1
  {
  }

  /** The first character of line 2 comes at least `LineDelay` after the last one of line 1. */
  lemma TickPausesBeforeLine2(s: TextState, now: nat)
    requires Revealing(s)
    ensures var t := Tick(s, now);
      s.line2 == [] && t.line2 != [] ==> s.lastCharTime + LineDelay <= now
  {
  }

  /** Once both lines are whole, further calls change nothing. */
  lemma TickComplete(s: TextState, now: nat)
    requires Complete(s)
    ensures Tick(s, now) == s
  {
  }

  /** A started, unfinished reveal called at least `LineDelay` after its last character shows one more. */
  lemma TickProgress(s: TextState, now: nat)
    requires Revealing(s) && s.started && !Complete(s)
    requires s.lastCharTime + LineDelay <= now
    ensures Shown(Tick(s, now)) == Shown(s) + 1 && Tick(s, now).lastCharTime == now
    ensures Revealing(Tick(s, now)) && Tick(s, now).started
  {
  }

  /** A reveal in progress is complete exactly when no character remains to be shown. */
  lemma CompleteWhenNoneRemaining(s: TextState)
    requires Revealing(s)
    ensures 0 <= Remaining(s)
    ensures Complete(s) <==> Remaining(s) == 0
    ensures |s.line1| == |FinalText1| ==> s.line1 == FinalText1
  {
  }

  /** The state after calls at each of `times`, in order. */
  function Run(s: TextState, times: seq<nat>): TextState
    decreases |times|
  {
    if times == [] then s else Run(Tick(s, times[0]), times[1..])
  }

  /** Each time is at least `LineDelay` after the one before, the first after `from`. */
  predicate Spaced(from: nat, times: seq<nat>)
    decreases |times|
  {
    times == [] || (from + LineDelay <= times[0] && Spaced(times[0], times[1..]))
  }

  /** A complete reveal stays complete, whatever the calls. */
  lemma {:induction false} RunComplete(s: TextState, times: seq<nat>)
    requires Complete(s)
    ensures Run(s, times) == s
    decreases |times|
  {
    if times != [] {
      TickComplete(s, times[0]);
      RunComplete(s, times[1..]);
    }
  }

  /**
   * A started reveal whose calls come at least `LineDelay` apart shows both
   * whole lines after as many calls as there are characters left.
   */
  lemma {:induction false} RunCompletes(s: TextState, times: seq<nat>)
    requires Revealing(s) && s.started
    requires Spaced(s.lastCharTime, times)
    requires Remaining(s) <= |times|
    ensures Complete(Run(s, times))
    decreases |times|
  {
    if Complete(s) {
      RunComplete(s, times);
    } else {
      CompleteWhenNoneRemaining(s);
      TickProgress(s, times[0]);
      RunCompletes(Tick(s, times[0]), times[1..]);
    }
  }
}
