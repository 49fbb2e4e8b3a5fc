/**
 * The typewriter effect: it types the current phrase one character per tick,
 * waits for a pause timeout, deletes it one character per tick and moves on
 * to the next phrase, cyclically. Timers are explicit steps: `Tick` is the
 * 100 ms (typing) or 50 ms (deleting) timeout firing, `PauseElapsed` one of
 * the 1500 ms timeouts that a typing tick at full length schedules.
 *
 * The effect's cleanup clears only the tick timeout, never a pause timeout,
 * so every typing tick at full length leaves one more pause pending, and each
 * of them sets `isDeleting` when it fires, whatever the state is by then. A
 * second tick at full length happens when the effect re-runs before the
 * pause fires, which a new `phrases` array on every render of the caller
 * brings about.
 */
module Typewriter {

  datatype TypewriterState = TypewriterState(
    currentText: string,
    currentIndex: nat,
    isDeleting: bool,
    pendingPauses: nat)   // 1500 ms timeouts scheduled and not yet fired

  const InitialState: TypewriterState := TypewriterState("", 0, false, 0)

  /** The pause before deleting, in milliseconds. */
  const PauseDelay: nat := 1500

  /** `s.substring(0, end)`: JavaScript clamps `end` into `[0, s.length]`. */
  function Substring(s: string, end: int): (r: string)
    ensures r <= s
    ensures |r| == if end < 0 then 0 else if end > |s| then |s| else end
  {
    if end < 0 then [] else if end > |s| then s else s[..end]
  }

  /** The timeout passed to `setTimeout` for the next tick, in milliseconds. */
  function TickDelay(isDeleting: bool): nat
  {
    if isDeleting then 50 else 100
  }

  /** The phrase index is in range and the text typed so far is a prefix of that phrase. */
  predicate Consistent(phrases: seq<string>, s: TypewriterState)
  {
    s.currentIndex < |phrases| && s.currentText <= phrases[s.currentIndex]
  }

  /** The callback of the tick timeout. */
  function TickStep(phrases: seq<string>, s: TypewriterState): TypewriterState
    requires s.currentIndex < |phrases|
  {
    var phrase := phrases[s.currentIndex];
    var len := |s.currentText|;
    if !s.isDeleting then
      s.(currentText := Substring(phrase, len + 1),
         pendingPauses := if len == |phrase| then s.pendingPauses + 1 else s.pendingPauses)
    else if len == 0 then
      s.(currentText := Substring(phrase, len - 1),
         isDeleting := false,
         currentIndex := (s.currentIndex + 1) % |phrases|)
    else
      s.(currentText := Substring(phrase, len - 1))
  }

  /** The callback of one pending pause timeout: start deleting. */
  function PauseStep(s: TypewriterState): TypewriterState
  {
    if s.pendingPauses > 0 then s.(isDeleting := true, pendingPauses := s.pendingPauses - 1) else s
  }

  /** `n` tick timeouts in a row. */
  function Ticks(phrases: seq<string>, s: TypewriterState, n: nat): TypewriterState
    requires Consistent(phrases, s)
    ensures Consistent(phrases, Ticks(phrases, s, n))
    decreases n
  {
    if n == 0 then s
    else
      TickConsistent(phrases, s);
      Ticks(phrases, TickStep(phrases, s), n - 1)
  }

  /** The time `n` tick timeouts in a row take, each waiting the delay of the state that scheduled it. */
  function TicksDuration(phrases: seq<string>, s: TypewriterState, n: nat): nat
    requires Consistent(phrases, s)
    decreases n
  {
    if n == 0 then 0
    else
      TickConsistent(phrases, s);
      TickDelay(s.isDeleting) + TicksDuration(phrases, TickStep(phrases, s), n - 1)
  }

  datatype Event = TickFires | PauseFires

  function Run(phrases: seq<string>, s: TypewriterState, events: seq<Event>): TypewriterState
    requires Consistent(phrases, s)
    decreases |events|
  {
    if events == [] then s
    else
      TickConsistent(phrases, s);
      var next := if events[0] == TickFires then TickStep(phrases, s) else PauseStep(s);
      Run(phrases, next, events[1..])
  }

  /** `TypewriterEffect`. */
  class TypewriterEffect {
    const phrases: seq<string>
    var currentText: string
    var currentIndex: nat
    var isDeleting: bool
    var pendingPauses: nat

    function State(): TypewriterState
      reads this
    {
      TypewriterState(currentText, currentIndex, isDeleting, pendingPauses)
    }

    ghost predicate Valid()
      reads this
    {
      Consistent(phrases, State())
    }

    constructor (phrases: seq<string>)
      requires |phrases| > 0
      ensures Valid()
      ensures this.phrases == phrases && State() == InitialState
    {
      this.phrases := phrases;
      currentText := "";
      currentIndex := 0;
      isDeleting := false;
      pendingPauses := 0;
    }

    /** How long until the next tick fires. */
    function Delay(): nat
      reads this
    {
      TickDelay(isDeleting)
    }

    method Tick()
      requires Valid()
      modifies this
      ensures Valid()
      ensures State() == TickStep(phrases, old(State()))
    {
      var phrase := phrases[currentIndex];
      var len := |currentText|;
      if !isDeleting {
        currentText := Substring(phrase, len + 1);
        if len == |phrase| {
          pendingPauses := pendingPauses + 1;
        }
      } else {
        currentText := Substring(phrase, len - 1);
        if len == 0 {
          isDeleting := false;
          currentIndex := (currentIndex + 1) % |phrases|;
        }
      }
      TickConsistent(phrases, old(State()));
    }

    method PauseElapsed()
      requires Valid()
      modifies this
      ensures Valid()
      ensures State() == PauseStep(old(State()))
    {
      if pendingPauses > 0 {
        isDeleting := true;
        pendingPauses := pendingPauses - 1;
      }
    }
  }

  /**
   * `TypewriterEffectWithGlitch`: its glitch flag is presentation only; its
   * text, index and mode change exactly as in `TypewriterEffect`.
   */
  class TypewriterEffectWithGlitch {
    const phrases: seq<string>
    var currentText: string
    var currentIndex: nat
    var isDeleting: bool
    var pendingPauses: nat

    function State(): TypewriterState
      reads this
    {
      TypewriterState(currentText, currentIndex, isDeleting, pendingPauses)
    }

    ghost predicate Valid()
      reads this
    {
      Consistent(phrases, State())
    }

    constructor (phrases: seq<string>)
      requires |phrases| > 0
      ensures Valid()
      ensures this.phrases == phrases && State() == InitialState
    {
      this.phrases := phrases;
      currentText := "";
      currentIndex := 0;
      isDeleting := false;
      pendingPauses := 0;
    }

    function Delay(): nat
      reads this
    {
      TickDelay(isDeleting)
    }

    method Tick()
      requires Valid()
      modifies this
      ensures Valid()
      ensures State() == TickStep(phrases, old(State()))
    {
      var phrase := phrases[currentIndex];
      var len := |currentText|;
      if !isDeleting {
        currentText := Substring(phrase, len + 1);
        if len == |phrase| {
          pendingPauses := pendingPauses + 1;
        }
      } else {
        currentText := Substring(phrase, len - 1);
        if len == 0 {
          isDeleting := false;
          currentIndex := (currentIndex + 1) % |phrases|;
        }
      }
      TickConsistent(phrases, old(State()));
    }

    method PauseElapsed()
      requires Valid()
      modifies this
      ensures Valid()
      ensures State() == PauseStep(old(State()))
    {
      if pendingPauses > 0 {
        isDeleting := true;
        pendingPauses := pendingPauses - 1;
      }
    }
  }

  // ---------------------------------------------------------------------
  // Properties
  // ---------------------------------------------------------------------

  /** Both timeouts keep the index in range and the text a prefix of the current phrase. */
  lemma TickConsistent(phrases: seq<string>, s: TypewriterState)
    requires Consistent(phrases, s)
    ensures Consistent(phrases, TickStep(phrases, s))
    ensures Consistent(phrases, PauseStep(s))
  {
  }

  /** Every run of timeouts from a consistent state stays consistent. */
  lemma {:induction false} RunConsistent(phrases: seq<string>, s: TypewriterState, events: seq<Event>)
    requires Consistent(phrases, s)
    ensures Consistent(phrases, Run(phrases, s, events))
    decreases |events|
  {
    if events != [] {
      TickConsistent(phrases, s);
      var next := if events[0] == TickFires then TickStep(phrases, s) else PauseStep(s);
      RunConsistent(phrases, next, events[1..]);
    }
  }

  /** A typing tick short of the full phrase types exactly its next character. */
  lemma TypingTick(phrases: seq<string>, s: TypewriterState)
    requires Consistent(phrases, s) && !s.isDeleting
    requires |s.currentText| < |phrases[s.currentIndex]|
    ensures TickStep(phrases, s)
            == s.(currentText := s.currentText + [phrases[s.currentIndex][|s.currentText|]])
  {
    var phrase := phrases[s.currentIndex];
    var len := |s.currentText|;
    assert phrase[..len + 1] == phrase[..len] + [phrase[len]];
    assert phrase[..len] == s.currentText;
  }

  /**
   * A typing tick at full length keeps the text and schedules one more pause,
   * even when pauses are already pending; when one of them fires, deleting starts.
   */
  lemma TypingTickAtEnd(phrases: seq<string>, s: TypewriterState)
    requires Consistent(phrases, s) && !s.isDeleting
    requires |s.currentText| == |phrases[s.currentIndex]|
    ensures TickStep(phrases, s) == s.(pendingPauses := s.pendingPauses + 1)
    ensures PauseStep(TickStep(phrases, s)) == s.(isDeleting := true)
  {
  }

  /** A pending pause sets `isDeleting` whatever the text and the phrase are by then. */
  lemma PauseFiresUnconditionally(s: TypewriterState)
    ensures s.pendingPauses > 0 ==> PauseStep(s) == s.(isDeleting := true, pendingPauses := s.pendingPauses - 1)
    ensures s.pendingPauses == 0 ==> PauseStep(s) == s
  {
  }

  /**
   * A deleting tick removes the last character; at length 0 it leaves the
   * text empty, stops deleting and moves to the next phrase, wrapping to 0.
   */
  lemma DeletingTick(phrases: seq<string>, s: TypewriterState)
    requires Consistent(phrases, s) && s.isDeleting
    ensures |s.currentText| > 0 ==>
      TickStep(phrases, s) == s.(currentText := s.currentText[..|s.currentText| - 1])
    ensures |s.currentText| == 0 ==>
      TickStep(phrases, s) == s.(isDeleting := false, currentIndex := (s.currentIndex + 1) % |phrases|)
    ensures |s.currentText| == 0 && s.currentIndex == |phrases| - 1 ==>
      TickStep(phrases, s).currentIndex == 0
  {
    var phrase := phrases[s.currentIndex];
    var len := |s.currentText|;
    if len > 0 {
      assert phrase[..len - 1] == s.currentText[..len - 1];
    }
  }

  /** From any prefix, typing ticks reach the whole phrase without leaving typing mode. */
  lemma {:induction false} TypesWholePhrase(phrases: seq<string>, s: TypewriterState)
    requires Consistent(phrases, s) && !s.isDeleting
    ensures Ticks(phrases, s, |phrases[s.currentIndex]| - |s.currentText|)
            == s.(currentText := phrases[s.currentIndex])
    decreases |phrases[s.currentIndex]| - |s.currentText|
  {
    var phrase := phrases[s.currentIndex];
    if |s.currentText| < |phrase| {
      TypingTick(phrases, s);
      var next := TickStep(phrases, s);
      assert next.currentText <= phrase;
      TypesWholePhrase(phrases, next);
    } else {
      assert s.currentText == phrase;
    }
  }

  /** Deleting ticks empty the text without leaving deleting mode or changing phrase. */
  lemma {:induction false} DeletesWholeText(phrases: seq<string>, s: TypewriterState)
    requires Consistent(phrases, s) && s.isDeleting
    ensures Ticks(phrases, s, |s.currentText|) == s.(currentText := "")
    decreases |s.currentText|
  {
    if |s.currentText| > 0 {
      DeletingTick(phrases, s);
      DeletesWholeText(phrases, TickStep(phrases, s));
    }
  }

  /**
   * One full cycle: from the empty text of phrase `i`, `|p| + 1` typing ticks,
   * the pause and `|p| + 1` deleting ticks give the empty text of the next phrase.
   */
  lemma FullCycle(phrases: seq<string>, i: nat)
    requires i < |phrases|
    ensures var s := TypewriterState("", i, false, 0);
            var n := |phrases[i]| + 1;
            var typed := Ticks(phrases, s, n);
            PauseStep(typed).isDeleting
            && Ticks(phrases, PauseStep(typed), n) == TypewriterState("", (i + 1) % |phrases|, false, 0)
  {
    var s := TypewriterState("", i, false, 0);
    var p := phrases[i];
    TypesWholePhrase(phrases, s);
    var full := Ticks(phrases, s, |p|);
    assert full == TypewriterState(p, i, false, 0);
    TicksSplit(phrases, s, |p|, 1);
    TypingTickAtEnd(phrases, full);
    var paused := PauseStep(Ticks(phrases, s, |p| + 1));
    assert paused == TypewriterState(p, i, true, 0);
    DeletesWholeText(phrases, paused);
    TicksSplit(phrases, paused, |p|, 1);
    DeletingTick(phrases, TypewriterState("", i, true, 0));
  }

  lemma {:induction false} TicksSplit(phrases: seq<string>, s: TypewriterState, m: nat, n: nat)
    requires Consistent(phrases, s)
    ensures Ticks(phrases, s, m + n) == Ticks(phrases, Ticks(phrases, s, m), n)
    decreases m
  {
    if m > 0 {
      TickConsistent(phrases, s);
      TicksSplit(phrases, TickStep(phrases, s), m - 1, n);
    }
  }

  /** Typing ticks never start deleting, so each of them waits 100 ms. */
  lemma {:induction false} TypingDuration(phrases: seq<string>, s: TypewriterState, n: nat)
    requires Consistent(phrases, s) && !s.isDeleting
    ensures TicksDuration(phrases, s, n) == TickDelay(false) * n
    decreases n
  {
    if n > 0 {
      TickConsistent(phrases, s);
      TypingDuration(phrases, TickStep(phrases, s), n - 1);
    }
  }

  /** While text is left, and for the tick that finds it empty, each deleting tick waits 50 ms. */
  lemma {:induction false} DeletingDuration(phrases: seq<string>, s: TypewriterState, n: nat)
    requires Consistent(phrases, s) && s.isDeleting && n <= |s.currentText| + 1
    ensures TicksDuration(phrases, s, n) == TickDelay(true) * n
    decreases n
  {
    if n > 0 {
      TickConsistent(phrases, s);
      if |s.currentText| > 0 {
        DeletingTick(phrases, s);
        DeletingDuration(phrases, TickStep(phrases, s), n - 1);
      }
    }
  }

  /**
   * The time one full cycle of `FullCycle` takes: `|p| + 1` typing ticks of
   * 100 ms, the 1500 ms pause and `|p| + 1` deleting ticks of 50 ms.
   */
  lemma CycleDuration(phrases: seq<string>, i: nat)
    requires i < |phrases|
    ensures var s := TypewriterState("", i, false, 0);
            var n := |phrases[i]| + 1;
            var paused := PauseStep(Ticks(phrases, s, n));
            TicksDuration(phrases, s, n) + PauseDelay + TicksDuration(phrases, paused, n)
            == 100 * n + 1500 + 50 * n
  {
    var s := TypewriterState("", i, false, 0);
    var p := phrases[i];
    var n := |p| + 1;
    TypingDuration(phrases, s, n);
    FullCycle(phrases, i);
    TypesWholePhrase(phrases, s);
    TicksSplit(phrases, s, |p|, 1);
    TypingTickAtEnd(phrases, Ticks(phrases, s, |p|));
    var paused := PauseStep(Ticks(phrases, s, n));
    assert paused == TypewriterState(p, i, true, 0);
    DeletingDuration(phrases, paused, n);
  }

  // ---------------------------------------------------------------------
  // The stale pause timeout, and the effect with it cleared
  // ---------------------------------------------------------------------

  /**
   * As written, two typing ticks at full length leave two pauses pending. The
   * first one starts deleting; the second fires after the switch to the next
   * phrase and starts deleting its empty text, so that phrase is skipped: with
   * the phrases "ab" and "cd", "cd" is never typed and the effect is back at
   * "ab".
   */
  lemma StalePauseSkipsPhrase()
    ensures var phrases := ["ab", "cd"];
            var skipped := Run(phrases, InitialState, [TickFires, TickFires, TickFires, TickFires,
                                                       PauseFires, TickFires, TickFires, TickFires]);
            && skipped == TypewriterState("", 1, false, 1)
            && PauseStep(skipped).isDeleting
            && PauseStep(skipped).currentText != phrases[1]
            && TickStep(phrases, PauseStep(skipped)) == InitialState
  {
    var phrases := ["ab", "cd"];
    var s0 := InitialState;
    var s1 := TickStep(phrases, s0);
    assert s1 == TypewriterState("a", 0, false, 0);
    var s2 := TickStep(phrases, s1);
    assert s2 == TypewriterState("ab", 0, false, 0);
    var s3 := TickStep(phrases, s2);
    assert s3 == TypewriterState("ab", 0, false, 1);
    var s4 := TickStep(phrases, s3);
    assert s4 == TypewriterState("ab", 0, false, 2);
    var s5 := PauseStep(s4);
    assert s5 == TypewriterState("ab", 0, true, 1);
    var s6 := TickStep(phrases, s5);
    assert s6 == TypewriterState("a", 0, true, 1);
    var s7 := TickStep(phrases, s6);
    assert s7 == TypewriterState("", 0, true, 1);
    var s8 := TickStep(phrases, s7);
    assert s8 == TypewriterState("", 1, false, 1);
    var events := [TickFires, TickFires, TickFires, TickFires, PauseFires, TickFires, TickFires, TickFires];
    assert Run(phrases, s8, events[8..]) == s8;
    assert Run(phrases, s7, events[7..]) == s8;
    assert Run(phrases, s6, events[6..]) == s8;
    assert Run(phrases, s5, events[5..]) == s8;
    assert Run(phrases, s4, events[4..]) == s8;
    assert Run(phrases, s3, events[3..]) == s8;
    assert Run(phrases, s2, events[2..]) == s8;
    assert Run(phrases, s1, events[1..]) == s8;
    assert Run(phrases, s0, events) == s8;
  }

  /**
   * The tick with the pause timeout cleared by the effect's cleanup: a typing
   * tick at full length then replaces the pending pause instead of adding one.
   */
  function ClearedTickStep(phrases: seq<string>, s: TypewriterState): TypewriterState
    requires s.currentIndex < |phrases|
  {
    var t := TickStep(phrases, s);
    if !s.isDeleting && |s.currentText| == |phrases[s.currentIndex]| then t.(pendingPauses := 1) else t
  }

  function ClearedRun(phrases: seq<string>, s: TypewriterState, events: seq<Event>): TypewriterState
    requires Consistent(phrases, s)
    decreases |events|
  {
    if events == [] then s
    else
      TickConsistent(phrases, s);
      var next := if events[0] == TickFires then ClearedTickStep(phrases, s) else PauseStep(s);
      ClearedRun(phrases, next, events[1..])
  }

  /** At most one pause is pending, and only while the whole phrase is typed and not yet deleted. */
  predicate PauseSound(phrases: seq<string>, s: TypewriterState)
  {
    && Consistent(phrases, s)
    && s.pendingPauses <= 1
    && (s.pendingPauses == 1 ==> !s.isDeleting && s.currentText == phrases[s.currentIndex])
  }

  lemma ClearedStepSound(phrases: seq<string>, s: TypewriterState)
    requires PauseSound(phrases, s)
    ensures PauseSound(phrases, ClearedTickStep(phrases, s))
    ensures PauseSound(phrases, PauseStep(s))
  {
    TickConsistent(phrases, s);
  }

  /**
   * With the pause cleared, every run from the initial state reaches only
   * states where a pause that fires starts deleting the whole current phrase,
   * so no phrase is skipped.
   */
  lemma {:induction false} ClearedDeletesOnlyWholePhrases(phrases: seq<string>, s: TypewriterState, events: seq<Event>)
    requires PauseSound(phrases, s)
    ensures PauseSound(phrases, ClearedRun(phrases, s, events))
    ensures var r := ClearedRun(phrases, s, events);
            r.pendingPauses > 0 ==> PauseStep(r).isDeleting && PauseStep(r).currentText == phrases[r.currentIndex]
    decreases |events|
  {
    if events != [] {
      TickConsistent(phrases, s);
      ClearedStepSound(phrases, s);
      var next := if events[0] == TickFires then ClearedTickStep(phrases, s) else PauseStep(s);
      ClearedDeletesOnlyWholePhrases(phrases, next, events[1..]);
    }
  }

  /** The run that skips a phrase as written types both phrases with the pause cleared. */
  lemma ClearedTypesEveryPhrase()
    ensures var phrases := ["ab", "cd"];
            ClearedRun(phrases, InitialState, [TickFires, TickFires, TickFires, TickFires,
                                               PauseFires, TickFires, TickFires, TickFires])
            == TypewriterState("", 1, false, 0)
  {
    var phrases := ["ab", "cd"];
    var events := [TickFires, TickFires, TickFires, TickFires, PauseFires, TickFires, TickFires, TickFires];
    var s0 := InitialState;
    var s1 := ClearedTickStep(phrases, s0);
    assert s1 == TypewriterState("a", 0, false, 0);
    var s2 := ClearedTickStep(phrases, s1);
    assert s2 == TypewriterState("ab", 0, false, 0);
    var s3 := ClearedTickStep(phrases, s2);
    assert s3 == TypewriterState("ab", 0, false, 1);
    var s4 := ClearedTickStep(phrases, s3);
    assert s4 == TypewriterState("ab", 0, false, 1);
    var s5 := PauseStep(s4);
    assert s5 == TypewriterState("ab", 0, true, 0);
    var s6 := ClearedTickStep(phrases, s5);
    assert s6 == TypewriterState("a", 0, true, 0);
    var s7 := ClearedTickStep(phrases, s6);
    assert s7 == TypewriterState("", 0, true, 0);
    var s8 := ClearedTickStep(phrases, s7);
    assert s8 == TypewriterState("", 1, false, 0);
    assert ClearedRun(phrases, s8, events[8..]) == s8;
    assert ClearedRun(phrases, s7, events[7..]) == s8;
    assert ClearedRun(phrases, s6, events[6..]) == s8;
    assert ClearedRun(phrases, s5, events[5..]) == s8;
    assert ClearedRun(phrases, s4, events[4..]) == s8;
    assert ClearedRun(phrases, s3, events[3..]) == s8;
    assert ClearedRun(phrases, s2, events[2..]) == s8;
    assert ClearedRun(phrases, s1, events[1..]) == s8;
    assert ClearedRun(phrases, s0, events) == s8;
  }

}
