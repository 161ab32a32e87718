/** Pairing codes that outlive their use, and exactly when the bounds of PairingCodes hold. */
module UsedCodes {
  import opened Wrappers
  import opened Pairing
  import opened GuessingBound
  import opened PairingCodes

  // ----- when a used code is not replaced

  /** Every well-formed candidate that differs from the code comes after a malformed one. */
  predicate NoFreshDraw(draws: seq<string>, code: string) {
    forall i :: 0 <= i < |draws| && SixDigits(draws[i]) && draws[i] != code ==>
      exists j :: 0 <= j < i && !SixDigits(draws[j])
  }

  lemma {:induction false} DrawFromFresh(draws: seq<string>, code: string, from: nat)
    requires |draws| == DRAWS && from <= DRAWS
    requires forall i :: 0 <= i < from ==> SixDigits(draws[i]) && draws[i] == code
    ensures !DrawFrom(draws, Some(code), from).Fresh? <==> NoFreshDraw(draws, code)
    decreases DRAWS - from
  {
    hide SixDigits;
    if from < DRAWS && SixDigits(draws[from]) && draws[from] == code {
      DrawFromFresh(draws, code, from + 1);
    }
  }

  /** What a caller can see before the call: the guess is right and the source not locked. */
  predicate OpensBeforehand(g: Sessions, op: Op)
    requires op.Pair? && OpOk(op)
  {
    && Refreshed(g, op.at, op.before).Some?
    && var h := Refreshed(g, op.at, op.before).value;
       AttemptOf(h, op.source).lockedUntil <= op.at.now && op.guess == h.code
  }

  /** A session is opened exactly by a right guess from a source that is not locked, and its code survives exactly
      when the sixteen candidates hold no fresh one. */
  lemma StuckExactly(g: Sessions, op: Op)
    requires op.Pair? && OpOk(op)
    ensures Opened(Step(g, op).1) <==> OpensBeforehand(g, op)
    ensures Step(g, op).1 == PairedStuck <==>
            OpensBeforehand(g, op) && NoFreshDraw(op.after, Refreshed(g, op.at, op.before).value.code)
  {
    hide DrawFrom, SixDigits, NoFreshDraw, Refreshed;
    if Refreshed(g, op.at, op.before).Some? {
      DrawFromFresh(op.after, Refreshed(g, op.at, op.before).value.code, 0);
    }
  }

  // ----- one session per code, exactly

  /** Call i of the run opened a session. */
  predicate OpenedAt(ttl: int, code: string, at: int, ops: seq<Op>, i: nat)
    requires StartOk(ttl, code, at, ops) && i < |ops|
  {
    ops[i].Pair? && Opened(OutcomeAt(Started(ttl, code, at), ops, i))
  }

  predicate SameCode(ttl: int, code: string, at: int, ops: seq<Op>, i: nat, j: nat)
    requires StartOk(ttl, code, at, ops) && i < |ops| && j < |ops|
    requires Attempting(Started(ttl, code, at), ops, i) && Attempting(Started(ttl, code, at), ops, j)
  {
    CodeNumber(Started(ttl, code, at), ops, i) == CodeNumber(Started(ttl, code, at), ops, j)
  }

  /** In no continuation of the run does a later call open a session on the code of call i. */
  ghost predicate CodeSpent(ttl: int, code: string, at: int, ops: seq<Op>, i: nat)
    requires StartOk(ttl, code, at, ops) && i < |ops| && OpenedAt(ttl, code, at, ops, i)
  {
    forall more: seq<Op>, j: nat ::
      StartOk(ttl, code, at, ops + more) && i < j < |ops + more| && OpenedAt(ttl, code, at, ops + more, j)
      && OpenedAt(ttl, code, at, ops + more, i)
      ==> !SameCode(ttl, code, at, ops + more, i, j)
  }

  lemma PrefixCurrent(g: Sessions, ops: seq<Op>, more: seq<Op>, i: nat)
    requires i < |ops| && forall op <- ops + more :: OpOk(op)
    requires forall op <- ops :: OpOk(op)
    ensures OutcomeAt(g, ops + more, i) == OutcomeAt(g, ops, i)
    ensures Attempting(g, ops, i) <==> Attempting(g, ops + more, i)
    ensures Attempting(g, ops, i) ==> Current(g, ops + more, i) == Current(g, ops, i)
  {
    hide Step, Refreshed;
    assert (ops + more)[..i] == ops[..i];
  }

  /** The call that opened the session came with a fresh candidate, or ended after its code's lifetime. */
  predicate Spends(ttl: int, code: string, at: int, ops: seq<Op>, i: nat)
    requires StartOk(ttl, code, at, ops) && i < |ops| && OpenedAt(ttl, code, at, ops, i)
  {
    var h := Current(Started(ttl, code, at), ops, i);
    !NoFreshDraw(ops[i].after, h.code) || ops[i].at.renew >= h.expiresAt
  }

  lemma SpentCode(ttl: int, code: string, at: int, ops: seq<Op>, i: nat, j: nat)
    requires StartOk(ttl, code, at, ops) && i < j < |ops|
    requires OpenedAt(ttl, code, at, ops, i) && OpenedAt(ttl, code, at, ops, j) && Spends(ttl, code, at, ops, i)
    ensures !SameCode(ttl, code, at, ops, i, j)
  {
    hide Step, After, Current, NoFreshDraw, SixDigits, DrawFrom;
    var g := Started(ttl, code, at);
    if SameCode(ttl, code, at, ops, i, j) {
      OneSessionPerCode(ttl, code, at, ops, i, j);
      StuckExactly(After(g, ops[..i]), ops[i]);
      SameIssue(ttl, code, at, ops, i, j);
      ComparedInLifetime(ttl, code, at, ops, j);
      CurrentExpires(ttl, code, at, ops, i);
    }
  }

  lemma CurrentExpires(ttl: int, code: string, at: int, ops: seq<Op>, k: nat)
    requires StartOk(ttl, code, at, ops) && k < |ops| && Attempting(Started(ttl, code, at), ops, k)
    ensures var h := Current(Started(ttl, code, at), ops, k);
            h.issued != [] && h.expiresAt == h.issued[|h.issued| - 1] + 300_000
  {
    hide SixDigits, After, DrawFrom;
    CodesOk(ttl, code, at, ops[..k]);
  }

  /** The same right guess again, as soon as the clock allows. */
  function Again(ops: seq<Op>, i: nat, h: Sessions): Op
    requires i < |ops| && ops[i].Pair?
  {
    var r := ops[i].at.renew;
    ops[i].(guess := h.code, at := Readings(r, r, Max(r, 0), Max(r, 0)))
  }

  lemma UsedAgain(ttl: int, code: string, at: int, ops: seq<Op>)
    requires ops != [] && StartOk(ttl, code, at, ops) && OpenedAt(ttl, code, at, ops, |ops| - 1)
    requires !Spends(ttl, code, at, ops, |ops| - 1)
    ensures !CodeSpent(ttl, code, at, ops, |ops| - 1)
  {
    hide Step, After, NoFreshDraw, SixDigits, DrawFrom;
    var g, i := Started(ttl, code, at), |ops| - 1;
    var h := Current(g, ops, i);
    var again := Again(ops, i, h);
    var longer := ops + [again];
    AgainOk(ttl, code, at, ops, again);
    PrefixCurrent(g, ops, [again], i);
    AfterNext(g, longer, i);
    assert longer[..i] == ops[..i] && longer[..i + 1] == ops;
    StuckExactly(After(g, ops[..i]), ops[i]);
    StillOpen(After(g, ops[..i]), ops[i], again);
    assert OpenedAt(ttl, code, at, longer, i + 1);
    assert SameCode(ttl, code, at, longer, i, i + 1);
  }

  lemma AgainOk(ttl: int, code: string, at: int, ops: seq<Op>, again: Op)
    requires ops != [] && StartOk(ttl, code, at, ops) && ops[|ops| - 1].Pair?
    requires again.Pair? && OpOk(again) && again.at.check >= ops[|ops| - 1].at.renew
    ensures StartOk(ttl, code, at, ops + [again])
  {
    hide SixDigits;
    var last := ops[|ops| - 1];
    assert last in ops;
    forall i | 0 <= i < |ops| && Timed(ops[i])
      ensures ops[i].at.renew <= again.at.check && at <= ops[i].at.check
    {
      assert ops[i] in ops;
    }
  }

  /** After a session whose code was not replaced, the same guess opens another. */
  lemma StillOpen(g: Sessions, op: Op, again: Op)
    requires op.Pair? && OpOk(op) && Step(g, op).1 != Stuck && OpensBeforehand(g, op)
    requires NoFreshDraw(op.after, Refreshed(g, op.at, op.before).value.code)
    requires again.Pair? && OpOk(again) && again.source == op.source && again.at.now >= 0
    requires again.guess == Refreshed(g, op.at, op.before).value.code
    requires again.at.check < Refreshed(g, op.at, op.before).value.expiresAt
    ensures var n := Step(g, op).0;
            && Refreshed(n, again.at, again.before) == Some(n)
            && n.issued == Refreshed(g, op.at, op.before).value.issued
            && Opened(Step(n, again).1)
  {
    hide DrawFrom, SixDigits, NoFreshDraw;
    StuckExactly(g, op);
    StuckExactly(Step(g, op).0, again);
  }

  /**
   * One session per code, exactly: after a call that opened a session no continuation opens another on the same
   * code if and only if the call was given a fresh candidate, or the code's lifetime was over when it ended.
   */
  lemma OneSessionExactly(ttl: int, code: string, at: int, ops: seq<Op>)
    requires ops != [] && StartOk(ttl, code, at, ops) && OpenedAt(ttl, code, at, ops, |ops| - 1)
    ensures CodeSpent(ttl, code, at, ops, |ops| - 1) <==> Spends(ttl, code, at, ops, |ops| - 1)
  {
    hide Step, After, Current, NoFreshDraw, StartOk, SameCode;
    var g, i := Started(ttl, code, at), |ops| - 1;
    if Spends(ttl, code, at, ops, i) {
      forall more: seq<Op>, j: nat |
        StartOk(ttl, code, at, ops + more) && i < j < |ops + more| && OpenedAt(ttl, code, at, ops + more, j)
        && OpenedAt(ttl, code, at, ops + more, i)
        ensures !SameCode(ttl, code, at, ops + more, i, j)
      {
        AllOk(ttl, code, at, ops + more);
        AllOk(ttl, code, at, ops);
        PrefixCurrent(g, ops, more, i);
        SpentCode(ttl, code, at, ops + more, i, j);
      }
    } else {
      UsedAgain(ttl, code, at, ops);
    }
  }

  lemma AllOk(ttl: int, code: string, at: int, ops: seq<Op>)
    requires StartOk(ttl, code, at, ops)
    ensures forall op <- ops :: OpOk(op)
  {
  }

  // ----- runs on one code

  const CODE := "000000"
  const WRONG_CODE := "111111"
  const AT_ONCE := Readings(0, 0, 0, 0)

  /** The generator repeats the code. */
  function Repeats(): (draws: seq<string>)
    ensures |draws| == DRAWS && NoFreshDraw(draws, CODE)
  {
    seq(DRAWS, i => CODE)
  }

  function Try(guess: string, at: Readings): Op {
    Pair("source", "client-01", guess, "digest", "key", at, Repeats(), Repeats(), 0)
  }

  lemma TryMisses(g: Sessions, at: Readings)
    requires g.code == CODE && at.check < g.expiresAt && OpOk(Try(WRONG_CODE, at))
    requires AttemptOf(g, "source").lockedUntil <= at.now
    ensures var a := AttemptOf(g, "source");
            var b := if a.failures + 1 >= 5 then Attempt(0, at.now + 600_000)
                     else Attempt(a.failures + 1, a.lockedUntil);
            && Refreshed(g, at, Repeats()) == Some(g)
            && Step(g, Try(WRONG_CODE, at)).0 == WithAttempt(g, "source", b)
            && Step(g, Try(WRONG_CODE, at)).1 == if a.failures + 1 >= 5 then WrongAndLocked else Wrong
  {
    assert WRONG_CODE[0] != CODE[0];
  }

  lemma TryHits(g: Sessions, at: Readings)
    requires g.code == CODE && at.check < g.expiresAt && OpOk(Try(CODE, at))
    requires AttemptOf(g, "source").lockedUntil <= at.now
    ensures var (after, outcome) := Step(g, Try(CODE, at));
            && Refreshed(g, at, Repeats()) == Some(g) && outcome == PairedStuck
            && after == g.(attempts := after.attempts, sessions := after.sessions)
            && AttemptOf(after, "source") == Attempt(0, 0)
  {
    hide DrawFrom, NoFreshDraw;
    StuckExactly(g, Try(CODE, at));
  }

  function FirstCode(): Sessions {
    Started(1, CODE, 0)
  }

  lemma CodeIsDigits()
    ensures SixDigits(CODE)
  {
  }

  lemma StartOkFrom(ops: seq<Op>)
    requires Timely(ops) && forall op <- ops :: Timed(op) ==> 0 <= op.at.check
    ensures StartOk(1, CODE, 0, ops)
  {
    CodeIsDigits();
  }

  /** A right guess whose candidates repeat the code, and the guess again. */
  function UsedTwice(): seq<Op> {
    [Try(CODE, AT_ONCE), Try(CODE, AT_ONCE)]
  }

  /** One code can open two sessions. */
  lemma TwoSessionsOneCode()
    ensures StartOk(1, CODE, 0, UsedTwice())
    ensures OpenedAt(1, CODE, 0, UsedTwice(), 0) && OpenedAt(1, CODE, 0, UsedTwice(), 1)
    ensures SameCode(1, CODE, 0, UsedTwice(), 0, 1)
  {
    hide Step, Repeats, NoFreshDraw, SixDigits, Refreshed;
    var ops, g := UsedTwice(), FirstCode();
    StartOkFrom(ops);
    assert ops[..0] == [];
    TryHits(g, AT_ONCE);
    AfterNext(g, ops, 0);
    TryHits(After(g, ops[..1]), AT_ONCE);
  }

  // ----- guesses per code, exactly

  /** No call stalls longer between testing the code's expiry and comparing the guess. */
  predicate StallsAtMost(ops: seq<Op>, stall: int) {
    forall op <- ops :: op.Pair? ==> op.at.now - op.at.check <= stall
  }

  predicate OnOneCode(ttl: int, code: string, at: int, ops: seq<Op>, source: string, ks: seq<nat>)
    requires StartOk(ttl, code, at, ops) && AllMissed(Started(ttl, code, at), ops, source, ks)
  {
    forall i, j :: 0 <= i < j < |ks| ==> SameCode(ttl, code, at, ops, ks[i], ks[j])
  }

  const LATE := Readings(299_999, 299_999, 600_000, 600_000)

  /** Five wrong guesses at once, and a sixth in a call that stalls. */
  function LateRun(): (ops: seq<Op>)
    ensures |ops| == 6
    ensures forall i :: 0 <= i < 6 ==> ops[i] == Try(WRONG_CODE, if i < 5 then AT_ONCE else LATE)
  {
    seq(6, i => Try(WRONG_CODE, if i < 5 then AT_ONCE else LATE))
  }

  lemma LateRunOk()
    ensures StartOk(1, CODE, 0, LateRun()) && StallsAtMost(LateRun(), 300_001)
  {
    hide LateRun, Repeats;
    forall op | op in LateRun()
      ensures OpOk(op) && op.Pair? && 0 <= op.at.check && op.at.now - op.at.check <= 300_001
    {
      var i :| 0 <= i < 6 && LateRun()[i] == op;
    }
    StartOkFrom(LateRun());
  }

  lemma {:induction false} LateStates(k: nat)
    requires k <= 5 && forall op <- LateRun() :: OpOk(op)
    ensures var s := After(FirstCode(), LateRun()[..k]);
            && s == FirstCode().(attempts := s.attempts)
            && AttemptOf(s, "source") == if k < 5 then Attempt(k, 0) else Attempt(0, 600_000)
  {
    hide Step, Repeats, NoFreshDraw, Refreshed;
    if k == 0 {
      assert LateRun()[..0] == [];
    } else {
      LateStates(k - 1);
      AfterNext(FirstCode(), LateRun(), k - 1);
      TryMisses(After(FirstCode(), LateRun()[..k - 1]), AT_ONCE);
    }
  }

  lemma LateMisses(k: nat)
    requires k < 6 && forall op <- LateRun() :: OpOk(op)
    ensures Missed(FirstCode(), LateRun(), "source", k) && Attempting(FirstCode(), LateRun(), k)
    ensures CodeNumber(FirstCode(), LateRun(), k) == 1
  {
    hide Step, Repeats, NoFreshDraw, Refreshed, After;
    LateStates(k);
    assert LateRun()[k] in LateRun();
    TryMisses(After(FirstCode(), LateRun()[..k]), LateRun()[k].at);
  }

  const SIX: seq<nat> := [0, 1, 2, 3, 4, 5]

  /** A call that stalls five minutes and a millisecond compares a sixth wrong guess with one code. */
  lemma SixGuessesOnOneCode()
    ensures StartOk(1, CODE, 0, LateRun()) && StallsAtMost(LateRun(), 300_001)
    ensures NeverStuck(FirstCode(), LateRun(), "source")
    ensures Rising(SIX) && AllMissed(FirstCode(), LateRun(), "source", SIX)
    ensures OnOneCode(1, CODE, 0, LateRun(), "source", SIX)
  {
    hide CodeNumber, Attempting;
    LateRunOk();
    AllOk(1, CODE, 0, LateRun());
    hide Missed, After, StartOk, Current, LateRun;
    forall k: nat | k < 6
      ensures Missed(FirstCode(), LateRun(), "source", k) && Attempting(FirstCode(), LateRun(), k)
      ensures CodeNumber(FirstCode(), LateRun(), k) == 1
      ensures OutcomeAt(FirstCode(), LateRun(), k) != PairedStuck
    {
      LateMisses(k);
      MissIsNoHit(FirstCode(), LateRun(), "source", k);
    }
  }

  lemma MissIsNoHit(g: Sessions, ops: seq<Op>, source: string, k: nat)
    requires k < |ops| && (forall op <- ops :: OpOk(op)) && Missed(g, ops, source, k)
    ensures OutcomeAt(g, ops, k) != PairedStuck && OutcomeAt(g, ops, k) != Stuck
  {
  }

  ghost predicate AtMostFive(stall: int) {
    forall ttl: int, code: string, at: int, ops: seq<Op>, source: string, ks: seq<nat> ::
      (GuessesOnOneCode(ttl, code, at, ops, source, ks) && StallsAtMost(ops, stall)
       && NeverStuck(Started(ttl, code, at), ops, source)) ==> |ks| <= 5
  }

  /** The wrong guesses of a source at one code, in some run. */
  ghost predicate GuessesOnOneCode(ttl: int, code: string, at: int, ops: seq<Op>, source: string, ks: seq<nat>) {
    && StartOk(ttl, code, at, ops) && Rising(ks)
    && AllMissed(Started(ttl, code, at), ops, source, ks)
    && OnOneCode(ttl, code, at, ops, source, ks)
  }

  /** Where codes are replaced after use, one source compares at most five wrong guesses with any one issued code,
      over all runs in which no call stalls longer than the given time, exactly when that is at most 300 s. */
  lemma FiveGuessesThreshold(stall: int)
    ensures AtMostFive(stall) <==> stall <= 300_000
  {
    hide SixDigits, Rising, AllMissed, OnOneCode, NeverStuck, Started, LateRun;
    if stall <= 300_000 {
      forall ttl: int, code: string, at: int, ops: seq<Op>, source: string, ks: seq<nat> |
        GuessesOnOneCode(ttl, code, at, ops, source, ks) && StallsAtMost(ops, stall)
        && NeverStuck(Started(ttl, code, at), ops, source)
        ensures |ks| <= 5
      {
        FiveAtMost(ttl, code, at, ops, source, ks, stall);
      }
    } else {
      SixGuessesOnOneCode();
      LongerStall(LateRun(), 300_001, stall);
      assert GuessesOnOneCode(1, CODE, 0, LateRun(), "source", SIX);
      assert |SIX| == 6;
    }
  }

  lemma LongerStall(ops: seq<Op>, a: int, b: int)
    requires StallsAtMost(ops, a) && a <= b
    ensures StallsAtMost(ops, b)
  {
  }

  lemma FiveAtMost(ttl: int, code: string, at: int, ops: seq<Op>, source: string, ks: seq<nat>, stall: int)
    requires stall <= 300_000 && StallsAtMost(ops, stall)
    requires GuessesOnOneCode(ttl, code, at, ops, source, ks) && NeverStuck(Started(ttl, code, at), ops, source)
    ensures |ks| <= 5
  {
    hide After, Current;
    FiveGuessesPerCode(ttl, code, at, ops, source, ks);
  }

  // ----- without replacement

  /** Three misses, a right guess whose code is not replaced, and three more misses. */
  function StuckRun(): (ops: seq<Op>)
    ensures |ops| == 7
    ensures forall i :: 0 <= i < 7 ==> ops[i] == Try(if i == 3 then CODE else WRONG_CODE, AT_ONCE)
  {
    seq(7, i => Try(if i == 3 then CODE else WRONG_CODE, AT_ONCE))
  }

  lemma StuckRunOk()
    ensures StartOk(1, CODE, 0, StuckRun()) && StallsAtMost(StuckRun(), 0)
  {
    hide StuckRun, Repeats;
    forall op | op in StuckRun()
      ensures OpOk(op) && op.Pair? && op.at == AT_ONCE
    {
      var i :| 0 <= i < 7 && StuckRun()[i] == op;
    }
    StartOkFrom(StuckRun());
  }

  lemma {:induction false} StuckStates(k: nat)
    requires k <= 7 && forall op <- StuckRun() :: OpOk(op)
    ensures var s := After(FirstCode(), StuckRun()[..k]);
            && s == FirstCode().(attempts := s.attempts, sessions := s.sessions)
            && AttemptOf(s, "source") == Attempt(if k <= 3 then k else k - 4, 0)
  {
    hide Step, Repeats, NoFreshDraw, Refreshed;
    if k == 0 {
      assert StuckRun()[..0] == [];
    } else {
      StuckStates(k - 1);
      AfterNext(FirstCode(), StuckRun(), k - 1);
      if k - 1 == 3 {
        TryHits(After(FirstCode(), StuckRun()[..k - 1]), AT_ONCE);
      } else {
        TryMisses(After(FirstCode(), StuckRun()[..k - 1]), AT_ONCE);
      }
    }
  }

  lemma StuckRunMisses(k: nat)
    requires k < 7 && k != 3 && forall op <- StuckRun() :: OpOk(op)
    ensures Missed(FirstCode(), StuckRun(), "source", k) && Attempting(FirstCode(), StuckRun(), k)
    ensures CodeNumber(FirstCode(), StuckRun(), k) == 1
  {
    hide Step, Repeats, NoFreshDraw, Refreshed, After;
    StuckStates(k);
    assert StuckRun()[k] in StuckRun();
    TryMisses(After(FirstCode(), StuckRun()[..k]), AT_ONCE);
  }

  const AROUND: seq<nat> := [0, 1, 2, 4, 5, 6]

  /** Where a used code is not replaced, six wrong guesses at it need no time at all. */
  lemma SixGuessesAroundAUse()
    ensures GuessesOnOneCode(1, CODE, 0, StuckRun(), "source", AROUND) && StallsAtMost(StuckRun(), 0)
    ensures |AROUND| == 6
  {
    hide CodeNumber, Attempting;
    StuckRunOk();
    AllOk(1, CODE, 0, StuckRun());
    hide Missed, After, StartOk, Current, StuckRun;
    forall k: nat | k < 7 && k != 3
      ensures Missed(FirstCode(), StuckRun(), "source", k) && Attempting(FirstCode(), StuckRun(), k)
      ensures CodeNumber(FirstCode(), StuckRun(), k) == 1
    {
      StuckRunMisses(k);
    }
    assert forall i :: 0 <= i < 6 ==> AROUND[i] < 7 && AROUND[i] != 3;
    assert StartOk(1, CODE, 0, StuckRun());
    assert Rising(AROUND);
    assert AllMissed(FirstCode(), StuckRun(), "source", AROUND);
    assert OnOneCode(1, CODE, 0, StuckRun(), "source", AROUND);
  }
}
