/** How often pairing codes can be guessed, and what one code is good for, over whole runs of the registry. */
module GuessingBound {
  import opened Pairing

  // ----- runs

  predicate Timed(op: Op) {
    op.Pair? || op.Show?
  }

  /** The clock of the calls never goes back, within a call or from one call to the next. */
  predicate Timely(ops: seq<Op>) {
    && (forall op <- ops :: OpOk(op))
    && (forall i, j :: 0 <= i < j < |ops| && Timed(ops[i]) && Timed(ops[j]) ==> ops[i].at.renew <= ops[j].at.check)
  }

  function After(g: Sessions, ops: seq<Op>): Sessions
    requires forall op <- ops :: OpOk(op)
  {
    if ops == [] then g else Step(After(g, ops[..|ops| - 1]), ops[|ops| - 1]).0
  }

  function OutcomeAt(g: Sessions, ops: seq<Op>, k: nat): Outcome
    requires k < |ops| && forall op <- ops :: OpOk(op)
  {
    Step(After(g, ops[..k]), ops[k]).1
  }

  predicate From(ops: seq<Op>, source: string, k: nat)
    requires k < |ops|
  {
    ops[k].Pair? && ops[k].source == source
  }

  /** The guess was compared with the code and differed. */
  predicate Missed(g: Sessions, ops: seq<Op>, source: string, k: nat)
    requires k < |ops| && forall op <- ops :: OpOk(op)
  {
    From(ops, source, k) && (OutcomeAt(g, ops, k) == Wrong || OutcomeAt(g, ops, k) == WrongAndLocked)
  }

  predicate Hit(g: Sessions, ops: seq<Op>, source: string, k: nat)
    requires k < |ops| && forall op <- ops :: OpOk(op)
  {
    From(ops, source, k) && (OutcomeAt(g, ops, k).Paired? || OutcomeAt(g, ops, k) == PairedStuck)
  }

  lemma PrefixOutcome(g: Sessions, ops: seq<Op>, n: nat, k: nat)
    requires k < n <= |ops| && forall op <- ops :: OpOk(op)
    ensures OutcomeAt(g, ops[..n], k) == OutcomeAt(g, ops, k)
  {
    assert ops[..n][..k] == ops[..k];
  }

  // ----- the misses of one source since its last success

  function Misses(g: Sessions, ops: seq<Op>, source: string): seq<nat>
    requires forall op <- ops :: OpOk(op)
  {
    if ops == [] then []
    else
      var front := Misses(g, ops[..|ops| - 1], source);
      if Missed(g, ops, source, |ops| - 1) then front + [|ops| - 1]
      else if Hit(g, ops, source, |ops| - 1) then []
      else front
  }

  predicate Rising(ks: seq<nat>) {
    forall i, j :: 0 <= i < j < |ks| ==> ks[i] < ks[j]
  }

  predicate AllMissed(g: Sessions, ops: seq<Op>, source: string, ks: seq<nat>)
    requires forall op <- ops :: OpOk(op)
  {
    forall i :: 0 <= i < |ks| ==> ks[i] < |ops| && Missed(g, ops, source, ks[i])
  }

  predicate NoHitBetween(g: Sessions, ops: seq<Op>, source: string, after: nat, before: nat)
    requires forall op <- ops :: OpOk(op)
  {
    forall i :: after < i < before && i < |ops| ==> !Hit(g, ops, source, i)
  }

  lemma {:induction false} MissesAreMisses(g: Sessions, ops: seq<Op>, source: string)
    requires forall op <- ops :: OpOk(op)
    ensures Rising(Misses(g, ops, source))
    ensures AllMissed(g, ops, source, Misses(g, ops, source))
  {
    hide Step;
    if ops != [] {
      var front := ops[..|ops| - 1];
      MissesAreMisses(g, front, source);
      var misses := Misses(g, front, source);
      forall i | 0 <= i < |misses|
        ensures misses[i] < |front| && Missed(g, ops, source, misses[i])
      {
        PrefixOutcome(g, ops, |front|, misses[i]);
      }
    }
  }

  /** A miss stays listed until the source succeeds. */
  lemma {:induction false} MissStays(g: Sessions, ops: seq<Op>, source: string, k: nat)
    requires k < |ops| && (forall op <- ops :: OpOk(op)) && Missed(g, ops, source, k)
    requires NoHitBetween(g, ops, source, k, |ops|)
    ensures k in Misses(g, ops, source)
    decreases |ops|
  {
    hide Step;
    if k < |ops| - 1 {
      var front := ops[..|ops| - 1];
      PrefixOutcome(g, ops, |front|, k);
      forall i | k < i < |front|
        ensures !Hit(g, front, source, i)
      {
        assert !Hit(g, ops, source, i);
        PrefixOutcome(g, ops, |front|, i);
      }
      MissStays(g, front, source, k);
    }
  }

  // ----- every fifth miss locks the source

  function LastFifth(n: nat): (l: nat)
    requires n >= 5
    ensures l < n <= l + 5 && l % 5 == 4
  {
    n - n % 5 - 1
  }

  predicate Calls(ops: seq<Op>, ks: seq<nat>) {
    forall i :: 0 <= i < |ks| ==> ks[i] < |ops| && ops[ks[i]].Pair?
  }

  predicate Locks(ops: seq<Op>, misses: seq<nat>)
    requires Calls(ops, misses)
  {
    forall i, j :: 0 <= i < j < |misses| && i % 5 == 4 ==>
                     ops[misses[i]].at.now + 600_000 <= ops[misses[j]].at.now
  }

  predicate Counts(ops: seq<Op>, misses: seq<nat>, a: Attempt)
    requires Calls(ops, misses)
  {
    && a.failures == |misses| % 5
    && a.lockedUntil == (if |misses| < 5 then 0 else ops[misses[LastFifth(|misses|)]].at.now + 600_000)
  }

  predicate Tracked(g: Sessions, ops: seq<Op>, source: string)
    requires forall op <- ops :: OpOk(op)
  {
    var misses := Misses(g, ops, source);
    && Calls(ops, misses)
    && Locks(ops, misses)
    && Counts(ops, misses, AttemptOf(After(g, ops), source))
  }

  /** What one call does to the attempts of a source. */
  lemma AttemptStep(g: Sessions, op: Op, source: string)
    requires OpOk(op)
    ensures var (after, outcome) := Step(g, op);
            var a, b := AttemptOf(g, source), AttemptOf(after, source);
            if op.Pair? && op.source == source then
              && (outcome == Wrong || outcome == WrongAndLocked ==> a.lockedUntil <= op.at.now)
              && (outcome == Wrong ==> a.failures + 1 < 5 && b == Attempt(a.failures + 1, a.lockedUntil))
              && (outcome == WrongAndLocked ==> a.failures + 1 >= 5 && b == Attempt(0, op.at.now + 600_000))
              && (outcome.Paired? || outcome == PairedStuck ==> b == Attempt(0, 0))
              && (outcome == Stuck || outcome.Locked? ==> b == a)
              && (outcome == Wrong || outcome == WrongAndLocked || outcome.Paired? || outcome == PairedStuck
                  || outcome == Stuck || outcome.Locked?)
            else a == b
  {
    hide DrawFrom;
  }

  lemma Earlier(ops: seq<Op>, i: nat, j: nat)
    requires Timely(ops) && i < j < |ops| && ops[i].Pair? && ops[j].Pair?
    ensures ops[i].at.now <= ops[j].at.now
  {
    assert OpOk(ops[i]) && OpOk(ops[j]);
  }

  lemma NoEarlierLock(ops: seq<Op>, misses: seq<nat>, now: int)
    requires Timely(ops) && Rising(misses) && Calls(ops, misses)
    requires |misses| >= 5 ==> ops[misses[LastFifth(|misses|)]].at.now + 600_000 <= now
    ensures forall i :: 0 <= i < |misses| && i % 5 == 4 ==> ops[misses[i]].at.now + 600_000 <= now
  {
    forall i | 0 <= i < |misses| && i % 5 == 4
      ensures ops[misses[i]].at.now + 600_000 <= now
    {
      var last := LastFifth(|misses|);
      if i < last {
        Earlier(ops, misses[i], misses[last]);
      }
    }
  }

  lemma NextFifth(n: nat)
    ensures n % 5 == 4 ==> (n + 1) % 5 == 0 && n + 1 >= 5 && LastFifth(n + 1) == n
    ensures n % 5 != 4 ==> (n + 1) % 5 == n % 5 + 1
    ensures n % 5 != 4 ==> (n < 5 <==> n + 1 < 5)
    ensures n % 5 != 4 && n >= 5 ==> LastFifth(n + 1) == LastFifth(n)
  {
  }

  lemma MissTracked(ops: seq<Op>, misses: seq<nat>, a: Attempt, b: Attempt, locked: bool)
    requires Timely(ops) && ops != [] && ops[|ops| - 1].Pair?
    requires Rising(misses) && Calls(ops[..|ops| - 1], misses) && Calls(ops, misses)
    requires Locks(ops, misses) && Counts(ops, misses, a) && a.lockedUntil <= ops[|ops| - 1].at.now
    requires if locked then a.failures + 1 >= 5 && b == Attempt(0, ops[|ops| - 1].at.now + 600_000)
             else a.failures + 1 < 5 && b == Attempt(a.failures + 1, a.lockedUntil)
    ensures Locks(ops, misses + [|ops| - 1]) && Counts(ops, misses + [|ops| - 1], b)
  {
    hide LastFifth;
    var more := misses + [|ops| - 1];
    NoEarlierLock(ops, misses, ops[|ops| - 1].at.now);
    NextFifth(|misses|);
    assert forall i :: 0 <= i < |misses| ==> more[i] == misses[i];
  }

  lemma {:induction false} AlwaysTracked(g: Sessions, ops: seq<Op>, source: string)
    requires Timely(ops) && g.attempts == map[]
    ensures Tracked(g, ops, source)
  {
    hide Step, OpOk, LastFifth, Locks, Counts;
    if ops == [] {
      assert Locks(ops, []) && Counts(ops, [], Attempt(0, 0)) by { Nothing(ops); }
    } else {
      var front, k := ops[..|ops| - 1], |ops| - 1;
      AlwaysTracked(g, front, source);
      MissesAreMisses(g, front, source);
      var misses := Misses(g, front, source);
      var a, b := AttemptOf(After(g, front), source), AttemptOf(After(g, ops), source);
      SameLocks(ops, k, misses, a);
      AttemptStep(After(g, front), ops[k], source);
      if Missed(g, ops, source, k) {
        MissTracked(ops, misses, a, b, OutcomeAt(g, ops, k) == WrongAndLocked);
      } else if Hit(g, ops, source, k) {
        Nothing(ops);
      }
    }
  }

  lemma Nothing(ops: seq<Op>)
    ensures Locks(ops, []) && Counts(ops, [], Attempt(0, 0))
  {
  }

  lemma SameLocks(ops: seq<Op>, n: nat, misses: seq<nat>, a: Attempt)
    requires n <= |ops| && Calls(ops[..n], misses)
    ensures Calls(ops, misses)
    ensures Locks(ops[..n], misses) == Locks(ops, misses)
    ensures Counts(ops[..n], misses, a) == Counts(ops, misses, a)
  {
  }

  // ----- the bound

  lemma {:induction false} SpanOfMisses(ops: seq<Op>, misses: seq<nat>, i: nat, j: nat)
    requires Timely(ops) && Rising(misses) && i <= j < |misses|
    requires Calls(ops, misses)
    requires Locks(ops, misses)
    ensures ops[misses[i]].at.now + 600_000 * ((j - i) / 5) <= ops[misses[j]].at.now
    decreases j - i
  {
    if j - i >= 5 {
      var m := FifthFrom(i);
      assert ops[misses[m]].at.now + 600_000 <= ops[misses[i + 5]].at.now;
      if i < m {
        Earlier(ops, misses[i], misses[m]);
      }
      SpanOfMisses(ops, misses, i + 5, j);
      assert (j - i) / 5 == (j - (i + 5)) / 5 + 1;
    } else if i < j {
      Earlier(ops, misses[i], misses[j]);
    }
  }

  function FifthFrom(i: nat): (m: nat)
    ensures i <= m < i + 5 && m % 5 == 4
  {
    i + 4 - i % 5
  }

  /** Distinct positions of a rising list, themselves rising, are at least as far apart in it. */
  lemma {:induction false} IndexesApart(misses: seq<nat>, ks: seq<nat>, n: nat) returns (i: nat, j: nat)
    requires Rising(misses) && Rising(ks) && n < |ks| && forall m :: 0 <= m < |ks| ==> ks[m] in misses
    ensures i <= j < |misses| && misses[i] == ks[0] && misses[j] == ks[n] && j - i >= n
  {
    if n == 0 {
      assert ks[0] in misses;
      i :| i < |misses| && misses[i] == ks[0];
      j := i;
    } else {
      var before: nat;
      i, before := IndexesApart(misses, ks, n - 1);
      assert ks[n] in misses;
      j :| j < |misses| && misses[j] == ks[n];
      assert ks[n - 1] < ks[n];
    }
  }

  /**
   * Wrong guesses from one source with no success between them: n of them take 600 s for every five, so within
   * D milliseconds at most 5 * (D / 600_000 + 1) are compared with the code.
   */
  lemma GuessRate(g: Sessions, ops: seq<Op>, source: string, ks: seq<nat>)
    requires Timely(ops) && g.attempts == map[] && ks != [] && Rising(ks)
    requires AllMissed(g, ops, source, ks) && NoHitBetween(g, ops, source, ks[0], ks[|ks| - 1])
    ensures var span := ops[ks[|ks| - 1]].at.now - ops[ks[0]].at.now;
            span >= 0 && |ks| <= 5 * (span / 600_000 + 1)
  {
    hide Step, OpOk, Locks, Counts, Missed, Hit;
    var last := |ks| - 1;
    assert ks[last] in ks;
    var upTo := ops[..ks[last] + 1];
    AlwaysTracked(g, upTo, source);
    MissesAreMisses(g, upTo, source);
    var misses := Misses(g, upTo, source);
    forall m | 0 <= m < |ks|
      ensures ks[m] in misses
    {
      ListedMiss(g, ops, source, ks, m);
    }
    var i, j := IndexesApart(misses, ks, last);
    SpanOfMisses(upTo, misses, i, j);
    RateFromSpan(j - i, last, ops[ks[last]].at.now - ops[ks[0]].at.now);
  }

  lemma ListedMiss(g: Sessions, ops: seq<Op>, source: string, ks: seq<nat>, m: nat)
    requires Timely(ops) && m < |ks| && Rising(ks)
    requires AllMissed(g, ops, source, ks) && NoHitBetween(g, ops, source, ks[0], ks[|ks| - 1])
    ensures ks[m] in Misses(g, ops[..ks[|ks| - 1] + 1], source)
  {
    hide Step, OpOk, Misses;
    var end := ks[|ks| - 1];
    var upTo := ops[..end + 1];
    assert ks[0] <= ks[m] <= end;
    PrefixOutcome(g, ops, end + 1, ks[m]);
    forall i | ks[m] < i < |upTo|
      ensures !Hit(g, upTo, source, i)
    {
      PrefixOutcome(g, ops, end + 1, i);
      if i == end {
        assert Missed(g, ops, source, end);
      } else {
        assert !Hit(g, ops, source, i);
      }
    }
    MissStays(g, upTo, source, ks[m]);
  }

  lemma RateFromSpan(d: nat, last: nat, span: int)
    requires d >= last && 600_000 * (d / 5) <= span
    ensures span >= 0 && last + 1 <= 5 * (span / 600_000 + 1)
  {
    assert d / 5 <= span / 600_000;
  }

  /** Six wrong guesses in a row take at least ten minutes. */
  lemma SixWrongGuesses(g: Sessions, ops: seq<Op>, source: string, ks: seq<nat>)
    requires Timely(ops) && g.attempts == map[] && |ks| == 6 && Rising(ks)
    requires AllMissed(g, ops, source, ks) && NoHitBetween(g, ops, source, ks[0], ks[5])
    ensures ops[ks[5]].at.now - ops[ks[0]].at.now >= 600_000
  {
    hide Timely, Missed, Hit;
    GuessRate(g, ops, source, ks);
  }
}
