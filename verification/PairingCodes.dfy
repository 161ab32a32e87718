/** What one pairing code is good for, and which credentials are live, over whole runs of the registry. */
module PairingCodes {
  import opened Wrappers
  import opened Pairing
  import opened GuessingBound

  /** The registry as constructed at a reading of the clock. */
  function Started(ttl: int, code: string, at: int): Sessions {
    Sessions(ttl, code, at + 300_000, map[], map[], [at])
  }

  predicate StartOk(ttl: int, code: string, at: int, ops: seq<Op>) {
    ttl > 0 && SixDigits(code) && Timely(ops) && forall op <- ops :: Timed(op) ==> at <= op.at.check
  }

  // ----- the code a call is compared with

  predicate Attempting(g: Sessions, ops: seq<Op>, k: nat)
    requires k < |ops| && forall op <- ops :: OpOk(op)
  {
    ops[k].Pair? && OutcomeAt(g, ops, k) != Stuck
  }

  /** The registry the call attempts on: with an expired code replaced. */
  function Current(g: Sessions, ops: seq<Op>, k: nat): (h: Sessions)
    requires k < |ops| && (forall op <- ops :: OpOk(op)) && Attempting(g, ops, k)
    ensures OpOk(ops[k]) && Refreshed(After(g, ops[..k]), ops[k].at, ops[k].before) == Some(h)
  {
    CurrentExists(After(g, ops[..k]), ops[k]);
    Refreshed(After(g, ops[..k]), ops[k].at, ops[k].before).value
  }

  lemma CurrentExists(g: Sessions, op: Op)
    requires op.Pair? && OpOk(op) && Step(g, op).1 != Stuck
    ensures Refreshed(g, op.at, op.before).Some?
  {
  }

  /** Codes are numbered in the order they were issued. */
  function CodeNumber(g: Sessions, ops: seq<Op>, k: nat): nat
    requires k < |ops| && (forall op <- ops :: OpOk(op)) && Attempting(g, ops, k)
  {
    |Current(g, ops, k).issued|
  }

  // ----- codes in a run

  predicate CodeOk(g: Sessions) {
    SixDigits(g.code) && g.issued != [] && g.expiresAt == g.issued[|g.issued| - 1] + 300_000
  }

  predicate Opened(o: Outcome) {
    o.Paired? || o == PairedStuck
  }

  lemma StepCode(g: Sessions, op: Op)
    requires CodeOk(g) && OpOk(op)
    ensures CodeOk(Step(g, op).0) && g.issued <= Step(g, op).0.issued
    ensures op.Pair? && Step(g, op).1.Paired? ==>
              |Step(g, op).0.issued| > |Refreshed(g, op.at, op.before).value.issued|
    ensures op.Pair? && !Step(g, op).1.Paired? && Step(g, op).1 != Stuck ==>
              Step(g, op).0.issued == Refreshed(g, op.at, op.before).value.issued
    ensures op.Pair? && Step(g, op).1 != Stuck ==>
              g.issued <= Refreshed(g, op.at, op.before).value.issued <= Step(g, op).0.issued
    ensures Timed(op) && g.issued[|g.issued| - 1] <= op.at.check ==>
              Step(g, op).0.issued[|Step(g, op).0.issued| - 1] <= op.at.renew
    ensures !Timed(op) ==> Step(g, op).0.issued == g.issued
  {
    hide DrawFrom, SixDigits;
    if Timed(op) {
      DrawFromMeans(op.before, Some(g.code), 0);
      if op.Pair? && Refreshed(g, op.at, op.before).Some? {
        DrawFromMeans(op.after, Some(Refreshed(g, op.at, op.before).value.code), 0);
      }
    }
  }

  /** The codes are six digits, live 300 s from their issue, and no call's readings are before the last issue. */
  lemma {:induction false} CodesOk(ttl: int, code: string, at: int, ops: seq<Op>)
    requires StartOk(ttl, code, at, ops)
    ensures var g := After(Started(ttl, code, at), ops);
            && CodeOk(g)
            && g.issued[|g.issued| - 1] <= LatestReading(at, ops)
  {
    hide Step, SixDigits;
    if ops != [] {
      var front, op := ops[..|ops| - 1], ops[|ops| - 1];
      CodesOk(ttl, code, at, front);
      LatestBefore(at, ops, |front|, |front|);
      StepCode(After(Started(ttl, code, at), front), op);
    }
  }

  function LatestReading(at: int, ops: seq<Op>): int {
    if ops == [] then at
    else if Timed(ops[|ops| - 1]) then ops[|ops| - 1].at.renew
    else LatestReading(at, ops[..|ops| - 1])
  }

  lemma {:induction false} LatestBefore(at: int, ops: seq<Op>, n: nat, k: nat)
    requires Timely(ops) && n <= k < |ops| && forall op <- ops :: Timed(op) ==> at <= op.at.check
    ensures Timed(ops[k]) ==> LatestReading(at, ops[..n]) <= ops[k].at.check
  {
    hide OpOk;
    if n > 0 {
      LatestBefore(at, ops, n - 1, k);
      assert ops[..n][..n - 1] == ops[..n - 1];
      assert ops[..n][n - 1] == ops[n - 1];
    }
  }

  lemma {:induction false} CodesRise(ttl: int, code: string, at: int, ops: seq<Op>, i: nat, j: nat)
    requires StartOk(ttl, code, at, ops) && i <= j <= |ops|
    ensures After(Started(ttl, code, at), ops[..i]).issued <= After(Started(ttl, code, at), ops[..j]).issued
    decreases j - i
  {
    hide Step, SixDigits, OpOk;
    if i < j {
      CodesRise(ttl, code, at, ops, i, j - 1);
      CodesOk(ttl, code, at, ops[..j - 1]);
      StepCode(After(Started(ttl, code, at), ops[..j - 1]), ops[j - 1]);
      assert ops[..j][..j - 1] == ops[..j - 1];
    }
  }

  /** Around a call: the code it compares with was issued in or before it, and what later calls compare with. */
  lemma CodeAt(ttl: int, code: string, at: int, ops: seq<Op>, k: nat)
    requires StartOk(ttl, code, at, ops) && k < |ops| && Attempting(Started(ttl, code, at), ops, k)
    ensures var g := Started(ttl, code, at);
            && After(g, ops[..k]).issued <= Current(g, ops, k).issued <= After(g, ops[..k + 1]).issued
            && (OutcomeAt(g, ops, k).Paired? ==> |After(g, ops[..k + 1]).issued| > CodeNumber(g, ops, k))
  {
    hide Step, SixDigits, Refreshed;
    var g := Started(ttl, code, at);
    CodesOk(ttl, code, at, ops[..k]);
    StepCode(After(g, ops[..k]), ops[k]);
    AfterNext(g, ops, k);
  }

  lemma AfterNext(g: Sessions, ops: seq<Op>, k: nat)
    requires k < |ops| && forall op <- ops :: OpOk(op)
    ensures After(g, ops[..k + 1]) == Step(After(g, ops[..k]), ops[k]).0
  {
    hide Step, OpOk;
    assert ops[..k + 1][..k] == ops[..k];
  }

  // ----- one session per code

  /** Two sessions opened with the same code mean that the code could not be replaced after the first. */
  lemma OneSessionPerCode(ttl: int, code: string, at: int, ops: seq<Op>, i: nat, j: nat)
    requires StartOk(ttl, code, at, ops) && i < j < |ops|
    requires Attempting(Started(ttl, code, at), ops, i) && Attempting(Started(ttl, code, at), ops, j)
    requires Opened(OutcomeAt(Started(ttl, code, at), ops, i)) && Opened(OutcomeAt(Started(ttl, code, at), ops, j))
    requires CodeNumber(Started(ttl, code, at), ops, i) == CodeNumber(Started(ttl, code, at), ops, j)
    ensures OutcomeAt(Started(ttl, code, at), ops, i) == PairedStuck
  {
    hide Step, StartOk, After, Current;
    CodeAt(ttl, code, at, ops, i);
    CodesRise(ttl, code, at, ops, i + 1, j);
    CodeAt(ttl, code, at, ops, j);
  }

  /** Sixteen repeats of the current code are the one way a used code survives. */
  lemma StuckMeansRepeats(ttl: int, code: string, at: int, ops: seq<Op>, k: nat)
    requires StartOk(ttl, code, at, ops) && k < |ops| && Attempting(Started(ttl, code, at), ops, k)
    requires OutcomeAt(Started(ttl, code, at), ops, k) == PairedStuck
    requires forall c <- ops[k].after :: SixDigits(c)
    ensures forall c <- ops[k].after :: c == Current(Started(ttl, code, at), ops, k).code
  {
    hide SixDigits, After;
    var previous := Some(Current(Started(ttl, code, at), ops, k).code);
    DrawFromMeans(ops[k].after, previous, 0);
    NeverInvalid(ops[k].after, previous, 0);
  }

  lemma {:induction false} NeverInvalid(draws: seq<string>, previous: Option<string>, from: nat)
    requires |draws| == DRAWS && from <= DRAWS && forall c <- draws :: SixDigits(c)
    ensures DrawFrom(draws, previous, from) != Invalid
    decreases DRAWS - from
  {
    hide SixDigits;
    if from < DRAWS {
      NeverInvalid(draws, previous, from + 1);
    }
  }

  /** A session opens only with a call that came less than 300 s after the code was issued. */
  lemma WithinLifetime(ttl: int, code: string, at: int, ops: seq<Op>, k: nat)
    requires StartOk(ttl, code, at, ops) && k < |ops| && Attempting(Started(ttl, code, at), ops, k)
    requires Opened(OutcomeAt(Started(ttl, code, at), ops, k))
    ensures var h := Current(Started(ttl, code, at), ops, k);
            && h.issued != [] && ops[k].guess == h.code && SixDigits(h.code)
            && h.issued[|h.issued| - 1] <= ops[k].at.now
            && ops[k].at.check < h.issued[|h.issued| - 1] + 300_000
  {
    hide SixDigits, After, DrawFrom;
    var g := After(Started(ttl, code, at), ops[..k]);
    CodesOk(ttl, code, at, ops[..k]);
    LatestBefore(at, ops, k, k);
    DrawFromMeans(ops[k].before, Some(g.code), 0);
  }

  // ----- guesses per code

  /** A call that compared its guess found the code issued at most at its reading, and not expired. */
  lemma ComparedInLifetime(ttl: int, code: string, at: int, ops: seq<Op>, k: nat)
    requires StartOk(ttl, code, at, ops) && k < |ops| && Attempting(Started(ttl, code, at), ops, k)
    ensures var h := Current(Started(ttl, code, at), ops, k);
            && h.issued != []
            && h.issued[|h.issued| - 1] <= ops[k].at.now
            && ops[k].at.check < h.issued[|h.issued| - 1] + 300_000
  {
    hide SixDigits, After, DrawFrom;
    var g := After(Started(ttl, code, at), ops[..k]);
    CodesOk(ttl, code, at, ops[..k]);
    LatestBefore(at, ops, k, k);
  }

  lemma SameIssue(ttl: int, code: string, at: int, ops: seq<Op>, i: nat, j: nat)
    requires StartOk(ttl, code, at, ops) && i < j < |ops|
    requires Attempting(Started(ttl, code, at), ops, i) && Attempting(Started(ttl, code, at), ops, j)
    requires CodeNumber(Started(ttl, code, at), ops, i) == CodeNumber(Started(ttl, code, at), ops, j)
    ensures Current(Started(ttl, code, at), ops, i).issued == Current(Started(ttl, code, at), ops, j).issued
  {
    hide Step, StartOk, After, Current;
    CodeAt(ttl, code, at, ops, i);
    CodesRise(ttl, code, at, ops, i + 1, j);
    CodeAt(ttl, code, at, ops, j);
  }

  /** No call stalls five minutes between testing the code's expiry and comparing the guess. */
  predicate Brisk(ops: seq<Op>) {
    forall op <- ops :: op.Pair? ==> op.at.now - op.at.check <= 300_000
  }

  predicate NeverStuck(g: Sessions, ops: seq<Op>, source: string)
    requires forall op <- ops :: OpOk(op)
  {
    forall i :: 0 <= i < |ops| && From(ops, source, i) ==> OutcomeAt(g, ops, i) != PairedStuck
  }

  lemma NoHitOnSameCode(ttl: int, code: string, at: int, ops: seq<Op>, source: string, i: nat, m: nat, j: nat)
    requires StartOk(ttl, code, at, ops) && i < m < j < |ops| && NeverStuck(Started(ttl, code, at), ops, source)
    requires Attempting(Started(ttl, code, at), ops, i) && Attempting(Started(ttl, code, at), ops, j)
    requires CodeNumber(Started(ttl, code, at), ops, i) == CodeNumber(Started(ttl, code, at), ops, j)
    ensures !Hit(Started(ttl, code, at), ops, source, m)
  {
    hide Step, After, Current;
    if Hit(Started(ttl, code, at), ops, source, m) {
      CodeAt(ttl, code, at, ops, i);
      CodesRise(ttl, code, at, ops, i + 1, m);
      CodeAt(ttl, code, at, ops, m);
      CodesRise(ttl, code, at, ops, m + 1, j);
      CodeAt(ttl, code, at, ops, j);
    }
  }

  /** One source's wrong guesses at one issued code are at most five. */
  lemma FiveGuessesPerCode(ttl: int, code: string, at: int, ops: seq<Op>, source: string, ks: seq<nat>)
    requires StartOk(ttl, code, at, ops) && Brisk(ops) && NeverStuck(Started(ttl, code, at), ops, source)
    requires Rising(ks) && AllMissed(Started(ttl, code, at), ops, source, ks)
    requires forall i, j :: 0 <= i < j < |ks| ==>
               CodeNumber(Started(ttl, code, at), ops, ks[i]) == CodeNumber(Started(ttl, code, at), ops, ks[j])
    ensures |ks| <= 5
  {
    hide Step, After, Current;
    var g := Started(ttl, code, at);
    if |ks| > 5 {
      var six := ks[..6];
      var first, last := six[0], six[5];
      assert ops[last] in ops;
      forall m | first < m < last
        ensures !Hit(g, ops, source, m)
      {
        NoHitOnSameCode(ttl, code, at, ops, source, first, m, last);
      }
      SixWrongGuesses(g, ops, source, six);
      SameIssue(ttl, code, at, ops, first, last);
      ComparedInLifetime(ttl, code, at, ops, first);
      ComparedInLifetime(ttl, code, at, ops, last);
    }
  }

  // ----- live credentials

  predicate Opens(g: Sessions, ops: seq<Op>, digest: string, i: nat)
    requires i < |ops| && forall op <- ops :: OpOk(op)
  {
    ops[i].Pair? && ops[i].digest == digest && Opened(OutcomeAt(g, ops, i))
  }

  /** Revoked, or presented at or after its expiry. */
  predicate Closes(ops: seq<Op>, digest: string, expiresAt: int, i: nat)
    requires i < |ops|
  {
    || ops[i] == Revoke(digest)
    || (ops[i].Authenticate? && ops[i].digest == digest && ops[i].wall >= expiresAt)
  }

  /** The session call i opened: its owner, its key, its time, and the lifetime of the registry. */
  predicate SessionOf(g: Sessions, ops: seq<Op>, i: nat, s: Session)
    requires i < |ops|
  {
    && ops[i].Pair?
    && s.clientId == ops[i].clientId && s.dataKey == ops[i].dataKey
    && s.issuedAt == ops[i].wall && s.expiresAt == ops[i].wall + g.ttl
  }

  /** Call i opened the session under the digest, and nothing since closed it or opened another under that digest. */
  predicate LiveFrom(g: Sessions, ops: seq<Op>, digest: string, s: Session, i: nat)
    requires i < |ops| && forall op <- ops :: OpOk(op)
  {
    && Opens(g, ops, digest, i) && SessionOf(g, ops, i, s)
    && forall j :: i < j < |ops| ==> !Closes(ops, digest, s.expiresAt, j) && !Opens(g, ops, digest, j)
  }

  ghost predicate Live(g: Sessions, ops: seq<Op>, digest: string, s: Session)
    requires forall op <- ops :: OpOk(op)
  {
    exists i: nat :: i < |ops| && LiveFrom(g, ops, digest, s, i)
  }

  lemma SessionStep(g: Sessions, op: Op, digest: string)
    requires OpOk(op)
    ensures var (after, outcome) := Step(g, op);
            && after.ttl == g.ttl
            && (if op.Pair? && op.digest == digest && Opened(outcome)
                then digest in after.sessions
                     && after.sessions[digest] == Session(op.clientId, op.dataKey, op.wall, op.wall + g.ttl)
                else if op == Revoke(digest) then digest !in after.sessions
                else if op.Authenticate? && op.digest == digest && digest in g.sessions
                        && op.wall >= g.sessions[digest].expiresAt
                then digest !in after.sessions
                else (digest in after.sessions <==> digest in g.sessions)
                     && (digest in g.sessions ==> after.sessions[digest] == g.sessions[digest]))
  {
    hide DrawFrom;
  }

  lemma {:induction false} TtlKept(g: Sessions, ops: seq<Op>)
    requires forall op <- ops :: OpOk(op)
    ensures After(g, ops).ttl == g.ttl
  {
    hide Step;
    if ops != [] {
      TtlKept(g, ops[..|ops| - 1]);
      SessionStep(After(g, ops[..|ops| - 1]), ops[|ops| - 1], "");
    }
  }

  /** A credential is known exactly when a call opened it and nothing since closed it. */
  lemma {:induction false} LiveExactly(g: Sessions, ops: seq<Op>, digest: string, s: Session)
    requires (forall op <- ops :: OpOk(op)) && g.sessions == map[]
    ensures Live(g, ops, digest, s) <==>
              digest in After(g, ops).sessions && s == After(g, ops).sessions[digest]
  {
    hide Step, Opened, OpOk, Live, LiveFrom, Closes;
    if ops == [] {
      assert !Live(g, ops, digest, s) by { NobodyLive(g, digest, s); }
    } else {
      var front, k := ops[..|ops| - 1], |ops| - 1;
      TtlKept(g, front);
      SessionStep(After(g, front), ops[k], digest);
      LiveExactly(g, front, digest, s);
      LiveStep(g, ops, digest, s);
      ClosingStep(ops, digest, s.expiresAt);
    }
  }

  lemma ClosingStep(ops: seq<Op>, digest: string, expiresAt: int)
    requires ops != []
    ensures Closes(ops, digest, expiresAt, |ops| - 1) <==>
              var op := ops[|ops| - 1];
              op == Revoke(digest) || (op.Authenticate? && op.digest == digest && op.wall >= expiresAt)
  {
  }

  lemma NobodyLive(g: Sessions, digest: string, s: Session)
    ensures !Live(g, [], digest, s)
  {
  }

  lemma SamePrefix(g: Sessions, ops: seq<Op>, digest: string, s: Session)
    requires (forall op <- ops :: OpOk(op)) && ops != []
    ensures forall i :: 0 <= i < |ops| - 1 ==> Opens(g, ops[..|ops| - 1], digest, i) == Opens(g, ops, digest, i)
    ensures forall i :: 0 <= i < |ops| - 1 ==>
              Closes(ops[..|ops| - 1], digest, s.expiresAt, i) == Closes(ops, digest, s.expiresAt, i)
    ensures forall i :: 0 <= i < |ops| - 1 ==> SessionOf(g, ops[..|ops| - 1], i, s) == SessionOf(g, ops, i, s)
  {
    hide Step, Opened, OpOk;
    forall i | 0 <= i < |ops| - 1
      ensures Opens(g, ops[..|ops| - 1], digest, i) == Opens(g, ops, digest, i)
    {
      PrefixOutcome(g, ops, |ops| - 1, i);
    }
  }

  lemma LiveStep(g: Sessions, ops: seq<Op>, digest: string, s: Session)
    requires (forall op <- ops :: OpOk(op)) && ops != []
    ensures Live(g, ops, digest, s) <==>
              if Opens(g, ops, digest, |ops| - 1) then SessionOf(g, ops, |ops| - 1, s)
              else Live(g, ops[..|ops| - 1], digest, s) && !Closes(ops, digest, s.expiresAt, |ops| - 1)
  {
    hide Step, OpOk, Opens, Closes, SessionOf;
    SamePrefix(g, ops, digest, s);
    var front, k := ops[..|ops| - 1], |ops| - 1;
    if Live(g, ops, digest, s) {
      var i: nat :| i < |ops| && LiveFrom(g, ops, digest, s, i);
      if i < k {
        forall j | i < j < |front| ensures !Closes(front, digest, s.expiresAt, j) && !Opens(g, front, digest, j) {
          assert !Closes(ops, digest, s.expiresAt, j) && !Opens(g, ops, digest, j);
        }
        assert Opens(g, front, digest, i) && SessionOf(g, front, i, s);
        assert LiveFrom(g, front, digest, s, i);
      }
    }
    if Opens(g, ops, digest, k) {
      if SessionOf(g, ops, k, s) { assert LiveFrom(g, ops, digest, s, k); }
    } else if Live(g, front, digest, s) && !Closes(ops, digest, s.expiresAt, k) {
      var i: nat :| i < |front| && LiveFrom(g, front, digest, s, i);
      assert LiveFrom(g, ops, digest, s, i);
    }
  }

  /**
   * The life of a session: in every run a presented credential is welcomed as a session exactly when an earlier call
   * opened that session under it, it is presented before the call's time plus the registry's lifetime, and in between
   * it was neither revoked nor presented from that moment on.
   */
  lemma WelcomeExactly(g: Sessions, ops: seq<Op>, digest: string, wall: int, s: Session)
    requires (forall op <- ops :: OpOk(op)) && g.sessions == map[]
    ensures Step(After(g, ops), Authenticate(digest, wall)).1 == Welcome(s) <==>
            exists i: nat :: i < |ops| && LiveFrom(g, ops, digest, s, i) && wall < ops[i].wall + g.ttl
  {
    hide After, Opens, Closes;
    LiveExactly(g, ops, digest, s);
    if Live(g, ops, digest, s) {
      var i: nat :| i < |ops| && LiveFrom(g, ops, digest, s, i);
      if wall < s.expiresAt {
        assert LiveFrom(g, ops, digest, s, i) && wall < ops[i].wall + g.ttl;
      }
    }
  }

  /** A credential that is not welcomed is refused, and a refused one is unknown from then on. */
  lemma RefusedIsGone(g: Sessions, digest: string, wall: int)
    ensures var (after, outcome) := Step(g, Authenticate(digest, wall));
      && (outcome == Refused || (outcome.Welcome? && after == g))
      && (outcome == Refused ==> after == g.(sessions := g.sessions - {digest}))
  {
    if digest !in g.sessions {
      assert g.sessions - {digest} == g.sessions;
    }
  }
}
