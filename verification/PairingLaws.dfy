/** What every call of the session registry answers and leaves behind, told from the registry before it. */
module PairingLaws {
  import opened Wrappers
  import opened Pairing

  /** A pairing code. */
  predicate IsCode(s: string) {
    |s| == 6 && forall i :: 0 <= i < |s| ==> '0' <= s[i] <= '9'
  }

  lemma SixDigitsMeans(s: string)
    ensures SixDigits(s) <==> IsCode(s)
  {
    assert forall i :: 0 <= i < |s| ==> s[i] in s;
  }

  /** The first of sixteen candidates that is not the previous code; it and all before it are six digits. */
  predicate Draws(draws: seq<string>, previous: string, code: string) {
    exists i :: 0 <= i < |draws| && DrawnAt(draws, previous, code, i)
  }

  predicate DrawnAt(draws: seq<string>, previous: string, code: string, i: nat)
    requires i < |draws|
  {
    && draws[i] == code && code != previous && IsCode(code)
    && forall j :: 0 <= j < i ==> draws[j] == previous && IsCode(draws[j])
  }

  lemma {:induction false} DrawnFrom(draws: seq<string>, previous: string, code: string, from: nat)
    requires |draws| == 16 && from <= 16
    requires forall j :: 0 <= j < from ==> draws[j] == previous && IsCode(draws[j])
    ensures DrawFrom(draws, Some(previous), from) == Fresh(code) <==> Draws(draws, previous, code)
    decreases 16 - from
  {
    hide SixDigits, IsCode;
    if from < 16 {
      SixDigitsMeans(draws[from]);
      if SixDigits(draws[from]) && draws[from] == previous {
        DrawnFrom(draws, previous, code, from + 1);
      } else {
        assert DrawnAt(draws, previous, draws[from], from) || !IsCode(draws[from]);
        if Draws(draws, previous, code) {
          var i :| 0 <= i < |draws| && DrawnAt(draws, previous, code, i);
          assert i == from;
        }
      }
    }
  }

  /** The code a call is compared with: an expired one is replaced first. */
  predicate InForce(g: Sessions, at: Readings, draws: seq<string>, code: string) {
    if at.check < g.expiresAt then code == g.code else Draws(draws, g.code, code)
  }

  /** When the code in force expires. */
  function Expiry(g: Sessions, at: Readings): int {
    if at.check < g.expiresAt then g.expiresAt else at.reset + 300_000
  }

  lemma InForceMeans(g: Sessions, at: Readings, draws: seq<string>, code: string)
    requires |draws| == 16
    ensures InForce(g, at, draws, code)
            <==> Refreshed(g, at, draws).Some? && Refreshed(g, at, draws).value.code == code
    ensures Refreshed(g, at, draws).Some? ==>
              var h := Refreshed(g, at, draws).value;
              h == g.(code := h.code, expiresAt := Expiry(g, at), issued := h.issued)
  {
    hide DrawFrom, Draws;
    DrawnFrom(draws, g.code, code, 0);
  }

  /** The registry keeps nothing but the code, its expiry, the attempts and the sessions. */
  predicate Holding(
    g: Sessions, ttl: int, code: string, expiresAt: int, attempts: map<string, Attempt>,
    sessions: map<string, Session>)
  {
    && g.ttl == ttl && g.code == code && g.expiresAt == expiresAt && g.attempts == attempts
    && g.sessions == sessions
  }

  /** A call fails before the attempt exactly when the code has expired and no candidate can replace it. */
  lemma StuckAnswer(g: Sessions, op: Op)
    requires (op.Pair? || op.Show?) && OpOk(op)
    ensures var n := Step(g, op);
      && (n.1 == Stuck <==> forall code :: !InForce(g, op.at, op.before, code))
      && (n.1 == Stuck ==> n.0 == g)
  {
    hide DrawFrom, InForce;
    forall code ensures InForce(g, op.at, op.before, code)
                        <==> Refreshed(g, op.at, op.before).Some? && Refreshed(g, op.at, op.before).value.code == code
    {
      InForceMeans(g, op.at, op.before, code);
    }
    if Refreshed(g, op.at, op.before).Some? {
      assert InForce(g, op.at, op.before, Refreshed(g, op.at, op.before).value.code);
    }
  }

  lemma ShowAnswer(g: Sessions, op: Op, code: string)
    requires op.Show? && OpOk(op) && InForce(g, op.at, op.before, code)
    ensures var n := Step(g, op);
      && n.1 == Shown(code)
      && Holding(n.0, g.ttl, code, Expiry(g, op.at), g.attempts, g.sessions)
  {
    hide DrawFrom, InForce;
    InForceMeans(g, op.at, op.before, code);
  }

  /** The source's failures since its last success or lock, and when its lock ends. */
  function Tried(g: Sessions, source: string): Attempt {
    if source in g.attempts then g.attempts[source] else Attempt(0, 0)
  }

  /** An attempt with a code in force: a locked source is told when to come back and nothing is compared; a wrong
      code is counted and the fifth locks the source for 600 s; the right one clears the count, opens a session for
      the registry's lifetime and is replaced at once. */
  lemma PairAnswer(g: Sessions, op: Op, code: string)
    requires op.Pair? && OpOk(op) && InForce(g, op.at, op.before, code)
    ensures var n, was, now := Step(g, op), Tried(g, op.source), op.at.now;
      if was.lockedUntil > now then
        && n.1 == Locked(if was.lockedUntil - now < 2000 then 1 else (was.lockedUntil - now) / 1000)
        && Holding(n.0, g.ttl, code, Expiry(g, op.at), g.attempts[op.source := was], g.sessions)
      else if op.guess != code then
        && n.1 == (if was.failures >= 4 then WrongAndLocked else Wrong)
        && Holding(n.0, g.ttl, code, Expiry(g, op.at),
                   g.attempts[op.source := if was.failures >= 4 then Attempt(0, now + 600_000)
                                           else Attempt(was.failures + 1, was.lockedUntil)],
                   g.sessions)
      else
        var session := Session(op.clientId, op.dataKey, op.wall, op.wall + g.ttl);
        var attempts, sessions := g.attempts[op.source := Attempt(0, 0)], g.sessions[op.digest := session];
        && (forall next :: Draws(op.after, code, next) ==>
              n.1 == Paired(session) && Holding(n.0, g.ttl, next, op.at.renew + 300_000, attempts, sessions))
        && ((forall next :: !Draws(op.after, code, next)) ==>
              n.1 == PairedStuck && Holding(n.0, g.ttl, code, Expiry(g, op.at), attempts, sessions))
  {
    hide DrawFrom, InForce, Draws;
    InForceMeans(g, op.at, op.before, code);
    forall next ensures DrawFrom(op.after, Some(code), 0) == Fresh(next) <==> Draws(op.after, code, next) {
      DrawnFrom(op.after, code, next, 0);
    }
  }
}
