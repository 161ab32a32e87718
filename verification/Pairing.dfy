/**
 * Pairing codes, lockouts and client sessions.  Times are milliseconds; each call brings the readings its
 * clock would give, the next candidates of the code generator and a fresh credential.
 */
module Pairing {
  import opened Wrappers

  const PAIRING_LIFETIME := 300_000
  const LOCK := 600_000
  const MAX_FAILURES := 5
  const DRAWS := 16

  datatype Attempt = Attempt(failures: nat, lockedUntil: int)

  datatype Session = Session(clientId: string, dataKey: string, issuedAt: int, expiresAt: int)

  /** issued lists the readings at which pairing codes were issued, the current one last. */
  datatype Sessions = Sessions(
    ttl: int, code: string, expiresAt: int, attempts: map<string, Attempt>, sessions: map<string, Session>,
    issued: seq<int>)

  /** The readings of the monotonic clock in one call: testing expiry, renewing an expired code, the attempt,
      and renewing a used code. */
  datatype Readings = Readings(check: int, reset: int, now: int, renew: int)

  // ----- drawing a code

  predicate SixDigits(s: string) {
    |s| == 6 && forall c <- s :: '0' <= c <= '9'
  }

  datatype Draw = Fresh(code: string) | Invalid | NotRotated

  /** What the generator's candidates from the given one on lead to. */
  function DrawFrom(draws: seq<string>, previous: Option<string>, from: nat): Draw
    requires |draws| == DRAWS && from <= DRAWS
    decreases DRAWS - from
  {
    if from == DRAWS then NotRotated
    else if !SixDigits(draws[from]) then Invalid
    else if Some(draws[from]) != previous then Fresh(draws[from])
    else DrawFrom(draws, previous, from + 1)
  }

  /** A fresh code is six digits and differs from the previous one; a run of sixteen repeats rotates nothing. */
  lemma {:induction false} DrawFromMeans(draws: seq<string>, previous: Option<string>, from: nat)
    requires |draws| == DRAWS && from <= DRAWS
    ensures var d := DrawFrom(draws, previous, from);
            && (d.Fresh? ==> SixDigits(d.code) && Some(d.code) != previous && d.code in draws)
            && (d.NotRotated? <==> forall i :: from <= i < DRAWS ==> Some(draws[i]) == previous && SixDigits(draws[i]))
    decreases DRAWS - from
  {
    if from < DRAWS && SixDigits(draws[from]) && Some(draws[from]) == previous {
      DrawFromMeans(draws, previous, from + 1);
    }
  }

  // ----- operations

  datatype Op =
    | Pair(source: string, clientId: string, guess: string, digest: string, dataKey: string, at: Readings,
           before: seq<string>, after: seq<string>, wall: int)
    | Show(at: Readings, before: seq<string>)
    | Authenticate(digest: string, wall: int)
    | Revoke(digest: string)

  datatype Outcome =
    | Stuck
    | Locked(retryAfter: int)
    | Wrong
    | WrongAndLocked
    | Paired(session: Session)
    | PairedStuck
    | Shown(code: string)
    | Welcome(session: Session)
    | Refused
    | Done

  predicate OpOk(op: Op) {
    match op
    case Pair(_, _, _, _, _, at, before, after, _) =>
      at.check <= at.reset <= at.now <= at.renew && |before| == DRAWS && |after| == DRAWS
    case Show(at, before) => at.check <= at.reset <= at.now <= at.renew && |before| == DRAWS
    case _ => true
  }

  function Rotated(g: Sessions, code: string, at: int): Sessions {
    g.(code := code, expiresAt := at + PAIRING_LIFETIME, issued := g.issued + [at])
  }

  /** An expired code is replaced first; None is an exception, which changes nothing. */
  function Refreshed(g: Sessions, at: Readings, draws: seq<string>): Option<Sessions>
    requires |draws| == DRAWS
  {
    if at.check < g.expiresAt then Some(g)
    else match DrawFrom(draws, Some(g.code), 0)
      case Fresh(code) => Some(Rotated(g, code, at.reset))
      case _ => None
  }

  function AttemptOf(g: Sessions, source: string): Attempt {
    if source in g.attempts then g.attempts[source] else Attempt(0, 0)
  }

  function WithAttempt(g: Sessions, source: string, a: Attempt): Sessions {
    g.(attempts := g.attempts[source := a])
  }

  function RetryAfter(lockedUntil: int, now: int): int {
    Max(1, (lockedUntil - now) / 1000)
  }

  function SessionFor(g: Sessions, op: Op): Session
    requires op.Pair?
  {
    Session(op.clientId, op.dataKey, op.wall, op.wall + g.ttl)
  }

  /** The attempt itself, once the code is current. */
  function Attempted(h: Sessions, op: Op): (Sessions, Outcome)
    requires op.Pair? && OpOk(op)
  {
    var a := AttemptOf(h, op.source);
    if a.lockedUntil > op.at.now then (WithAttempt(h, op.source, a), Locked(RetryAfter(a.lockedUntil, op.at.now)))
    else if op.guess != h.code then
      if a.failures + 1 >= MAX_FAILURES
      then (WithAttempt(h, op.source, Attempt(0, op.at.now + LOCK)), WrongAndLocked)
      else (WithAttempt(h, op.source, Attempt(a.failures + 1, a.lockedUntil)), Wrong)
    else
      var entered := WithAttempt(h, op.source, Attempt(0, 0))
                    .(sessions := h.sessions[op.digest := SessionFor(h, op)]);
      match DrawFrom(op.after, Some(h.code), 0)
      case Fresh(code) => (Rotated(entered, code, op.at.renew), Paired(SessionFor(h, op)))
      case _ => (entered, PairedStuck)
  }

  function Step(g: Sessions, op: Op): (Sessions, Outcome)
    requires OpOk(op)
  {
    match op
    case Pair(_, _, _, _, _, at, before, _, _) =>
      (match Refreshed(g, at, before)
       case None => (g, Stuck)
       case Some(h) => Attempted(h, op))
    case Show(at, before) =>
      (match Refreshed(g, at, before)
       case None => (g, Stuck)
       case Some(h) => (h, Shown(h.code)))
    case Authenticate(digest, wall) =>
      if digest !in g.sessions then (g, Refused)
      else if wall >= g.sessions[digest].expiresAt then (g.(sessions := g.sessions - {digest}), Refused)
      else (g, Welcome(g.sessions[digest]))
    case Revoke(digest) => (g.(sessions := g.sessions - {digest}), Done)
  }

  // ----- the registry

  method NewPairingCode(draws: seq<string>, previous: Option<string>) returns (r: Draw)
    requires |draws| == DRAWS
    ensures r == DrawFrom(draws, previous, 0)
  {
    for i := 0 to DRAWS
      invariant DrawFrom(draws, previous, 0) == DrawFrom(draws, previous, i)
    {
      var candidate := draws[i];
      if !SixDigits(candidate) {
        return Invalid;
      }
      if Some(candidate) != previous {
        return Fresh(candidate);
      }
    }
    return NotRotated;
  }

  class SessionRegistry {
    const ttl: int
    var code: string
    var expiresAt: int
    var attempts: map<string, Attempt>
    var sessions: map<string, Session>
    ghost var issued: seq<int>

    ghost function View(): Sessions
      reads this
    {
      Sessions(ttl, code, expiresAt, attempts, sessions, issued)
    }

    /** With a configured first code. */
    constructor (ttl: int, initial: string, at: int)
      requires ttl > 0 && SixDigits(initial)
      ensures View() == Sessions(ttl, initial, at + 300_000, map[], map[], [at])
    {
      this.ttl := ttl;
      code := initial;
      expiresAt := at + PAIRING_LIFETIME;
      attempts := map[];
      sessions := map[];
      issued := [at];
    }

    method RotatePairingCode(draws: seq<string>, at: int) returns (ok: bool)
      requires |draws| == DRAWS
      modifies this
      ensures ok == DrawFrom(draws, Some(old(code)), 0).Fresh?
      ensures View() == if ok then Rotated(old(View()), DrawFrom(draws, Some(old(code)), 0).code, at)
                        else old(View())
    {
      var draw := NewPairingCode(draws, Some(code));
      if !draw.Fresh? {
        return false;
      }
      code := draw.code;
      expiresAt := at + PAIRING_LIFETIME;
      issued := issued + [at];
      return true;
    }

    method RotateIfExpired(at: Readings, draws: seq<string>) returns (ok: bool)
      requires |draws| == DRAWS
      modifies this
      ensures ok == Refreshed(old(View()), at, draws).Some?
      ensures View() == if ok then Refreshed(old(View()), at, draws).value else old(View())
    {
      ok := true;
      if at.check >= expiresAt {
        ok := RotatePairingCode(draws, at.reset);
      }
    }

    method Show(op: Op) returns (outcome: Outcome)
      requires op.Show? && OpOk(op)
      modifies this
      ensures (View(), outcome) == Step(old(View()), op)
    {
      var ok := RotateIfExpired(op.at, op.before);
      if !ok {
        return Stuck;
      }
      return Shown(code);
    }

    method Pair(op: Op) returns (outcome: Outcome)
      requires op.Pair? && OpOk(op)
      modifies this
      ensures (View(), outcome) == Step(old(View()), op)
    {
      var ok := RotateIfExpired(op.at, op.before);
      if !ok {
        return Stuck;
      }
      ghost var was := attempts;
      if op.source !in attempts {
        attempts := attempts[op.source := Attempt(0, 0)];
      }
      var attempt := attempts[op.source];
      var now := op.at.now;
      if attempt.lockedUntil > now {
        assert attempts == was[op.source := attempt];
        return Locked(RetryAfter(attempt.lockedUntil, now));
      }
      if op.guess != code {
        attempt := attempt.(failures := attempt.failures + 1);
        if attempt.failures >= MAX_FAILURES {
          attempt := attempt.(failures := 0);
          attempt := attempt.(lockedUntil := now + LOCK);
          attempts := attempts[op.source := attempt];
          assert attempts == was[op.source := attempt];
          return WrongAndLocked;
        }
        attempts := attempts[op.source := attempt];
        assert attempts == was[op.source := attempt];
        return Wrong;
      }
      attempts := attempts[op.source := Attempt(0, 0)];
      assert attempts == was[op.source := Attempt(0, 0)];
      var session := Session(op.clientId, op.dataKey, op.wall, op.wall + ttl);
      sessions := sessions[op.digest := session];
      var rotated := RotatePairingCode(op.after, op.at.renew);
      return if rotated then Paired(session) else PairedStuck;
    }

    method Authenticate(digest: string, wall: int) returns (outcome: Outcome)
      modifies this
      ensures (View(), outcome) == Step(old(View()), Op.Authenticate(digest, wall))
    {
      if digest !in sessions {
        return Refused;
      }
      var session := sessions[digest];
      if wall >= session.expiresAt {
        Revoke(digest);
        return Refused;
      }
      return Welcome(session);
    }

    method Revoke(digest: string)
      modifies this
      ensures View() == Step(old(View()), Op.Revoke(digest)).0
    {
      sessions := sessions - {digest};
    }
  }

  /** The registry as configured: with the given first code, or one drawn; None is an exception. */
  method NewSessionRegistry(ttl: int, initial: Option<string>, draws: seq<string>, at: int)
    returns (registry: Option<SessionRegistry>)
    requires |draws| == DRAWS
    ensures registry.Some? <==>
              ttl > 0 && if initial.Some? then SixDigits(initial.value) else DrawFrom(draws, None, 0).Fresh?
    ensures registry.Some? ==>
              && fresh(registry.value)
              && registry.value.View() ==
                 Sessions(ttl, if initial.Some? then initial.value else DrawFrom(draws, None, 0).code,
                          at + 300_000, map[], map[], [at])
  {
    if ttl <= 0 {
      return None;
    }
    var code: string;
    if initial.Some? {
      if !SixDigits(initial.value) {
        return None;
      }
      code := initial.value;
    } else {
      var draw := NewPairingCode(draws, None);
      if !draw.Fresh? {
        return None;
      }
      DrawFromMeans(draws, None, 0);
      code := draw.code;
    }
    var made := new SessionRegistry(ttl, code, at);
    return Some(made);
  }
}
