/**
 * The client's commands in flight: the list of pending devices, the three tables by message, and, as the
 * surroundings they live in, the sends that have not ended and the timers that may still fire.
 */
module ClientCommands {
  import opened Lists
  import opened Devices
  import Messages

  const TIMEOUT := 5000

  datatype Connection = Disconnected | Connecting | Authenticating | Online | Reconnecting | Closed

  datatype Send = Send(deviceId: string, action: string)

  datatype Timer = Timer(messageId: string, due: int)

  datatype Client = Client(
    connection: Connection, devices: seq<PublicDevice>, pending: seq<string>,
    byMessage: map<string, string>, actions: map<string, string>, timers: map<string, int>,
    sends: map<int, Send>, live: map<int, Timer>)

  datatype Event =
    | Begin(send: int, deviceId: string, action: string)
    | Sent(send: int, messageId: string, timer: int)
    | Failed(send: int, unauthorized: bool)
    | Answered(messageId: string, unauthorized: bool)
    | Fires(timer: int)
    | Connects(connection: Connection)
    | Invalidate
    | Forget
    | Shutdown
    | Snapshot(devices: seq<PublicDevice>)
    | Changed(device: PublicDevice)
    | Gone(deviceId: string)

  /** An event at a reading of the clock. */
  datatype Timed = Timed(event: Event, now: int)

  /** finishPending: the message's timer is cancelled and its device is no longer pending. */
  function Finished(c: Client, messageId: string): Client {
    c.(live := if messageId in c.timers then c.live - {c.timers[messageId]} else c.live,
       timers := c.timers - {messageId},
       pending := if messageId in c.byMessage then Without(c.pending, c.byMessage[messageId]) else c.pending,
       byMessage := c.byMessage - {messageId},
       actions := c.actions - {messageId})
  }

  /** clearAllCommandTimeouts. */
  function Cleared(c: Client): Client {
    c.(live := c.live - c.timers.Values, timers := map[], byMessage := map[], actions := map[], pending := [])
  }

  function Invalidated(c: Client): Client {
    Cleared(c).(connection := Disconnected)
  }

  function Submitted(c: Client, send: int, deviceId: string, action: string): Client {
    if c.connection != Online || deviceId in c.pending then c
    else c.(pending := c.pending + [deviceId], sends := c.sends[send := Send(deviceId, action)])
  }

  function Acknowledged(c: Client, send: int, messageId: string, timer: int, now: int): Client
    requires send in c.sends
  {
    c.(sends := c.sends - {send},
       byMessage := c.byMessage[messageId := c.sends[send].deviceId],
       actions := c.actions[messageId := c.sends[send].action],
       live := c.live[timer := Timer(messageId, now + TIMEOUT)],
       timers := c.timers[messageId := timer])
  }

  function GivenUp(c: Client, send: int): Client
    requires send in c.sends
  {
    c.(sends := c.sends - {send}, pending := Without(c.pending, c.sends[send].deviceId))
  }

  function Elapsed(c: Client, timer: int): Client
    requires timer in c.live
  {
    var messageId := c.live[timer].messageId;
    var rest := c.(live := c.live - {timer});
    if messageId in c.byMessage then Finished(rest, messageId) else rest
  }

  /** Sends, messages and timers have fresh names; only a send that began ends; a timer fires when due. */
  predicate EventOk(c: Client, e: Event, now: int) {
    match e
    case Begin(send, _, _) => send !in c.sends
    case Sent(send, messageId, timer) =>
      send in c.sends && messageId !in c.byMessage && messageId !in c.timers && timer !in c.live
    case Failed(send, _) => send in c.sends
    case Fires(timer) => timer in c.live && c.live[timer].due <= now
    case _ => true
  }

  function Step(c: Client, e: Event, now: int): Client
    requires EventOk(c, e, now)
  {
    match e
    case Begin(send, deviceId, action) => Submitted(c, send, deviceId, action)
    case Sent(send, messageId, timer) => Acknowledged(c, send, messageId, timer, now)
    case Failed(send, unauthorized) =>
      if unauthorized then Invalidated(GivenUp(c, send)) else GivenUp(c, send)
    case Answered(messageId, unauthorized) =>
      if unauthorized then Invalidated(Finished(c, messageId)) else Finished(c, messageId)
    case Fires(timer) => Elapsed(c, timer)
    case Connects(connection) =>
      var next := c.(connection := connection);
      if connection == Disconnected then Cleared(next) else next
    case Invalidate => Invalidated(c)
    case Forget => c.(devices := [], pending := [], connection := Disconnected)
    case Shutdown => Cleared(c)
    case Snapshot(devices) => c.(devices := devices)
    case Changed(device) => c.(devices := Messages.Merged(c.devices, device))
    case Gone(deviceId) => c.(devices := Messages.WithoutDevice(c.devices, deviceId))
  }

  // ----- runs

  const START := Client(Disconnected, [], [], map[], map[], map[], map[], map[])

  predicate CanHappen(c: Client, run: seq<Timed>)
    decreases |run|, 0
  {
    run == []
    || (&& CanHappen(c, run[..|run| - 1])
        && EventOk(After(c, run[..|run| - 1]), run[|run| - 1].event, run[|run| - 1].now)
        && (|run| > 1 ==> run[|run| - 2].now <= run[|run| - 1].now))
  }

  function After(c: Client, run: seq<Timed>): Client
    requires CanHappen(c, run)
    decreases |run|, 1
  {
    if run == [] then c
    else Step(After(c, run[..|run| - 1]), run[|run| - 1].event, run[|run| - 1].now)
  }

  // ----- what every event keeps

  /** Each timer that may fire is the one recorded for its message, and the other way round. */
  predicate TimersMatch(c: Client) {
    && (forall m <- c.timers :: c.timers[m] in c.live && c.live[c.timers[m]].messageId == m)
    && (forall t <- c.live :: c.live[t].messageId in c.timers && c.timers[c.live[t].messageId] == t)
  }

  /** A send under way or a message with a running timer accounts for the device. */
  predicate Owned(c: Client, deviceId: string) {
    || (exists s <- c.sends :: c.sends[s].deviceId == deviceId)
    || (exists m <- c.byMessage :: c.byMessage[m] == deviceId)
  }

  predicate Sound(c: Client) {
    && Distinct(c.pending)
    && c.byMessage.Keys == c.actions.Keys == c.timers.Keys
    && TimersMatch(c)
    && forall d <- c.pending :: Owned(c, d)
  }

  lemma FinishedSound(c: Client, messageId: string)
    requires Sound(c)
    ensures Sound(Finished(c, messageId))
  {
    if messageId in c.byMessage {
      WithoutDistinct(c.pending, c.byMessage[messageId]);
    }
    var n := Finished(c, messageId);
    forall d | d in n.pending
      ensures Owned(n, d)
    {
      assert Owned(c, d);
      if m :| m in c.byMessage && c.byMessage[m] == d {
        assert m != messageId;
        assert m in n.byMessage;
      }
    }
  }

  lemma ClearedSound(c: Client)
    requires Sound(c)
    ensures Sound(Cleared(c)) && Cleared(c).live == map[]
  {
    forall t | t in c.live
      ensures t in c.timers.Values
    {
      assert c.live[t].messageId in c.timers.Keys;
    }
  }

  lemma SubmittedSound(c: Client, send: int, deviceId: string, action: string)
    requires Sound(c) && send !in c.sends
    ensures Sound(Submitted(c, send, deviceId, action))
  {
    var n := Submitted(c, send, deviceId, action);
    if n != c {
      forall d | d in n.pending
        ensures Owned(n, d)
      {
        if d == deviceId {
          assert send in n.sends;
        } else {
          assert Owned(c, d);
          if s :| s in c.sends && c.sends[s].deviceId == d {
            assert s in n.sends;
          }
        }
      }
    }
  }

  lemma AcknowledgedSound(c: Client, send: int, messageId: string, timer: int, now: int)
    requires Sound(c) && EventOk(c, Sent(send, messageId, timer), now)
    ensures Sound(Acknowledged(c, send, messageId, timer, now))
  {
    var n := Acknowledged(c, send, messageId, timer, now);
    forall d | d in n.pending
      ensures Owned(n, d)
    {
      assert Owned(c, d);
      if s :| s in c.sends && c.sends[s].deviceId == d {
        if s == send {
          assert messageId in n.byMessage;
        } else {
          assert s in n.sends;
        }
      } else {
        var m :| m in c.byMessage && c.byMessage[m] == d;
        assert m in n.byMessage;
      }
    }
  }

  lemma GivenUpSound(c: Client, send: int)
    requires Sound(c) && send in c.sends
    ensures Sound(GivenUp(c, send))
  {
    WithoutDistinct(c.pending, c.sends[send].deviceId);
    var n := GivenUp(c, send);
    forall d | d in n.pending
      ensures Owned(n, d)
    {
      assert Owned(c, d);
      if s :| s in c.sends && c.sends[s].deviceId == d {
        assert s in n.sends;
      }
    }
  }

  lemma ElapsedIsFinished(c: Client, timer: int)
    requires Sound(c) && timer in c.live
    ensures c.live[timer].messageId in c.byMessage && Elapsed(c, timer) == Finished(c, c.live[timer].messageId)
  {
    assert c.live[timer].messageId in c.timers.Keys;
  }

  lemma OtherFieldsSound(c: Client, n: Client)
    requires Sound(c) && n == c.(connection := n.connection, devices := n.devices)
    ensures Sound(n)
  {
    assert forall d <- c.pending :: Owned(c, d) == Owned(n, d);
  }

  lemma InvalidatedSound(c: Client)
    requires Sound(c)
    ensures Sound(Invalidated(c))
  {
    hide Cleared, Sound;
    ClearedSound(c);
    OtherFieldsSound(Cleared(c), Invalidated(c));
  }

  lemma ForgottenSound(c: Client)
    requires Sound(c)
    ensures Sound(c.(devices := [], pending := [], connection := Disconnected))
  {
  }

  /** Every event keeps the pending list and the tables sound. */
  lemma StepSound(c: Client, e: Event, now: int)
    requires Sound(c) && EventOk(c, e, now)
    ensures Sound(Step(c, e, now))
  {
    hide Finished, Cleared, Invalidated, Submitted, Acknowledged, GivenUp, Elapsed, Sound;
    match e
    case Begin(send, deviceId, action) => SubmittedSound(c, send, deviceId, action);
    case Sent(send, messageId, timer) => AcknowledgedSound(c, send, messageId, timer, now);
    case Failed(send, _) =>
      GivenUpSound(c, send);
      InvalidatedSound(GivenUp(c, send));
    case Answered(messageId, _) =>
      FinishedSound(c, messageId);
      InvalidatedSound(Finished(c, messageId));
    case Fires(timer) =>
      ElapsedIsFinished(c, timer);
      FinishedSound(c, c.live[timer].messageId);
    case Connects(connection) =>
      OtherFieldsSound(c, c.(connection := connection));
      ClearedSound(c.(connection := connection));
    case Invalidate => InvalidatedSound(c);
    case Forget => ForgottenSound(c);
    case Shutdown => ClearedSound(c);
    case Snapshot(_) => OtherFieldsSound(c, Step(c, e, now));
    case Changed(_) => OtherFieldsSound(c, Step(c, e, now));
    case Gone(_) => OtherFieldsSound(c, Step(c, e, now));
  }

  lemma {:induction false} AlwaysSound(run: seq<Timed>)
    requires CanHappen(START, run)
    ensures Sound(After(START, run))
  {
    hide Step, EventOk, Sound;
    if run == [] {
      assert Sound(START) by { StartSound(); }
    } else {
      AlwaysSound(run[..|run| - 1]);
      StepSound(After(START, run[..|run| - 1]), run[|run| - 1].event, run[|run| - 1].now);
    }
  }

  lemma StartSound()
    ensures Sound(START)
  {
  }

  // ----- no command stays pending

  /** The timers running are due within five seconds of the last event. */
  predicate DueSoon(c: Client, now: int) {
    forall t <- c.live :: c.live[t].due <= now + 5000
  }

  lemma DueOf(c: Client, now: int, t: int)
    requires DueSoon(c, now) && t in c.live
    ensures c.live[t].due <= now + 5000
  {
  }

  lemma StepTimers(c: Client, e: Event, now: int)
    requires EventOk(c, e, now)
    ensures var n := Step(c, e, now);
            && (forall t <- n.live :: (t in c.live && n.live[t] == c.live[t]) ||
                                      (e.Sent? && n.live[t].due == now + 5000))
            && (c.sends == map[] && !e.Begin? ==> n.sends == map[] && !e.Sent?)
  {
    hide Without;
  }

  lemma {:induction false} AlwaysDueSoon(run: seq<Timed>)
    requires CanHappen(START, run) && run != []
    ensures DueSoon(After(START, run), run[|run| - 1].now)
  {
    hide Step, EventOk;
    var front, last := run[..|run| - 1], run[|run| - 1];
    if front != [] {
      AlwaysDueSoon(front);
    }
    StepTimers(After(START, front), last.event, last.now);
  }

  lemma {:induction false} PrefixOk(run: seq<Timed>, k: nat)
    requires CanHappen(START, run) && k <= |run|
    ensures CanHappen(START, run[..k])
    decreases |run|
  {
    hide EventOk;
    if k < |run| {
      PrefixOk(run[..|run| - 1], k);
      assert run[..|run| - 1][..k] == run[..k];
    } else {
      assert run[..k] == run;
    }
  }

  /** Once the sends have ended and no more begin, no timer is added. */
  lemma {:induction false} NoMoreTimers(run: seq<Timed>, k: nat)
    requires CanHappen(START, run) && k <= |run| && CanHappen(START, run[..k])
    requires After(START, run[..k]).sends == map[] && forall j :: k <= j < |run| ==> !run[j].event.Begin?
    ensures var was, c := After(START, run[..k]), After(START, run);
            c.sends == map[] && forall t <- c.live :: t in was.live && c.live[t] == was.live[t]
    decreases |run|
  {
    hide Step, EventOk;
    if k < |run| {
      var front, last := run[..|run| - 1], run[|run| - 1];
      assert front[..k] == run[..k];
      NoMoreTimers(front, k);
      StepTimers(After(START, front), last.event, last.now);
    } else {
      assert run[..k] == run;
    }
  }

  /** With no send under way and no timer running, nothing is pending and the tables are empty. */
  lemma IdleMeansEmpty(c: Client)
    requires Sound(c) && c.sends == map[] && c.live == map[]
    ensures c.pending == [] && c.byMessage == map[] && c.actions == map[] && c.timers == map[]
  {
    assert c.timers.Keys == {};
    assert c.pending != [] ==> Owned(c, c.pending[0]);
  }

  lemma AllDue(was: Client, c: Client, earlier: int)
    requires DueSoon(was, earlier) && forall t <- c.live :: t in was.live && c.live[t] == was.live[t]
    ensures DueSoon(c, earlier)
  {
  }

  lemma NoneLeft(was: Client, c: Client, earlier: int, now: int)
    requires DueSoon(was, earlier) && earlier + 5000 <= now
    requires forall t <- c.live :: t in was.live && c.live[t] == was.live[t]
    requires forall t <- c.live :: c.live[t].due > now
    ensures c.live == map[]
  {
    AllDue(was, c, earlier);
    assert forall t :: t !in c.live;
  }

  /** A run in which the k-th prefix has no send under way and none begins later: five seconds on, once the due
      timers have fired, nothing is pending. */
  lemma NothingStaysPending(run: seq<Timed>, k: nat)
    requires CanHappen(START, run) && 0 < k <= |run| && CanHappen(START, run[..k])
    requires After(START, run[..k]).sends == map[] && forall j :: k <= j < |run| ==> !run[j].event.Begin?
    requires run[|run| - 1].now >= run[k - 1].now + 5000
    requires forall t <- After(START, run).live :: After(START, run).live[t].due > run[|run| - 1].now
    ensures var c := After(START, run);
            c.pending == [] && c.byMessage == map[] && c.actions == map[] && c.timers == map[]
  {
    hide Step, EventOk, CanHappen, After;
    AlwaysSound(run);
    AlwaysDueSoon(run[..k]);
    NoMoreTimers(run, k);
    var c := After(START, run);
    assert run[..k][k - 1] == run[k - 1];
    NoneLeft(After(START, run[..k]), c, run[k - 1].now, run[|run| - 1].now);
    IdleMeansEmpty(c);
  }

  /** At every moment a pending device waits for a send or for a timer due within five seconds. */
  lemma PendingExplained(run: seq<Timed>, deviceId: string)
    requires CanHappen(START, run) && run != [] && deviceId in After(START, run).pending
    ensures var c := After(START, run);
            || (exists s <- c.sends :: c.sends[s].deviceId == deviceId)
            || (exists m <- c.byMessage :: c.byMessage[m] == deviceId && m in c.timers && c.timers[m] in c.live
                                           && c.live[c.timers[m]].due <= run[|run| - 1].now + 5000)
  {
    hide Step, EventOk, CanHappen, After;
    AlwaysSound(run);
    AlwaysDueSoon(run);
    var c := After(START, run);
    assert Owned(c, deviceId);
    if !exists s <- c.sends :: c.sends[s].deviceId == deviceId {
      var m :| m in c.byMessage && c.byMessage[m] == deviceId;
      assert m in c.timers.Keys;
      assert c.timers[m] in c.live;
      assert DueSoon(c, run[|run| - 1].now);
      DueOf(c, run[|run| - 1].now, c.timers[m]);
      assert c.live[c.timers[m]].due <= run[|run| - 1].now + 5000;
    }
  }

  // ----- one command at a time for each device

  /** The events that empty the pending list while sends or messages go on. */
  predicate Resets(e: Event) {
    match e
    case Failed(_, unauthorized) => unauthorized
    case Answered(_, unauthorized) => unauthorized
    case Connects(connection) => connection == Disconnected
    case Invalidate => true
    case Forget => true
    case Shutdown => true
    case _ => false
  }

  /** No device has two commands under way, and those with one are the pending ones. */
  predicate OneEach(c: Client) {
    && (forall s <- c.sends :: c.sends[s].deviceId in c.pending)
    && (forall m <- c.byMessage :: c.byMessage[m] in c.pending)
    && (forall s <- c.sends, t <- c.sends :: c.sends[s].deviceId == c.sends[t].deviceId ==> s == t)
    && (forall m <- c.byMessage, n <- c.byMessage :: c.byMessage[m] == c.byMessage[n] ==> m == n)
    && (forall s <- c.sends, m <- c.byMessage :: c.sends[s].deviceId != c.byMessage[m])
  }

  lemma FinishedOneEach(c: Client, messageId: string)
    requires OneEach(c)
    ensures OneEach(Finished(c, messageId))
  {
    hide Without;
  }

  lemma AcknowledgedOneEach(c: Client, send: int, messageId: string, timer: int, now: int)
    requires OneEach(c) && EventOk(c, Sent(send, messageId, timer), now)
    ensures OneEach(Acknowledged(c, send, messageId, timer, now))
  {
  }

  lemma SubmittedOneEach(c: Client, send: int, deviceId: string, action: string)
    requires OneEach(c) && send !in c.sends
    ensures OneEach(Submitted(c, send, deviceId, action))
  {
  }

  lemma GivenUpOneEach(c: Client, send: int)
    requires OneEach(c) && send in c.sends
    ensures OneEach(GivenUp(c, send))
  {
    hide Without;
  }

  lemma StepOneEach(c: Client, e: Event, now: int)
    requires Sound(c) && OneEach(c) && EventOk(c, e, now) && !Resets(e)
    ensures OneEach(Step(c, e, now))
  {
    hide Finished, Acknowledged, Submitted, GivenUp, Elapsed, Sound;
    match e
    case Begin(send, deviceId, action) => SubmittedOneEach(c, send, deviceId, action);
    case Sent(send, messageId, timer) => AcknowledgedOneEach(c, send, messageId, timer, now);
    case Failed(send, _) => GivenUpOneEach(c, send);
    case Answered(messageId, _) => FinishedOneEach(c, messageId);
    case Fires(timer) =>
      ElapsedIsFinished(c, timer);
      FinishedOneEach(c, c.live[timer].messageId);
    case _ =>
  }

  /** A resetting event finds no other send under way, and forgetting finds no message waiting either. */
  predicate Calm(c: Client, e: Event) {
    Resets(e) ==>
      && (if e.Failed? then c.sends.Keys <= {e.send} else c.sends == map[])
      && (e.Forget? ==> c.byMessage == map[])
  }

  lemma NoneUnderWay(c: Client)
    requires c.pending == []
    ensures OneEach(c) <==> c.sends == map[] && c.byMessage == map[]
  {
    if OneEach(c) {
      assert forall s :: s !in c.sends;
      assert forall m :: m !in c.byMessage;
    }
  }

  lemma OnlyKey(sends: map<int, Send>, send: int)
    ensures sends - {send} == map[] <==> sends.Keys <= {send}
  {
    var rest := sends - {send};
    assert forall s <- sends :: s != send ==> s in rest;
    if sends.Keys <= {send} {
      assert forall s :: s !in rest;
      assert rest == map[];
    }
  }

  lemma NoKeys<T>(m: map<string, T>)
    requires m.Keys == {}
    ensures m == map[]
  {
    assert forall k :: k !in m;
  }

  /** What a resetting event leaves under way. */
  lemma ResetLeaves(c: Client, e: Event, now: int)
    requires EventOk(c, e, now) && Resets(e)
    ensures var n := Step(c, e, now);
            && n.pending == []
            && n.sends == (if e.Failed? then c.sends - {e.send} else c.sends)
            && n.byMessage == (if e.Forget? then c.byMessage else map[])
  {
    hide Without;
  }

  lemma ResetOneEach(c: Client, e: Event, now: int)
    requires EventOk(c, e, now) && Resets(e)
    ensures OneEach(Step(c, e, now)) <==> Calm(c, e)
  {
    hide Step, OneEach, EventOk, Resets;
    ResetLeaves(c, e, now);
    NoneUnderWay(Step(c, e, now));
    if e.Failed? {
      OnlyKey(c.sends, e.send);
    }
  }

  /** One event keeps one command per device exactly when it is calm. */
  lemma OneEachStep(c: Client, e: Event, now: int)
    requires Sound(c) && OneEach(c) && EventOk(c, e, now)
    ensures OneEach(Step(c, e, now)) <==> Calm(c, e)
  {
    hide Step, Sound, OneEach, EventOk;
    if Resets(e) {
      ResetOneEach(c, e, now);
    } else {
      StepOneEach(c, e, now);
    }
  }

  /** The property at the start of a run and after each of its events. */
  predicate OneEachThroughout(run: seq<Timed>)
    requires CanHappen(START, run)
  {
    OneEach(After(START, run)) && (run == [] || OneEachThroughout(run[..|run| - 1]))
  }

  predicate CalmThroughout(run: seq<Timed>)
    requires CanHappen(START, run)
  {
    run == [] || (CalmThroughout(run[..|run| - 1]) && Calm(After(START, run[..|run| - 1]), run[|run| - 1].event))
  }

  /** Throughout a run each device has at most one command under way, and the pending devices are those with one,
      exactly when every event of the run is calm. */
  lemma {:induction false} OneEachExactly(run: seq<Timed>)
    requires CanHappen(START, run)
    ensures OneEachThroughout(run) <==> CalmThroughout(run)
  {
    hide Step, EventOk, Sound, Calm;
    if run != [] {
      var front, last := run[..|run| - 1], run[|run| - 1];
      OneEachExactly(front);
      AlwaysSound(front);
      if OneEach(After(START, front)) {
        OneEachStep(After(START, front), last.event, last.now);
      }
      assert OneEachThroughout(front) ==> OneEach(After(START, front));
    }
  }

  /** No device has two commands under way. */
  predicate AtMostOne(c: Client) {
    && (forall s <- c.sends, t <- c.sends :: c.sends[s].deviceId == c.sends[t].deviceId ==> s == t)
    && (forall m <- c.byMessage, n <- c.byMessage :: c.byMessage[m] == c.byMessage[n] ==> m == n)
    && (forall s <- c.sends, m <- c.byMessage :: c.sends[s].deviceId != c.byMessage[m])
  }

  lemma CommandLeftBehind(c: Client, e: Event, now: int) returns (deviceId: string)
    requires Sound(c) && EventOk(c, e, now) && !Calm(c, e)
    ensures deviceId !in Step(c, e, now).pending && Outstanding(Step(c, e, now), deviceId)
  {
    hide Step, EventOk;
    var n := Step(c, e, now);
    ResetLeaves(c, e, now);
    if e.Failed? {
      OnlyKey(c.sends, e.send);
    }
    if s :| s in n.sends {
      deviceId := n.sends[s].deviceId;
    } else {
      assert forall s :: s !in n.sends;
      assert n.sends == map[];
      if n.byMessage.Keys == {} {
        NoKeys(n.byMessage);
      }
      var m :| m in n.byMessage;
      deviceId := n.byMessage[m];
    }
  }

  predicate Outstanding(c: Client, deviceId: string) {
    || (exists s <- c.sends :: c.sends[s].deviceId == deviceId)
    || (exists m <- c.byMessage :: c.byMessage[m] == deviceId)
  }

  /** After an event that is not calm two commands for one device can be under way two events later. */
  lemma UncalmLetsTwo(c: Client, e: Event, now: int, send: int) returns (deviceId: string)
    requires Sound(c) && EventOk(c, e, now) && !Calm(c, e) && send !in Step(c, e, now).sends
    ensures var back := Step(Step(c, e, now), Connects(Online), now);
            && EventOk(back, Begin(send, deviceId, ""), now)
            && !AtMostOne(Step(back, Begin(send, deviceId, ""), now))
  {
    deviceId := CommandLeftBehind(c, e, now);
    BeginBeside(Step(c, e, now), send, deviceId);
  }

  lemma BeginBeside(c: Client, send: int, deviceId: string)
    requires deviceId !in c.pending && Outstanding(c, deviceId) && send !in c.sends
    ensures !AtMostOne(Submitted(c.(connection := Online), send, deviceId, ""))
  {
    var n := Submitted(c.(connection := Online), send, deviceId, "");
    assert send in n.sends && n.sends[send].deviceId == deviceId;
    if s :| s in c.sends && c.sends[s].deviceId == deviceId {
      assert s in n.sends && n.sends[s].deviceId == deviceId;
    }
  }

  lemma Extended(run: seq<Timed>, e: Event, now: int)
    requires CanHappen(START, run) && EventOk(After(START, run), e, now)
    requires run != [] ==> run[|run| - 1].now <= now
    ensures CanHappen(START, run + [Timed(e, now)])
    ensures After(START, run + [Timed(e, now)]) == Step(After(START, run), e, now)
  {
    hide Step, EventOk;
    assert (run + [Timed(e, now)])[..|run|] == run;
  }

  const FORGOTTEN := Client(
    Disconnected, [], [], map["first" := "lamp"], map["first" := "setPower"], map["first" := 1], map[],
    map[1 := Timer("first", 5000)])

  lemma Forgetting() returns (run: seq<Timed>)
    ensures CanHappen(START, run) && After(START, run) == FORGOTTEN && run != [] && run[|run| - 1].now == 0
    ensures forall r <- run :: Resets(r.event) ==> r.event == Forget
    ensures forall r <- run :: !r.event.Answered?
  {
    hide CanHappen, After;
    assert CanHappen(START, []) && After(START, []) == START by { Empty(); }
    Extended([], Connects(Online), 0);
    run := [] + [Timed(Connects(Online), 0)];
    Extended(run, Begin(1, "lamp", "setPower"), 0);
    run := run + [Timed(Begin(1, "lamp", "setPower"), 0)];
    Extended(run, Sent(1, "first", 1), 0);
    run := run + [Timed(Sent(1, "first", 1), 0)];
    Extended(run, Connects(Closed), 0);
    run := run + [Timed(Connects(Closed), 0)];
    Extended(run, Forget, 0);
    run := run + [Timed(Forget, 0)];
    assert After(START, run) == FORGOTTEN;
  }

  const AGAIN := FORGOTTEN.(connection := Online)
  const SECOND := AGAIN.(pending := ["lamp"], sends := map[2 := Send("lamp", "setPower")])

  lemma Again()
    ensures EventOk(FORGOTTEN, Connects(Online), 0) && Step(FORGOTTEN, Connects(Online), 0) == AGAIN
    ensures EventOk(AGAIN, Begin(2, "lamp", "setPower"), 0) && Step(AGAIN, Begin(2, "lamp", "setPower"), 0) == SECOND
  {
  }

  lemma OldTimerFires()
    ensures EventOk(SECOND, Fires(1), 5000)
    ensures var c := Step(SECOND, Fires(1), 5000);
            c.pending == [] && c.sends == SECOND.sends && c.connection == Online
  {
    assert Without(["lamp"], "lamp") == [];
  }

  /** Forgetting the gateway leaves the tables: the timer of a command from before then frees the device while a new
      command for it is under way, and two go on at once. */
  lemma ForgetLetsTwoUnderWay() returns (run: seq<Timed>)
    ensures CanHappen(START, run) && !AtMostOne(After(START, run))
    ensures forall r <- run :: Resets(r.event) ==> r.event == Forget
    ensures forall r <- run :: !r.event.Answered?
  {
    hide CanHappen, After, Step, Finished, AGAIN, SECOND, FORGOTTEN;
    run := Forgetting();
    Again();
    Extended(run, Connects(Online), 0);
    run := run + [Timed(Connects(Online), 0)];
    Extended(run, Begin(2, "lamp", "setPower"), 0);
    run := run + [Timed(Begin(2, "lamp", "setPower"), 0)];
    OldTimerFires();
    Extended(run, Fires(1), 5000);
    run := run + [Timed(Fires(1), 5000)];
    ThirdBegins(After(START, run));
    Extended(run, Begin(3, "lamp", "setPower"), 5000);
    run := run + [Timed(Begin(3, "lamp", "setPower"), 5000)];
  }

  lemma ThirdBegins(c: Client)
    requires c.pending == [] && c.sends == SECOND.sends && c.connection == Online
    ensures EventOk(c, Begin(3, "lamp", "setPower"), 5000)
    ensures !AtMostOne(Step(c, Begin(3, "lamp", "setPower"), 5000))
  {
    var n := Step(c, Begin(3, "lamp", "setPower"), 5000);
    assert 2 in n.sends && 3 in n.sends && n.sends[2].deviceId == n.sends[3].deviceId;
  }

  lemma Empty()
    ensures CanHappen(START, []) && After(START, []) == START
  {
  }
}
