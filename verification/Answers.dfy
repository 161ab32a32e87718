/**
 * What the gateway answers: which commands reach a device, what each answer says and carries, and what is
 * left behind, told from the envelope, the session and the state before.
 */
module Answers {
  import opened Wrappers
  import opened Devices
  import opened Registry
  import opened Operations
  import opened Pipeline
  import opened CommandLaws

  // ----- which commands reach the registry

  /** An answer to the message is remembered. */
  predicate Remembered(g: Gateway, s: Session, e: Envelope, c: Clocks) {
    (s.credential, e.header.messageId) in g.results
    && g.results[(s.credential, e.header.messageId)].at >= c.pruned - 300_000
  }

  predicate NonceSeen(g: Gateway, s: Session, e: Envelope, c: Clocks) {
    (s.credential, e.nonce) in g.nonces && g.nonces[(s.credential, e.nonce)] >= c.pruned - 300_000
  }

  predicate OnTime(e: Envelope, c: Clocks) {
    c.wall - 30_000 <= e.header.timestamp <= c.wall + 30_000
  }

  /** A new message, in time, with a new nonce. */
  predicate LetIn(g: Gateway, s: Session, e: Envelope, c: Clocks) {
    !Remembered(g, s, e, c) && OnTime(e, c) && !NonceSeen(g, s, e, c)
  }

  /** The ciphertext was sealed under the session's key, for this nonce and exactly this header, and holds an
      object. */
  predicate Authentic(s: Session, e: Envelope) {
    && e.sealed.Sealed?
    && e.sealed.key == s.dataKey && e.sealed.nonce == e.nonce && e.sealed.header == e.header
    && e.sealed.content.Object?
  }

  /** The command reaches the registry. */
  predicate Runs(g: Gateway, s: Session, e: Envelope, c: Clocks) {
    LetIn(g, s, e, c) && Authentic(s, e)
  }

  predicate ToScene(e: Envelope) {
    e.header.deviceId == "scene-away" || e.header.deviceId == "scene-home"
  }

  // ----- the shape of an answer

  predicate Identifies(r: CommandResult, e: Envelope, wall: int) {
    r.messageId == e.header.messageId && r.deviceId == e.header.deviceId && r.action == e.header.action
    && r.timestamp == wall
  }

  /** A refusal carries a code and nothing else. */
  predicate Refusal(r: CommandResult, e: Envelope, wall: int, code: Code) {
    Identifies(r, e, wall) && !r.success && r.error == Some(code) && r.details.None? && r.stateVersion.None?
  }

  function Raised(alerts: seq<Alert>): seq<Event> {
    if alerts == [] then [] else Raised(alerts[..|alerts| - 1]) + [AlertRaised(alerts[|alerts| - 1])]
  }

  lemma {:induction false} RaisedAll(alerts: seq<Alert>)
    ensures AlertEvents(alerts) == Raised(alerts)
  {
    if alerts != [] {
      RaisedAll(alerts[..|alerts| - 1]);
      assert AlertEvents(alerts) == AlertEvents(alerts[..|alerts| - 1]) + [AlertRaised(alerts[|alerts| - 1])];
    }
  }

  /** The caches: what is too old is dropped, and the message and, if it was let in, its nonce are remembered. */
  ghost predicate Remembers(g: Gateway, after: Gateway, s: Session, e: Envelope, c: Clocks, result: CommandResult) {
    var tag, nonce := (s.credential, e.header.messageId), (s.credential, e.nonce);
    && (forall k :: k in after.results <==>
          k == tag || (k in g.results && g.results[k].at >= c.pruned - 300_000))
    && (forall k <- after.results :: k != tag ==> after.results[k] == g.results[k])
    && after.results[tag] == Cached(c.stored, result)
    && (forall k :: k in after.nonces <==>
          (LetIn(g, s, e, c) && k == nonce) || (k in g.nonces && g.nonces[k] >= c.pruned - 300_000))
    && (forall k <- after.nonces ::
          after.nonces[k] == if LetIn(g, s, e, c) && k == nonce then c.nonced else g.nonces[k])
  }

  // ----- the answers

  /** A remembered message gets its first answer, and nothing else happens. */
  lemma RememberedAnswer(g: Gateway, s: Session, e: Envelope, c: Clocks)
    requires Listed(g.reg) && Remembered(g, s, e, c)
    ensures var p := ProcessCommand(g, s, e, c);
      && p.result == g.results[(s.credential, e.header.messageId)].result && p.events == []
      && p.gateway.reg == g.reg
      && (forall k :: k in p.gateway.results <==> k in g.results && g.results[k].at >= c.pruned - 300_000)
      && (forall k <- p.gateway.results :: p.gateway.results[k] == g.results[k])
      && (forall k :: k in p.gateway.nonces <==> k in g.nonces && g.nonces[k] >= c.pruned - 300_000)
      && (forall k <- p.gateway.nonces :: p.gateway.nonces[k] == g.nonces[k])
  {
    hide Carried, InWindow;
  }

  /** A new message is remembered with its answer. */
  lemma NewAnswerRemembered(g: Gateway, s: Session, e: Envelope, c: Clocks)
    requires Listed(g.reg) && !Remembered(g, s, e, c)
    ensures var p := ProcessCommand(g, s, e, c);
            Remembers(g, p.gateway, s, e, c, p.result)
  {
    hide Carried;
  }

  /** A new message that is late or early, repeats a nonce, or does not open under the session's key with its own
      header, is refused as a replay, whatever it asks for, and reaches no device. */
  lemma NotRun(g: Gateway, s: Session, e: Envelope, c: Clocks)
    requires Listed(g.reg) && !Remembered(g, s, e, c) && !Runs(g, s, e, c)
    ensures var p := ProcessCommand(g, s, e, c);
      && Refusal(p.result, e, c.wall, ReplayDetected)
      && p.gateway.reg == (if LetIn(g, s, e, c) then g.reg.(alerts := []) else g.reg)
      && p.events == (if LetIn(g, s, e, c) then Raised(g.reg.alerts) else [])
  {
    RaisedAll(g.reg.alerts);
    NoViews(c.wall);
  }

  lemma NoViews(wall: int)
    ensures StateEvents([], wall) == []
  {
  }

  /** A success says so; to a device it carries the version of the view, to a scene the details. */
  predicate Success(r: CommandResult, e: Envelope, wall: int, reply: Reply) {
    && Identifies(r, e, wall) && r.success && r.error.None?
    && r.details == (if reply.SceneDetails? then Some(reply.details) else None)
    && r.stateVersion == (if reply.OneDevice? then Some(reply.view.stateVersion) else None)
  }

  /** A command that runs is executed by the registry as it was sent: under the sender's action, arguments and expected
      version.  Its views and the pending alerts are broadcast, and the alerts are then forgotten. */
  lemma RunsInRegistry(g: Gateway, s: Session, e: Envelope, c: Clocks)
    requires Listed(g.reg) && Runs(g, s, e, c)
    ensures var op := Command(e.header.deviceId, e.header.action, e.sealed.content.payload, e.header.expected, c.wall);
            var p, h := ProcessCommand(g, s, e, c), Perform(g.reg, op);
            var reply := Execute(g.reg, op.target, op.action, op.payload, op.expected, op.now).result;
      && p.gateway.reg == h.reg.(alerts := [])
      && p.events == StateEvents(h.announced, c.wall) + Raised(h.reg.alerts)
      && (reply.Ok? ==> Success(p.result, e, c.wall, reply.value))
      && (reply.Err? ==> Refusal(p.result, e, c.wall, reply.error))
  {
    hide Execute, Perform, StateEvents, AlertEvents, Remembered;
    var h := Perform(g.reg, Command(e.header.deviceId, e.header.action, e.sealed.content.payload, e.header.expected,
                                    c.wall));
    RaisedAll(h.reg.alerts);
    StillLetIn(g, s, e, c);
  }

  lemma StillLetIn(g: Gateway, s: Session, e: Envelope, c: Clocks)
    ensures LetIn(g, s, e, c) <==> Admitted(Pruned(g, c.pruned), s, e, c.wall)
  {
  }

  /** A command to a device that runs.  A refusal carries the device's reason and no state event; a success carries the
      version the device then has, and its stored view is broadcast. */
  lemma DeviceAnswer(g: Gateway, s: Session, e: Envelope, c: Clocks)
    requires Listed(g.reg) && Runs(g, s, e, c) && !ToScene(e) && e.header.deviceId in g.reg.devices
    ensures var p, id := ProcessCommand(g, s, e, c), e.header.deviceId;
            var a := Commanded(g.reg.devices[id], e.header.action, e.sealed.content.payload, e.header.expected, c.wall);
            var alerts := if a.jamAlert then g.reg.alerts + [DoorJammed(id, c.wall)] else g.reg.alerts;
      && p.gateway.reg == g.reg.(devices := g.reg.devices[id := a.device], alerts := [])
      && (a.error.Some? ==> Refusal(p.result, e, c.wall, a.error.value) && p.events == Raised(alerts))
      && (a.error.None? ==>
            && Identifies(p.result, e, c.wall) && p.result.success && p.result.error.None?
            && p.result.details.None? && p.result.stateVersion == Some(a.device.stateVersion)
            && p.events == [StateChanged(PublicView(a.device, g.reg.categories), c.wall)] + Raised(alerts))
  {
    hide Commanded, Execute, Perform, ProcessCommand, Runs, Raised;
    assert e.sealed.Sealed? && e.sealed.content.Object? by { assert Runs(g, s, e, c); RunsIsAuthentic(g, s, e, c); }
    RunsInRegistry(g, s, e, c);
    DirectCommand(g.reg, e.header.deviceId, e.header.action, e.sealed.content.payload, e.header.expected, c.wall);
    NoViews(c.wall);
    OneView(PublicView(Commanded(g.reg.devices[e.header.deviceId], e.header.action, e.sealed.content.payload,
                                 e.header.expected, c.wall).device, g.reg.categories), c.wall);
  }

  lemma RunsIsAuthentic(g: Gateway, s: Session, e: Envelope, c: Clocks)
    requires Runs(g, s, e, c)
    ensures e.sealed.Sealed? && e.sealed.content.Object?
  {
  }

  lemma OneView(v: PublicDevice, wall: int)
    ensures StateEvents([v], wall) == [StateChanged(v, wall)]
  {
  }

  /** A command to a device that is not there. */
  lemma UnknownDeviceAnswer(g: Gateway, s: Session, e: Envelope, c: Clocks)
    requires Listed(g.reg) && Runs(g, s, e, c) && !ToScene(e) && e.header.deviceId !in g.reg.devices
    ensures var p := ProcessCommand(g, s, e, c);
      && Refusal(p.result, e, c.wall, InvalidCommand)
      && p.gateway.reg == g.reg.(alerts := []) && p.events == Raised(g.reg.alerts)
  {
    hide Commanded, Execute, Perform, ProcessCommand, Raised;
    RunsInRegistry(g, s, e, c);
    DirectCommand(g.reg, e.header.deviceId, e.header.action, e.sealed.content.payload, e.header.expected, c.wall);
    NoViews(c.wall);
    NothingAnnounced(g.reg, e.header.deviceId, e.header.action, e.sealed.content.payload, e.header.expected, c.wall);
  }

  lemma NothingAnnounced(reg: Reg, id: string, action: string, p: Payload, expected: Option<int>, now: int)
    requires Listed(reg) && Execute(reg, id, action, p, expected, now).result.Err?
    ensures Perform(reg, Command(id, action, p, expected, now)).announced == []
  {
    hide Execute;
  }

  /** What a success to a device means: it ran against the expected version, if one was sent, and raised it by one; the
      answer carries the version that is stored, and the stored view is the one state event. */
  lemma SuccessMeans(g: Gateway, s: Session, e: Envelope, c: Clocks)
    requires Listed(g.reg) && !Remembered(g, s, e, c) && !ToScene(e)
    requires ProcessCommand(g, s, e, c).result.success
    ensures var p, id := ProcessCommand(g, s, e, c), e.header.deviceId;
      && LetIn(g, s, e, c) && Authentic(s, e)
      && id in g.reg.devices && id in p.gateway.reg.devices
      && var before, after := g.reg.devices[id], p.gateway.reg.devices[id];
         && before.online && before.commandDelayMs <= 5000 && !before.failNextCommand
         && (e.header.expected.Some? ==> e.header.expected.value == before.stateVersion)
         && after.stateVersion == before.stateVersion + 1 && after.updatedAt == c.wall
         && p.result.stateVersion == Some(after.stateVersion) && p.result.details.None? && p.result.error.None?
         && (forall x <- g.reg.devices :: x != id ==> x in p.gateway.reg.devices
                                                      && p.gateway.reg.devices[x] == g.reg.devices[x])
         && p.events != [] && p.events[0] == StateChanged(PublicView(after, g.reg.categories), c.wall)
         && (forall i :: 0 < i < |p.events| ==> p.events[i].AlertRaised?)
  {
    hide ProcessCommand, Remembered, OnTime, NonceSeen, Commanded, PublicView;
    if !Runs(g, s, e, c) {
      NotRun(g, s, e, c);
    } else if e.header.deviceId !in g.reg.devices {
      UnknownDeviceAnswer(g, s, e, c);
    } else {
      DeviceAnswer(g, s, e, c);
      var d, id := g.reg.devices[e.header.deviceId], e.header.deviceId;
      SuccessfulCommand(d, e.header.action, e.sealed.content.payload, e.header.expected, c.wall);
      RaisedAre(g.reg.alerts);
      RaisedAre(g.reg.alerts + [DoorJammed(id, c.wall)]);
    }
  }

  lemma SuccessfulCommand(d: Device, action: string, p: Payload, expected: Option<int>, now: int)
    requires Commanded(d, action, p, expected, now).error.None?
    ensures Free(d, expected)
    ensures var e := Commanded(d, action, p, expected, now).device;
            e.stateVersion == d.stateVersion + 1 && e.updatedAt == now
  {
    hide BodyEffect;
  }

  lemma {:induction false} RaisedAre(alerts: seq<Alert>)
    ensures forall ev <- Raised(alerts) :: ev.AlertRaised?
  {
    if alerts != [] { RaisedAre(alerts[..|alerts| - 1]); }
  }

  /** Why a device that is there refuses a command that runs, whatever the command is: offline, behind, too slow or told
      to fail, in that order; only the last leaves a trace, and no state event is sent. */
  lemma DeviceRefuses(g: Gateway, s: Session, e: Envelope, c: Clocks)
    requires Listed(g.reg) && Runs(g, s, e, c) && !ToScene(e) && e.header.deviceId in g.reg.devices
    requires !Free(g.reg.devices[e.header.deviceId], e.header.expected)
    ensures var p, id := ProcessCommand(g, s, e, c), e.header.deviceId;
            var d, expected := g.reg.devices[id], e.header.expected;
      && Refusal(p.result, e, c.wall,
                 if !d.online then DeviceOffline
                 else if expected.Some? && expected.value != d.stateVersion then StateConflict
                 else if d.commandDelayMs > 5000 then CommandTimeout
                 else InternalError)
      && p.events == Raised(g.reg.alerts)
      && p.gateway.reg.devices ==
         (if p.result.error == Some(InternalError) then g.reg.devices[id := d.(failNextCommand := false)]
          else g.reg.devices)
  {
    hide ProcessCommand, Commanded, PublicView, Runs;
    RunsIsAuthentic(g, s, e, c);
    DeviceAnswer(g, s, e, c);
    var d := g.reg.devices[e.header.deviceId];
    TakesNoCommand(d, e.header.action, e.sealed.content.payload, e.header.expected, c.wall);
    assert g.reg.devices[e.header.deviceId := d] == g.reg.devices;
  }

  /** A stale expected version to a device that is online conflicts and changes nothing. */
  lemma StaleAnswer(g: Gateway, s: Session, e: Envelope, c: Clocks)
    requires Listed(g.reg) && Runs(g, s, e, c) && !ToScene(e) && e.header.deviceId in g.reg.devices
    requires g.reg.devices[e.header.deviceId].online && e.header.expected.Some?
    requires e.header.expected.value != g.reg.devices[e.header.deviceId].stateVersion
    ensures var p := ProcessCommand(g, s, e, c);
      && Refusal(p.result, e, c.wall, StateConflict) && p.events == Raised(g.reg.alerts)
      && p.gateway.reg.devices == g.reg.devices
  {
    hide ProcessCommand;
    DeviceRefuses(g, s, e, c);
  }

  /** A scene takes its one action; the answer carries a result for each device and no version, and the stored views of
      the devices that followed are broadcast. */
  lemma SceneAnswer(g: Gateway, s: Session, e: Envelope, c: Clocks)
    requires Listed(g.reg) && Runs(g, s, e, c) && ToScene(e)
    ensures var p := ProcessCommand(g, s, e, c);
            var away := e.header.deviceId == "scene-away";
            var run := if away then ExecuteAway(g.reg, c.wall) else ExecuteHome(g.reg, c.wall);
      if e.header.action == (if away then "executeAway" else "executeHome") then
        && Identifies(p.result, e, c.wall) && p.result.success && p.result.error.None?
        && p.result.details == Some(run.details) && p.result.stateVersion.None?
        && p.gateway.reg == run.reg.(alerts := [])
        && p.events == StateEvents(SceneViews(run.reg, run.details), c.wall) + Raised(run.reg.alerts)
      else
        && Refusal(p.result, e, c.wall, InvalidCommand)
        && p.gateway.reg == g.reg.(alerts := []) && p.events == Raised(g.reg.alerts)
  {
    hide ProcessCommand, Raised, Runs, ExecuteAway, ExecuteHome, StateEvents, SceneViews;
    RunsIsAuthentic(g, s, e, c);
    RunsInRegistry(g, s, e, c);
    NoViews(c.wall);
  }
}
