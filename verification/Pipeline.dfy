/**
 * GatewayService.process_command: a result cache, a nonce cache and a timestamp window in front of
 * the registry.  Times are milliseconds; the monotonic clock and the wall clock are inputs.
 */
module Pipeline {
  import opened Wrappers
  import opened Devices
  import opened Registry
  import opened Operations

  const IDEMPOTENCY_WINDOW_MS := 300_000
  const TIMESTAMP_WINDOW_MS := 30_000

  // ----- sealed commands

  type Key = string

  /** The header fields canonical_aad binds to the ciphertext. */
  datatype Header = Header(messageId: string, deviceId: string, timestamp: int, action: string,
                           expected: Option<int>)

  datatype Content = Object(payload: Payload) | NotAnObject

  /** Ideal authenticated encryption: a ciphertext is what was sealed, or noise. */
  datatype Sealed = Sealed(key: Key, nonce: string, header: Header, content: Content) | Noise

  datatype Envelope = Envelope(header: Header, nonce: string, sealed: Sealed)

  datatype Session = Session(credential: string, dataKey: Key)

  /** decrypt_payload: None when the tag does not match or the content is not an object. */
  function Opened(key: Key, e: Envelope): Option<Payload> {
    if e.sealed.Sealed? && e.sealed.key == key && e.sealed.nonce == e.nonce
       && e.sealed.header == e.header && e.sealed.content.Object?
    then Some(e.sealed.content.payload) else None
  }

  // ----- results and events

  datatype CommandResult = CommandResult(
    timestamp: int,
    messageId: string,
    deviceId: string,
    action: string,
    success: bool,
    error: Option<Code>,
    details: Option<seq<Detail>>,
    stateVersion: Option<int>)

  datatype Event = StateChanged(view: PublicDevice, timestamp: int) | AlertRaised(alert: Alert)

  function ErrorResult(e: Envelope, code: Code, wall: int): CommandResult {
    CommandResult(wall, e.header.messageId, e.header.deviceId, e.header.action, false, Some(code), None, None)
  }

  function SuccessResult(e: Envelope, reply: Reply, wall: int): CommandResult {
    CommandResult(wall, e.header.messageId, e.header.deviceId, e.header.action, true, None,
                  if reply.SceneDetails? then Some(reply.details) else None,
                  if reply.OneDevice? then Some(reply.view.stateVersion) else None)
  }

  function StateEvents(views: seq<PublicDevice>, wall: int): seq<Event> {
    seq(|views|, i requires 0 <= i < |views| => StateChanged(views[i], wall))
  }

  function AlertEvents(alerts: seq<Alert>): seq<Event> {
    seq(|alerts|, i requires 0 <= i < |alerts| => AlertRaised(alerts[i]))
  }

  // ----- the gateway

  /** Keys of the caches: a credential with a message id, or with a nonce. */
  type Tag = (string, string)

  datatype Cached = Cached(at: int, result: CommandResult)

  datatype Gateway = Gateway(results: map<Tag, Cached>, nonces: map<Tag, int>, reg: Reg)

  /** The clock readings of one call, in the order they are taken: monotonic when pruning, wall
      (for the timestamp check and everything the registry stamps), monotonic when the nonce is
      stored, monotonic when the result is stored. */
  datatype Clocks = Clocks(pruned: int, wall: int, nonced: int, stored: int)

  function MessageTag(s: Session, e: Envelope): Tag {
    (s.credential, e.header.messageId)
  }

  function NonceTag(s: Session, e: Envelope): Tag {
    (s.credential, e.nonce)
  }

  /** _prune_security_windows. */
  function Pruned(g: Gateway, mono: int): Gateway {
    var cutoff := mono - IDEMPOTENCY_WINDOW_MS;
    g.(results := map k | k in g.results && g.results[k].at >= cutoff :: g.results[k],
       nonces := map k | k in g.nonces && g.nonces[k] >= cutoff :: g.nonces[k])
  }

  datatype Processed = Processed(gateway: Gateway, result: CommandResult, events: seq<Event>)

  function WithResult(g: Gateway, tag: Tag, at: int, result: CommandResult): Gateway {
    g.(results := g.results[tag := Cached(at, result)])
  }

  predicate InWindow(e: Envelope, wall: int) {
    -TIMESTAMP_WINDOW_MS <= wall - e.header.timestamp <= TIMESTAMP_WINDOW_MS
  }

  /** The three tests that keep a command away from decryption and the registry. */
  predicate Admitted(g: Gateway, s: Session, e: Envelope, wall: int) {
    && MessageTag(s, e) !in g.results
    && InWindow(e, wall)
    && NonceTag(s, e) !in g.nonces
  }

  /** The command reaches devices.execute. */
  predicate Reaches(g: Gateway, s: Session, e: Envelope, wall: int) {
    Admitted(g, s, e, wall) && Opened(s.dataKey, e).Some?
  }

  function CommandOf(e: Envelope, p: Payload, wall: int): Op {
    Command(e.header.deviceId, e.header.action, p, e.header.expected, wall)
  }

  /** Decryption and the registry: the outcome, the registry after it and the views to broadcast. */
  datatype Outcome = Outcome(reply: Result<Reply, Code>, happened: Happened)

  function Carried(reg: Reg, s: Session, e: Envelope, wall: int): Outcome
    requires Listed(reg)
  {
    match Opened(s.dataKey, e)
    case None => Outcome(Err(ReplayDetected), Happened(reg, []))
    case Some(p) =>
      Outcome(Execute(reg, e.header.deviceId, e.header.action, p, e.header.expected, wall).result,
              Perform(reg, CommandOf(e, p, wall)))
  }

  function ResultOf(e: Envelope, reply: Result<Reply, Code>, wall: int): CommandResult {
    match reply
    case Ok(value) => SuccessResult(e, value, wall)
    case Err(code) => ErrorResult(e, code, wall)
  }

  /** process_command after pruning. */
  function Handled(g: Gateway, s: Session, e: Envelope, c: Clocks): Processed
    requires Listed(g.reg)
  {
    var tag := MessageTag(s, e);
    if tag in g.results then Processed(g, g.results[tag].result, [])
    else if !InWindow(e, c.wall) || NonceTag(s, e) in g.nonces then
      var result := ErrorResult(e, ReplayDetected, c.wall);
      Processed(WithResult(g, tag, c.stored, result), result, [])
    else
      var outcome := Carried(g.reg, s, e, c.wall);
      var after := outcome.happened.reg;
      var result := ResultOf(e, outcome.reply, c.wall);
      Processed(WithResult(Gateway(g.results, g.nonces[NonceTag(s, e) := c.nonced], DrainAlerts(after)),
                           tag, c.stored, result),
                result,
                StateEvents(outcome.happened.announced, c.wall) + AlertEvents(after.alerts))
  }

  function ProcessCommand(g: Gateway, s: Session, e: Envelope, c: Clocks): Processed
    requires Listed(g.reg)
  {
    Handled(Pruned(g, c.pruned), s, e, c)
  }

  // ----- runs

  /** A command arrives, or anything else happens to the registry. */
  datatype Input = Arrival(session: Session, envelope: Envelope, clocks: Clocks) | Background(op: Op)

  /** One step of the gateway, or of a gateway that never forgets when prunes is false. */
  function Next(g: Gateway, input: Input, prunes: bool): (r: Gateway)
    requires Listed(g.reg)
    ensures Listed(r.reg)
  {
    match input
    case Arrival(s, e, c) =>
      var start := if prunes then Pruned(g, c.pruned) else g;
      HandledListed(start, s, e, c);
      Handled(start, s, e, c).gateway
    case Background(op) =>
      StepListed(g.reg, op);
      g.(reg := Step(g.reg, op))
  }

  lemma HandledListed(g: Gateway, s: Session, e: Envelope, c: Clocks)
    requires Listed(g.reg)
    ensures Listed(Handled(g, s, e, c).gateway.reg)
  {
    var content := Opened(s.dataKey, e);
    if content.Some? {
      StepListed(g.reg, CommandOf(e, content.value, c.wall));
    }
  }

  function RunGateway(g: Gateway, inputs: seq<Input>, prunes: bool): (r: Gateway)
    requires Listed(g.reg)
    ensures Listed(r.reg)
    decreases |inputs|
  {
    if inputs == [] then g
    else Next(RunGateway(g, inputs[..|inputs| - 1], prunes), inputs[|inputs| - 1], prunes)
  }

  /** The gateway before input n of a run, or after the last one. */
  function GatewayAt(g: Gateway, inputs: seq<Input>, n: nat, prunes: bool): (r: Gateway)
    requires Listed(g.reg) && n <= |inputs|
    ensures Listed(r.reg)
  {
    RunGateway(g, inputs[..n], prunes)
  }

  lemma NextGatewayAt(g: Gateway, inputs: seq<Input>, n: nat, prunes: bool)
    requires Listed(g.reg) && n < |inputs|
    ensures GatewayAt(g, inputs, n + 1, prunes) == Next(GatewayAt(g, inputs, n, prunes), inputs[n], prunes)
  {
    assert inputs[..n + 1][..n] == inputs[..n];
  }

  function Fresh(reg: Reg): Gateway {
    Gateway(map[], map[], reg)
  }

  /** Clock readings of one call are in order, and calls follow each other. */
  ghost predicate ClocksOrdered(inputs: seq<Input>) {
    && (forall i :: 0 <= i < |inputs| && inputs[i].Arrival? ==>
          var c := inputs[i].clocks; c.pruned <= c.nonced <= c.stored)
    && (forall i, j :: 0 <= i < j < |inputs| && inputs[i].Arrival? && inputs[j].Arrival? ==>
          inputs[i].clocks.stored <= inputs[j].clocks.pruned)
  }
}
