/**
 * Whole runs of the gateway are runs of its registry, and what optimistic concurrency gives to clients that
 * reach the registry through the gateway.
 */
module GatewayRuns {
  import opened Wrappers
  import opened Devices
  import opened Registry
  import opened Operations
  import opened Traces
  import opened Structure
  import opened Versions
  import opened Pipeline
  import opened Replay
  import opened CommandLaws
  import opened Answers

  // ----- the registry's side of a run

  function CommandIn(e: Envelope, c: Clocks): Op
    requires e.sealed.Sealed? && e.sealed.content.Object?
  {
    Command(e.header.deviceId, e.header.action, e.sealed.content.payload, e.header.expected, c.wall)
  }

  /** What one input does to the registry. */
  function OpsOfInput(g: Gateway, input: Input): seq<Op> {
    match input
    case Background(op) => [op]
    case Arrival(s, e, c) =>
      if Runs(g, s, e, c) then [CommandIn(e, c), Drain] else if LetIn(g, s, e, c) then [Drain] else []
  }

  function OpsOf(g: Gateway, inputs: seq<Input>): seq<Op>
    requires Listed(g.reg)
    decreases |inputs|
  {
    if inputs == [] then []
    else
      var front := inputs[..|inputs| - 1];
      OpsOf(g, front) + OpsOfInput(RunGateway(g, front, true), inputs[|inputs| - 1])
  }

  lemma AfterJoined(reg: Reg, ops: seq<Op>, op: Op)
    requires Listed(reg)
    ensures After(reg, ops + [op]) == Step(After(reg, ops), op)
    ensures After(reg, []) == reg
  {
    assert (ops + [op])[..|ops|] == ops;
  }

  /** One input, on the registry. */
  lemma InputStep(g: Gateway, input: Input)
    requires Listed(g.reg)
    ensures After(g.reg, OpsOfInput(g, input)) == Next(g, input, true).reg
  {
    hide ProcessCommand, Handled, After, Runs, LetIn, Execute;
    match input
    case Background(op) =>
      AfterJoined(g.reg, [], op);
      assert [] + [op] == [op];
    case Arrival(s, e, c) =>
      NextIsProcessed(g, s, e, c);
      AfterJoined(g.reg, [], Drain);
      assert [] + [Drain] == [Drain];
      if Runs(g, s, e, c) {
        RunsIsAuthentic(g, s, e, c);
        RunsInRegistry(g, s, e, c);
        AfterJoined(g.reg, [], CommandIn(e, c));
        AfterJoined(g.reg, [CommandIn(e, c)], Drain);
        assert [] + [CommandIn(e, c)] == [CommandIn(e, c)] && [CommandIn(e, c)] + [Drain] == [CommandIn(e, c), Drain];
      } else if Remembered(g, s, e, c) {
        RememberedAnswer(g, s, e, c);
        assert !LetIn(g, s, e, c) by { NotTwice(g, s, e, c); }
      } else {
        NotRun(g, s, e, c);
      }
  }

  lemma NotTwice(g: Gateway, s: Session, e: Envelope, c: Clocks)
    requires Remembered(g, s, e, c)
    ensures !LetIn(g, s, e, c)
  {
  }

  lemma NextIsProcessed(g: Gateway, s: Session, e: Envelope, c: Clocks)
    requires Listed(g.reg)
    ensures Next(g, Arrival(s, e, c), true) == ProcessCommand(g, s, e, c).gateway
  {
    hide Handled;
  }

  lemma {:induction false} AfterAppended(reg: Reg, a: seq<Op>, b: seq<Op>)
    requires Listed(reg)
    ensures After(reg, a + b) == After(After(reg, a), b)
    decreases |b|
  {
    hide Step;
    if b == [] {
      assert a + b == a;
    } else {
      assert (a + b)[..|a + b| - 1] == a + b[..|b| - 1];
      AfterAppended(reg, a, b[..|b| - 1]);
    }
  }

  /** A run of the gateway is a run of its registry: the commands that run, each followed by handing over the alerts,
      and whatever else happens to the registry. */
  lemma {:induction false} GatewayIsRegistry(g: Gateway, inputs: seq<Input>)
    requires Listed(g.reg)
    ensures RunGateway(g, inputs, true).reg == After(g.reg, OpsOf(g, inputs))
    decreases |inputs|
  {
    hide Next, After, OpsOfInput;
    if inputs == [] {
      AfterJoined(g.reg, [], Drain);
    } else {
      var front, last := inputs[..|inputs| - 1], inputs[|inputs| - 1];
      GatewayIsRegistry(g, front);
      InputStep(RunGateway(g, front, true), last);
      AfterAppended(g.reg, OpsOf(g, front), OpsOfInput(RunGateway(g, front, true), last));
    }
  }

  // ----- moments

  /** How many operations on the registry come before input n. */
  function Moment(g: Gateway, inputs: seq<Input>, n: nat): nat
    requires Listed(g.reg) && n <= |inputs|
  {
    |OpsOf(g, inputs[..n])|
  }

  lemma OpsNext(g: Gateway, inputs: seq<Input>, n: nat)
    requires Listed(g.reg) && n < |inputs|
    ensures OpsOf(g, inputs[..n + 1]) == OpsOf(g, inputs[..n]) + OpsOfInput(GatewayAt(g, inputs, n, true), inputs[n])
  {
    assert inputs[..n + 1][..n] == inputs[..n];
  }

  lemma {:induction false} OpsPrefix(g: Gateway, inputs: seq<Input>, m: nat, n: nat)
    requires Listed(g.reg) && m <= n <= |inputs|
    ensures OpsOf(g, inputs[..m]) <= OpsOf(g, inputs[..n])
    decreases n
  {
    hide OpsOf, OpsOfInput, GatewayAt;
    if m < n {
      OpsPrefix(g, inputs, m, n - 1);
      OpsNext(g, inputs, n - 1);
    }
  }

  lemma AtMoment(g: Gateway, inputs: seq<Input>, n: nat)
    requires Listed(g.reg) && n <= |inputs|
    ensures var ops := OpsOf(g, inputs);
      Moment(g, inputs, n) <= |ops| && At(g.reg, ops, Moment(g, inputs, n)) == GatewayAt(g, inputs, n, true).reg
  {
    hide OpsOf, RunGateway, After;
    OpsPrefix(g, inputs, n, |inputs|);
    assert inputs[..|inputs|] == inputs;
    GatewayIsRegistry(g, inputs[..n]);
    assert OpsOf(g, inputs)[..Moment(g, inputs, n)] == OpsOf(g, inputs[..n]);
  }

  // ----- a stretch of a run

  /** Drivers that are added in the background declare their devices in order. */
  ghost predicate SoundInputs(g: Gateway, inputs: seq<Input>) {
    && RegOk(g.reg) && Listed(g.reg)
    && forall n :: 0 <= n < |inputs| && inputs[n].Background? ==>
         SoundOp(GatewayAt(g, inputs, n, true).reg, inputs[n].op)
  }

  /** The device is there before input i, after input j - 1 and in between. */
  ghost predicate Stays(g: Gateway, inputs: seq<Input>, i: nat, j: nat, id: string)
    requires Listed(g.reg) && i <= j <= |inputs|
  {
    forall n :: i <= n <= j ==> id in GatewayAt(g, inputs, n, true).reg.devices
  }

  /** The input is a command that stores a refused argument in the device. */
  predicate WritesSilently(g: Gateway, input: Input, id: string) {
    match input
    case Background(op) => SilentlyWrites(g.reg, op, id)
    case Arrival(s, e, c) => Runs(g, s, e, c) && SilentlyWrites(g.reg, CommandIn(e, c), id)
  }

  ghost predicate NothingSilentIn(g: Gateway, inputs: seq<Input>, i: nat, j: nat, id: string)
    requires Listed(g.reg) && i <= j <= |inputs|
  {
    forall n :: i <= n < j ==> !WritesSilently(GatewayAt(g, inputs, n, true), inputs[n], id)
  }

  /** The registry at the moments one input takes. */
  lemma InputMoments(g: Gateway, inputs: seq<Input>, n: nat, k: nat)
    requires SoundInputs(g, inputs) && n < |inputs| && Moment(g, inputs, n) <= k < Moment(g, inputs, n + 1)
    ensures var ops, here := OpsOf(g, inputs), GatewayAt(g, inputs, n, true);
      && k < |ops|
      && SoundOp(At(g.reg, ops, k), ops[k])
      && At(g.reg, ops, k + 1).devices == GatewayAt(g, inputs, n + 1, true).reg.devices
      && (forall id :: SilentlyWrites(At(g.reg, ops, k), ops[k], id) ==> WritesSilently(here, inputs[n], id))
  {
    hide OpsOf, RunGateway, RegOk, SilentOp, Runs, LetIn, Step;
    var ops, here := OpsOf(g, inputs), GatewayAt(g, inputs, n, true);
    AtMoment(g, inputs, n);
    AtMoment(g, inputs, n + 1);
    OpsNext(g, inputs, n);
    OpsPrefix(g, inputs, n + 1, |inputs|);
    assert inputs[..|inputs|] == inputs;
    var mine := OpsOfInput(here, inputs[n]);
    assert ops[k] == mine[k - Moment(g, inputs, n)];
    NextAt(g.reg, ops, k);
    hide At;
    DrainNotSilent(At(g.reg, ops, k));
    if |mine| == 2 && k == Moment(g, inputs, n) {
      NextAt(g.reg, ops, k + 1);
      DrainKeepsDevices(At(g.reg, ops, k + 1));
    }
  }

  lemma DrainKeepsDevices(reg: Reg)
    requires Listed(reg)
    ensures Step(reg, Drain).devices == reg.devices
  {
  }

  lemma DrainNotSilent(reg: Reg)
    ensures !SilentOp(reg, Drain)
  {
  }

  /** Which input an operation belongs to. */
  lemma {:induction false} InputOf(g: Gateway, inputs: seq<Input>, i: nat, j: nat, k: nat) returns (n: nat)
    requires Listed(g.reg) && i <= j <= |inputs| && Moment(g, inputs, i) <= k < Moment(g, inputs, j)
    ensures i <= n < j && Moment(g, inputs, n) <= k < Moment(g, inputs, n + 1)
    decreases j
  {
    hide OpsOf, Moment;
    if k >= Moment(g, inputs, j - 1) {
      n := j - 1;
    } else {
      n := InputOf(g, inputs, i, j - 1, k);
    }
  }

  lemma MomentsInOrder(g: Gateway, inputs: seq<Input>, i: nat, j: nat)
    requires Listed(g.reg) && i <= j <= |inputs|
    ensures Moment(g, inputs, i) <= Moment(g, inputs, j) <= |OpsOf(g, inputs)|
  {
    hide OpsOf;
    OpsPrefix(g, inputs, i, j);
    OpsPrefix(g, inputs, j, |inputs|);
    assert inputs[..|inputs|] == inputs;
  }

  lemma RunIsSound(g: Gateway, inputs: seq<Input>)
    requires SoundInputs(g, inputs)
    ensures SoundRun(g.reg, OpsOf(g, inputs))
  {
    hide OpsOf, SoundOp, At, SoundInputs, Moment, RegOk;
    assert Listed(g.reg) by { assert SoundInputs(g, inputs); SoundListed(g, inputs); }
    MomentEnds(g, inputs);
    forall k | 0 <= k < |OpsOf(g, inputs)| ensures SoundOp(At(g.reg, OpsOf(g, inputs), k), OpsOf(g, inputs)[k]) {
      var n := InputOf(g, inputs, 0, |inputs|, k);
      InputMoments(g, inputs, n, k);
    }
  }

  lemma SoundListed(g: Gateway, inputs: seq<Input>)
    requires SoundInputs(g, inputs)
    ensures RegOk(g.reg) && Listed(g.reg)
  {
  }

  lemma MomentEnds(g: Gateway, inputs: seq<Input>)
    requires Listed(g.reg)
    ensures Moment(g, inputs, 0) == 0 && Moment(g, inputs, |inputs|) == |OpsOf(g, inputs)|
  {
    assert inputs[..0] == [] && inputs[..|inputs|] == inputs;
  }

  lemma StretchFits(g: Gateway, inputs: seq<Input>, i: nat, j: nat, id: string)
    requires SoundInputs(g, inputs) && Listed(g.reg) && i <= j <= |inputs| && Stays(g, inputs, i, j, id)
    ensures var ops, lo, hi := OpsOf(g, inputs), Moment(g, inputs, i), Moment(g, inputs, j);
      && lo <= hi <= |ops| && Present(g.reg, ops, lo, hi, id)
      && (NothingSilentIn(g, inputs, i, j, id) ==> NoSilentWrites(g.reg, ops, lo, hi, id))
  {
    hide OpsOf, At, SoundInputs, Moment, RegOk, GatewayAt, WritesSilently, SilentlyWrites, SoundOp;
    var ops, lo, hi := OpsOf(g, inputs), Moment(g, inputs, i), Moment(g, inputs, j);
    MomentsInOrder(g, inputs, i, j);
    AtMoment(g, inputs, i);
    forall k | lo <= k <= hi ensures id in At(g.reg, ops, k).devices {
      if k > lo {
        var n := InputOf(g, inputs, i, j, k - 1);
        InputMoments(g, inputs, n, k - 1);
        assert id in GatewayAt(g, inputs, n + 1, true).reg.devices;
      }
    }
    if NothingSilentIn(g, inputs, i, j, id) {
      forall k | lo <= k < hi ensures !SilentlyWrites(At(g.reg, ops, k), ops[k], id) {
        var n := InputOf(g, inputs, i, j, k);
        InputMoments(g, inputs, n, k);
      }
    }
  }

  // ----- optimistic concurrency through the gateway

  /** Arrival j is a command to a device, not yet answered, that carries an expected version. */
  ghost predicate Expects(g: Gateway, inputs: seq<Input>, j: nat, id: string, version: int)
    requires Listed(g.reg) && j < |inputs|
  {
    && inputs[j].Arrival? && AnsweredAt(g, inputs, j)
    && inputs[j].envelope.header.deviceId == id && id != "scene-away" && id != "scene-home"
    && inputs[j].envelope.header.expected == Some(version)
  }

  lemma UnansweredIsNew(g: Gateway, inputs: seq<Input>, j: nat)
    requires Listed(g.reg) && j < |inputs| && inputs[j].Arrival?
    ensures AnsweredAt(g, inputs, j) <==>
            !Remembered(GatewayAt(g, inputs, j, true), inputs[j].session, inputs[j].envelope, inputs[j].clocks)
  {
    hide GatewayAt;
  }

  /** A command that succeeds with the version of a view its sender saw runs on that very view. */
  lemma RunsOnSeenView(g: Gateway, inputs: seq<Input>, i: nat, j: nat, id: string)
    requires SoundInputs(g, inputs) && Listed(g.reg) && i <= j < |inputs| && Stays(g, inputs, i, j, id)
    requires NothingSilentIn(g, inputs, i, j, id)
    requires id in GatewayAt(g, inputs, i, true).reg.devices && id in GatewayAt(g, inputs, j, true).reg.devices
    requires Expects(g, inputs, j, id, Public(GatewayAt(g, inputs, i, true).reg, id).stateVersion)
    requires ProcessedAt(g, inputs, j).result.success
    ensures Public(GatewayAt(g, inputs, j, true).reg, id) == Public(GatewayAt(g, inputs, i, true).reg, id)
    ensures ProcessedAt(g, inputs, j).result.stateVersion ==
            Some(Public(GatewayAt(g, inputs, i, true).reg, id).stateVersion + 1)
  {
    hide OpsOf, At, SoundInputs, Moment, RegOk, GatewayAt, ProcessCommand, NothingSilentIn, Stays, Remembered, SoundRun;
    UnansweredIsNew(g, inputs, j);
    SoundListed(g, inputs);
    RunIsSound(g, inputs);
    StretchFits(g, inputs, i, j, id);
    AtMoment(g, inputs, i);
    AtMoment(g, inputs, j);
    SuccessMeans(GatewayAt(g, inputs, j, true), inputs[j].session, inputs[j].envelope, inputs[j].clocks);
    VersionNamesView(g.reg, OpsOf(g, inputs), Moment(g, inputs, i), Moment(g, inputs, j), id);
  }

  /** The command is let in, opens, and finds its device online. */
  predicate Conflicts(g: Gateway, input: Input, id: string)
    requires input.Arrival? && id in g.reg.devices
  {
    Runs(g, input.session, input.envelope, input.clocks) && g.reg.devices[id].online
  }

  /** Of the commands that carry the same version of an incarnation at most one succeeds: a later one is answered
      with an error, a conflict if it is let in and the device online, and leaves the devices alone. */
  lemma OneSuccess(g: Gateway, inputs: seq<Input>, first: nat, later: nat, id: string, version: int)
    requires SoundInputs(g, inputs) && Listed(g.reg) && first < later < |inputs|
    requires Stays(g, inputs, first, later, id)
    requires Expects(g, inputs, first, id, version) && Expects(g, inputs, later, id, version)
    requires ProcessedAt(g, inputs, first).result.success
    ensures !ProcessedAt(g, inputs, later).result.success
    ensures ProcessedAt(g, inputs, later).gateway.reg.devices == GatewayAt(g, inputs, later, true).reg.devices
    ensures id in GatewayAt(g, inputs, later, true).reg.devices
    ensures Conflicts(GatewayAt(g, inputs, later, true), inputs[later], id) ==>
              ProcessedAt(g, inputs, later).result.error == Some(StateConflict)
  {
    hide OpsOf, At, SoundInputs, Moment, RegOk, GatewayAt, ProcessCommand, Stays, Remembered, SoundRun, Commanded,
         Runs;
    UnansweredIsNew(g, inputs, later);
    SoundListed(g, inputs);
    VersionPassed(g, inputs, first, later, id, version);
    TurnedAway(GatewayAt(g, inputs, later, true), inputs[later].session, inputs[later].envelope, inputs[later].clocks);
  }

  /** A success under a version raises it for good. */
  lemma VersionPassed(g: Gateway, inputs: seq<Input>, first: nat, later: nat, id: string, version: int)
    requires SoundInputs(g, inputs) && Listed(g.reg) && first < later < |inputs|
    requires Stays(g, inputs, first, later, id) && Expects(g, inputs, first, id, version)
    requires ProcessedAt(g, inputs, first).result.success
    ensures id in GatewayAt(g, inputs, later, true).reg.devices
    ensures GatewayAt(g, inputs, later, true).reg.devices[id].stateVersion > version
  {
    hide OpsOf, At, SoundInputs, Moment, RegOk, GatewayAt, ProcessCommand, Stays, Remembered, SoundRun, Commanded, Next;
    UnansweredIsNew(g, inputs, first);
    SoundListed(g, inputs);
    RunIsSound(g, inputs);
    StaysInside(g, inputs, first, later, id);
    StretchFits(g, inputs, first + 1, later, id);
    AtMoment(g, inputs, first + 1);
    AtMoment(g, inputs, later);
    FirstStep(g, inputs, first);
    SuccessMeans(GatewayAt(g, inputs, first, true), inputs[first].session, inputs[first].envelope,
                 inputs[first].clocks);
    RunMonotone(g.reg, OpsOf(g, inputs), Moment(g, inputs, first + 1), Moment(g, inputs, later), id);
  }

  lemma FirstStep(g: Gateway, inputs: seq<Input>, j: nat)
    requires Listed(g.reg) && j < |inputs| && inputs[j].Arrival?
    ensures Listed(GatewayAt(g, inputs, j, true).reg)
    ensures GatewayAt(g, inputs, j + 1, true) == ProcessedAt(g, inputs, j).gateway
  {
    hide GatewayAt, ProcessCommand;
    NextGatewayAt(g, inputs, j, true);
    NextIsProcessed(GatewayAt(g, inputs, j, true), inputs[j].session, inputs[j].envelope, inputs[j].clocks);
  }

  lemma StaysInside(g: Gateway, inputs: seq<Input>, i: nat, j: nat, id: string)
    requires Listed(g.reg) && i < j <= |inputs| && Stays(g, inputs, i, j, id)
    ensures Stays(g, inputs, i + 1, j, id)
    ensures id in GatewayAt(g, inputs, i + 1, true).reg.devices && id in GatewayAt(g, inputs, j, true).reg.devices
  {
    hide GatewayAt;
  }

  /** A command whose expected version is not the device's never succeeds and leaves the devices alone. */
  lemma TurnedAway(g: Gateway, s: Session, e: Envelope, c: Clocks)
    requires Listed(g.reg) && !Remembered(g, s, e, c) && !ToScene(e) && e.header.deviceId in g.reg.devices
    requires e.header.expected.Some? && e.header.expected.value != g.reg.devices[e.header.deviceId].stateVersion
    ensures !ProcessCommand(g, s, e, c).result.success
    ensures ProcessCommand(g, s, e, c).gateway.reg.devices == g.reg.devices
    ensures Runs(g, s, e, c) && g.reg.devices[e.header.deviceId].online ==>
              ProcessCommand(g, s, e, c).result.error == Some(StateConflict)
  {
    hide ProcessCommand, Remembered, OnTime, NonceSeen;
    if Runs(g, s, e, c) {
      DeviceRefuses(g, s, e, c);
    } else {
      NotRun(g, s, e, c);
    }
  }
}
