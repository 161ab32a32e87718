/**
 * What the two caches guarantee over whole runs, although both of them forget: no envelope runs
 * twice, and forgetting never shows in the devices.  Each guarantee comes with the exact slack
 * between the 300 s memory and the 30 s window.
 */
module Replay {
  import opened Wrappers
  import opened Devices
  import opened Registry
  import opened Operations
  import opened Pipeline
  import Boot
  import Scenes
  import Structure

  // ----- at most once

  /** Input n reaches devices.execute. */
  ghost predicate ReachesAt(g: Gateway, inputs: seq<Input>, n: nat)
    requires Listed(g.reg) && n < |inputs|
  {
    inputs[n].Arrival? &&
    Reaches(Pruned(GatewayAt(g, inputs, n, true), inputs[n].clocks.pruned),
            inputs[n].session, inputs[n].envelope, inputs[n].clocks.wall)
  }

  /** The same envelope under the same credential. */
  predicate Repeats(a: Input, b: Input) {
    a.Arrival? && b.Arrival? && NonceTag(a.session, a.envelope) == NonceTag(b.session, b.envelope)
    && a.envelope.header.timestamp == b.envelope.header.timestamp
  }

  /** Between any two arrivals the wall clock loses at most limit against the monotonic clock. */
  ghost predicate LosesAtMost(inputs: seq<Input>, limit: int) {
    forall i, j :: 0 <= i < j < |inputs| && inputs[i].Arrival? && inputs[j].Arrival? ==>
      (inputs[j].clocks.pruned - inputs[i].clocks.nonced)
      - (inputs[j].clocks.wall - inputs[i].clocks.wall) <= limit
  }

  ghost predicate ExecutesAtMostOnce(g: Gateway, inputs: seq<Input>)
    requires Listed(g.reg)
  {
    forall i, j :: 0 <= i < j < |inputs| && Repeats(inputs[i], inputs[j]) ==>
      !(ReachesAt(g, inputs, i) && ReachesAt(g, inputs, j))
  }

  /** Some arrival between i and n prunes everything stored when input i was handled. */
  ghost predicate PrunedSince(inputs: seq<Input>, i: nat, n: nat)
    requires i < n <= |inputs| && inputs[i].Arrival?
  {
    exists k :: i < k < n && inputs[k].Arrival?
      && inputs[k].clocks.pruned - 300_000 > inputs[i].clocks.nonced
  }

  /** What a handled command does to the nonces. */
  lemma HandledNonces(g: Gateway, s: Session, e: Envelope, c: Clocks)
    requires Listed(g.reg)
    ensures Handled(g, s, e, c).gateway.nonces ==
            if Admitted(g, s, e, c.wall) then g.nonces[NonceTag(s, e) := c.nonced] else g.nonces
  {
  }

  lemma {:induction false} NonceRemembered(g: Gateway, inputs: seq<Input>, i: nat, n: nat)
    requires Listed(g.reg) && ClocksOrdered(inputs)
    requires i < n <= |inputs| && ReachesAt(g, inputs, i)
    ensures var tag := NonceTag(inputs[i].session, inputs[i].envelope);
            var nonces := GatewayAt(g, inputs, n, true).nonces;
      || (tag in nonces && nonces[tag] >= inputs[i].clocks.nonced)
      || PrunedSince(inputs, i, n)
    decreases n
  {
    hide GatewayAt, Handled, Carried;
    var before := GatewayAt(g, inputs, n - 1, true);
    NextGatewayAt(g, inputs, n - 1, true);
    if inputs[n - 1].Arrival? {
      var c := inputs[n - 1].clocks;
      HandledNonces(Pruned(before, c.pruned), inputs[n - 1].session, inputs[n - 1].envelope, c);
    }
    if i < n - 1 {
      NonceRemembered(g, inputs, i, n - 1);
    }
  }

  /** With at most 240 s of loss no envelope reaches the devices twice. */
  lemma AtMostOnce(g: Gateway, inputs: seq<Input>, limit: int)
    requires Listed(g.reg) && ClocksOrdered(inputs) && LosesAtMost(inputs, limit)
    requires limit <= 240_000
    ensures ExecutesAtMostOnce(g, inputs)
  {
    hide Handled, Carried;
    forall i, j | 0 <= i < j < |inputs| && Repeats(inputs[i], inputs[j])
      ensures !(ReachesAt(g, inputs, i) && ReachesAt(g, inputs, j))
    {
      if ReachesAt(g, inputs, i) {
        NonceRemembered(g, inputs, i, j);
      }
    }
  }

  function ReplayedEnvelope(): Envelope {
    var header := Header("message", "scene-away", 30_000, "executeAway", None);
    Envelope(header, "nonce", Sealed("key", "nonce", header, Object(map[])))
  }

  /** One envelope, sent as far ahead as the window allows and again when its nonce has just been
      forgotten, while the wall clock has advanced by no more than the two windows. */
  function ReplayRun(): seq<Input> {
    var s := Session("credential", "key");
    [Arrival(s, ReplayedEnvelope(), Clocks(0, 0, 0, 0)),
     Arrival(s, ReplayedEnvelope(),
             Clocks(300_001, 60_000,
                    300_001, 300_001))]
  }

  lemma ReplayExample(reg: Reg)
    requires Listed(reg)
    ensures ClocksOrdered(ReplayRun())
    ensures LosesAtMost(ReplayRun(), 240_001)
    ensures !ExecutesAtMostOnce(Fresh(reg), ReplayRun())
  {
    var inputs := ReplayRun();
    var g := Fresh(reg);
    var s, e := inputs[0].session, inputs[0].envelope;
    assert inputs[..0] == [];
    assert ReachesAt(g, inputs, 0);
    NextGatewayAt(g, inputs, 0, true);
    var middle := GatewayAt(g, inputs, 1, true);
    OneHandled(Pruned(g, 0), s, e, inputs[0].clocks);
    hide Handled, Carried;
    assert MessageTag(s, e) !in Pruned(middle, inputs[1].clocks.pruned).results;
    assert NonceTag(s, e) !in Pruned(middle, inputs[1].clocks.pruned).nonces;
    assert ReachesAt(g, inputs, 1);
    assert Repeats(inputs[0], inputs[1]);
  }

  /** The cache entries an admitted command leaves carry the readings of that call. */
  lemma OneHandled(g: Gateway, s: Session, e: Envelope, c: Clocks)
    requires Listed(g.reg) && Admitted(g, s, e, c.wall)
    ensures var after := Handled(g, s, e, c).gateway;
      && after.nonces == g.nonces[NonceTag(s, e) := c.nonced]
      && MessageTag(s, e) in after.results
      && after.results == g.results[MessageTag(s, e) := Cached(c.stored, after.results[MessageTag(s, e)].result)]
  {
  }

  lemma LooserLoss(inputs: seq<Input>, a: int, b: int)
    requires LosesAtMost(inputs, a) && a <= b
    ensures LosesAtMost(inputs, b)
  {
  }

  /**
   * At most once, exactly: every run whose wall clock never loses more than limit executes each
   * envelope at most once if and only if limit is at most 240 s.
   */
  lemma AtMostOnceThreshold(limit: int)
    ensures (forall g: Gateway, inputs: seq<Input> ::
               Listed(g.reg) && ClocksOrdered(inputs) && LosesAtMost(inputs, limit) ==>
                 ExecutesAtMostOnce(g, inputs))
            <==> limit <= 240_000
  {
    if limit <= 240_000 {
      forall g: Gateway, inputs: seq<Input> |
        Listed(g.reg) && ClocksOrdered(inputs) && LosesAtMost(inputs, limit)
        ensures ExecutesAtMostOnce(g, inputs)
      {
        AtMostOnce(g, inputs, limit);
      }
    } else {
      assert Listed(Boot.EMPTY);
      ReplayExample(Boot.EMPTY);
      LooserLoss(ReplayRun(), 240_001, limit);
      assert !ExecutesAtMostOnce(Fresh(Boot.EMPTY), ReplayRun());
    }
  }

  // ----- repeats of a cached message

  /** Input n is answered from the registry or by a refusal, and its answer is then cached. */
  ghost predicate AnsweredAt(g: Gateway, inputs: seq<Input>, n: nat)
    requires Listed(g.reg) && n < |inputs| && inputs[n].Arrival?
  {
    MessageTag(inputs[n].session, inputs[n].envelope) !in
      Pruned(GatewayAt(g, inputs, n, true), inputs[n].clocks.pruned).results
  }

  ghost function ProcessedAt(g: Gateway, inputs: seq<Input>, n: nat): Processed
    requires Listed(g.reg) && n < |inputs| && inputs[n].Arrival?
  {
    ProcessCommand(GatewayAt(g, inputs, n, true), inputs[n].session, inputs[n].envelope, inputs[n].clocks)
  }

  lemma HandledResults(g: Gateway, s: Session, e: Envelope, c: Clocks)
    requires Listed(g.reg)
    ensures var p := Handled(g, s, e, c);
      && MessageTag(s, e) in p.gateway.results
      && p.gateway.results[MessageTag(s, e)].result == p.result
      && (MessageTag(s, e) in g.results ==> p.gateway == g && p.events == []
                                            && p.result == g.results[MessageTag(s, e)].result)
      && (MessageTag(s, e) !in g.results ==>
            p.gateway.results == g.results[MessageTag(s, e) := Cached(c.stored, p.result)])
  {
  }

  lemma {:induction false} ResultRemembered(g: Gateway, inputs: seq<Input>, i: nat, n: nat)
    requires Listed(g.reg) && ClocksOrdered(inputs)
    requires i < n <= |inputs| && inputs[i].Arrival? && AnsweredAt(g, inputs, i)
    requires forall k :: i < k < n && inputs[k].Arrival? ==>
               inputs[k].clocks.pruned <= inputs[i].clocks.stored + 300_000
    ensures var tag := MessageTag(inputs[i].session, inputs[i].envelope);
            var results := GatewayAt(g, inputs, n, true).results;
      tag in results && results[tag] == Cached(inputs[i].clocks.stored, ProcessedAt(g, inputs, i).result)
    decreases n
  {
    hide Handled, Carried;
    NextGatewayAt(g, inputs, n - 1, true);
    if inputs[n - 1].Arrival? {
      var start := Pruned(GatewayAt(g, inputs, n - 1, true), inputs[n - 1].clocks.pruned);
      HandledResults(start, inputs[n - 1].session, inputs[n - 1].envelope, inputs[n - 1].clocks);
    }
    if i < n - 1 {
      ResultRemembered(g, inputs, i, n - 1);
    }
  }

  /** While the first answer is less than five minutes old a message id is answered with exactly that
      answer, whatever envelope carries it; nothing else happens. */
  lemma RepeatGetsFirstAnswer(g: Gateway, inputs: seq<Input>, i: nat, j: nat)
    requires Listed(g.reg) && ClocksOrdered(inputs)
    requires i < j < |inputs| && inputs[i].Arrival? && inputs[j].Arrival? && AnsweredAt(g, inputs, i)
    requires MessageTag(inputs[i].session, inputs[i].envelope) ==
             MessageTag(inputs[j].session, inputs[j].envelope)
    requires inputs[j].clocks.pruned <= inputs[i].clocks.stored + 300_000
    ensures ProcessedAt(g, inputs, j).result == ProcessedAt(g, inputs, i).result
    ensures ProcessedAt(g, inputs, j).events == []
    ensures ProcessedAt(g, inputs, j).gateway.reg == GatewayAt(g, inputs, j, true).reg
  {
    forall k | i < k < j && inputs[k].Arrival?
      ensures inputs[k].clocks.pruned <= inputs[i].clocks.stored + 300_000
    {
      assert inputs[k].clocks.stored <= inputs[j].clocks.pruned;
    }
    ResultRemembered(g, inputs, i, j);
    hide Handled, Carried;
    HandledResults(Pruned(GatewayAt(g, inputs, j, true), inputs[j].clocks.pruned),
                   inputs[j].session, inputs[j].envelope, inputs[j].clocks);
  }

  // ----- pruning is invisible to the devices

  /** A message id, or a nonce, names one envelope of one session. */
  ghost predicate WellNamed(inputs: seq<Input>) {
    forall i, j :: 0 <= i < |inputs| && 0 <= j < |inputs| && inputs[i].Arrival? && inputs[j].Arrival? ==>
      (MessageTag(inputs[i].session, inputs[i].envelope) == MessageTag(inputs[j].session, inputs[j].envelope)
       || NonceTag(inputs[i].session, inputs[i].envelope) == NonceTag(inputs[j].session, inputs[j].envelope))
      ==> inputs[i].envelope == inputs[j].envelope && inputs[i].session == inputs[j].session
  }

  /** The two clocks advance together: the wall reading of a call is taken between two monotonic
      readings and differs from that moment by a fixed offset. */
  ghost predicate ClocksTogether(inputs: seq<Input>, offset: int) {
    ClocksOrdered(inputs) &&
    forall i :: 0 <= i < |inputs| && inputs[i].Arrival? ==>
      inputs[i].clocks.pruned <= inputs[i].clocks.wall - offset <= inputs[i].clocks.nonced
  }

  /** No timestamp is more than ahead in the future of an arrival.  Arrivals follow each other, so it
      is enough that this holds of the first arrival of each envelope. */
  ghost predicate AheadAtMost(inputs: seq<Input>, ahead: int) {
    forall i :: 0 <= i < |inputs| && inputs[i].Arrival? ==>
      inputs[i].envelope.header.timestamp - inputs[i].clocks.wall <= ahead
  }

  ghost predicate PruningInvisible(g: Gateway, inputs: seq<Input>)
    requires Listed(g.reg)
  {
    forall n :: 0 <= n <= |inputs| ==>
      GatewayAt(g, inputs, n, true).reg == GatewayAt(g, inputs, n, false).reg
  }

  predicate Tagged(input: Input, tags: set<Tag>) {
    input.Arrival? && MessageTag(input.session, input.envelope) in tags
  }

  predicate Nonced(input: Input, tags: set<Tag>) {
    input.Arrival? && NonceTag(input.session, input.envelope) in tags
  }

  /** The forgetting gateway p and the remembering gateway f before input n. */
  ghost predicate Linked(p: Gateway, f: Gateway, inputs: seq<Input>, n: nat, offset: int, ahead: int) {
    && p.reg == f.reg
    && p.results.Keys <= f.results.Keys && p.nonces.Keys <= f.nonces.Keys
    && (forall j :: 0 <= j < |inputs| && Tagged(inputs[j], p.results.Keys) ==>
          inputs[j].envelope.header.timestamp <=
            p.results[MessageTag(inputs[j].session, inputs[j].envelope)].at + offset + ahead)
    && (forall j :: n <= j < |inputs| && Tagged(inputs[j], f.results.Keys - p.results.Keys) ==>
          inputs[j].clocks.wall > inputs[j].envelope.header.timestamp + 30_000)
    && (forall j :: 0 <= j < |inputs| && Nonced(inputs[j], f.nonces.Keys) ==>
          Tagged(inputs[j], f.results.Keys))
  }

  /** Forgetting an entry means that its message, if it ever comes again, comes too late. */
  lemma PrunedStaysLinked(p: Gateway, f: Gateway, inputs: seq<Input>, n: nat, offset: int, ahead: int)
    requires n < |inputs| && inputs[n].Arrival?
    requires ClocksTogether(inputs, offset) && ahead <= 270_000
    requires Linked(p, f, inputs, n, offset, ahead)
    ensures Linked(Pruned(p, inputs[n].clocks.pruned), f, inputs, n, offset, ahead)
  {
    var q := Pruned(p, inputs[n].clocks.pruned);
    forall j | n <= j < |inputs| && Tagged(inputs[j], f.results.Keys - q.results.Keys)
      ensures inputs[j].clocks.wall > inputs[j].envelope.header.timestamp + 30_000
    {
      assert inputs[n].clocks.pruned <= inputs[j].clocks.pruned;
      if Tagged(inputs[j], p.results.Keys) {
        assert p.results[MessageTag(inputs[j].session, inputs[j].envelope)].at
               < inputs[n].clocks.pruned - 300_000;
      }
    }
  }

  /** The three ways a command is handled, as far as the caches and the registry go. */
  lemma HandledCases(g: Gateway, s: Session, e: Envelope, c: Clocks)
    requires Listed(g.reg)
    ensures var after := Handled(g, s, e, c).gateway;
      && (MessageTag(s, e) in g.results ==> after == g)
      && (MessageTag(s, e) !in g.results ==>
            && after.results.Keys == g.results.Keys + {MessageTag(s, e)}
            && after.results == g.results[MessageTag(s, e) := after.results[MessageTag(s, e)]]
            && after.results[MessageTag(s, e)].at == c.stored)
      && (!Admitted(g, s, e, c.wall) ==> after.reg == g.reg && after.nonces == g.nonces)
      && (Admitted(g, s, e, c.wall) ==>
            && after.reg == DrainAlerts(Carried(g.reg, s, e, c.wall).happened.reg)
            && after.nonces == g.nonces[NonceTag(s, e) := c.nonced])
  {
  }

  lemma HandledStaysLinked(p: Gateway, f: Gateway, inputs: seq<Input>, n: nat, offset: int, ahead: int)
    requires n < |inputs| && inputs[n].Arrival? && Listed(p.reg) && Listed(f.reg)
    requires WellNamed(inputs) && ClocksTogether(inputs, offset) && AheadAtMost(inputs, ahead)
    requires Linked(p, f, inputs, n, offset, ahead)
    ensures var s, e, c := inputs[n].session, inputs[n].envelope, inputs[n].clocks;
      Linked(Handled(p, s, e, c).gateway, Handled(f, s, e, c).gateway, inputs, n + 1, offset, ahead)
  {
    hide Handled, Carried, DrainAlerts, ClocksOrdered;
    var s, e, c := inputs[n].session, inputs[n].envelope, inputs[n].clocks;
    HandledCases(p, s, e, c);
    HandledCases(f, s, e, c);
    var tag := MessageTag(s, e);
    var p1, f1 := Handled(p, s, e, c).gateway, Handled(f, s, e, c).gateway;
    assert c.stored >= c.wall - offset by { ReadingsOfOne(inputs, n, offset); }
    if tag in f.results {
      if tag !in p.results { assert Tagged(inputs[n], f.results.Keys - p.results.Keys); }
    } else {
      assert Nonced(inputs[n], f.nonces.Keys) ==> Tagged(inputs[n], f.results.Keys);
      assert Admitted(p, s, e, c.wall) <==> Admitted(f, s, e, c.wall);
    }
    assert p1.reg == f1.reg;
    forall j | 0 <= j < |inputs| && Tagged(inputs[j], p1.results.Keys)
      ensures inputs[j].envelope.header.timestamp <=
                p1.results[MessageTag(inputs[j].session, inputs[j].envelope)].at + offset + ahead
    {
      if MessageTag(inputs[j].session, inputs[j].envelope) == tag {
        assert inputs[j].envelope == e;
      }
    }
    forall j | 0 <= j < |inputs| && Nonced(inputs[j], f1.nonces.Keys)
      ensures Tagged(inputs[j], f1.results.Keys)
    {
      if NonceTag(inputs[j].session, inputs[j].envelope) == NonceTag(s, e) {
        assert inputs[j].envelope == e;
      }
    }
  }

  lemma ReadingsOfOne(inputs: seq<Input>, n: nat, offset: int)
    requires n < |inputs| && inputs[n].Arrival? && ClocksTogether(inputs, offset)
    ensures inputs[n].clocks.pruned <= inputs[n].clocks.wall - offset <= inputs[n].clocks.stored
  {
  }

  lemma {:induction false} RunStaysLinked(g: Gateway, inputs: seq<Input>, n: nat, offset: int, ahead: int)
    requires Listed(g.reg) && g.results == map[] && g.nonces == map[] && n <= |inputs|
    requires WellNamed(inputs) && ClocksTogether(inputs, offset) && AheadAtMost(inputs, ahead)
    requires ahead <= 270_000
    ensures Linked(GatewayAt(g, inputs, n, true), GatewayAt(g, inputs, n, false), inputs, n, offset, ahead)
    decreases n
  {
    if n > 0 {
      RunStaysLinked(g, inputs, n - 1, offset, ahead);
      NextGatewayAt(g, inputs, n - 1, true);
      NextGatewayAt(g, inputs, n - 1, false);
      var p, f := GatewayAt(g, inputs, n - 1, true), GatewayAt(g, inputs, n - 1, false);
      hide Handled, GatewayAt, Step, WellNamed, ClocksTogether, AheadAtMost;
      if inputs[n - 1].Arrival? {
        PrunedStaysLinked(p, f, inputs, n - 1, offset, ahead);
        HandledStaysLinked(Pruned(p, inputs[n - 1].clocks.pruned), f, inputs, n - 1, offset, ahead);
      }
    }
  }

  lemma PruningIsInvisible(reg: Reg, inputs: seq<Input>, offset: int, ahead: int)
    requires Listed(reg)
    requires WellNamed(inputs) && ClocksTogether(inputs, offset) && AheadAtMost(inputs, ahead)
    requires ahead <= 270_000
    ensures PruningInvisible(Fresh(reg), inputs)
  {
    forall n | 0 <= n <= |inputs|
      ensures GatewayAt(Fresh(reg), inputs, n, true).reg == GatewayAt(Fresh(reg), inputs, n, false).reg
    {
      RunStaysLinked(Fresh(reg), inputs, n, offset, ahead);
    }
  }

  function EarlyEnvelope(ahead: int): Envelope {
    var header := Header("message", "ac-living-01", ahead, "setPower", None);
    Envelope(header, "nonce", Sealed("key", "nonce", header, Object(map["power" := BoolV(true)])))
  }

  /** A command stamped too far ahead is refused; five minutes later the refusal is forgotten and the
      command is on time. */
  function EarlyRun(ahead: int): seq<Input> {
    var s := Session("credential", "key");
    var later := 300_001;
    [Arrival(s, EarlyEnvelope(ahead), Clocks(0, 0, 0, 0)),
     Arrival(s, EarlyEnvelope(ahead), Clocks(later, later, later, later))]
  }

  const TOO_EARLY := 270_001

  /** Switching on a ready air conditioner raises its version. */
  lemma SwitchingOn(reg: Reg, e: Envelope, wall: int)
    requires Structure.RegOk(reg)
    requires Scenes.Commandable(reg.devices["ac-living-01"])
    requires Opened("key", e) == Some(map["power" := BoolV(true)])
    requires e.header.deviceId == "ac-living-01" && e.header.action == "setPower" && e.header.expected.None?
    ensures Listed(reg)
    ensures Carried(reg, Session("credential", "key"), e, wall).happened.reg != reg
    ensures DrainAlerts(Carried(reg, Session("credential", "key"), e, wall).happened.reg) != reg
  {
    assert Structure.DeviceFits(reg, "ac-living-01");
    var after := Carried(reg, Session("credential", "key"), e, wall).happened.reg;
    assert after.devices["ac-living-01"].stateVersion == reg.devices["ac-living-01"].stateVersion + 1;
  }

  lemma EarlyFirst(g: Gateway)
    requires Listed(g.reg) && g.results == map[] && g.nonces == map[]
    ensures var inputs := EarlyRun(TOO_EARLY);
            var p, f := GatewayAt(g, inputs, 1, true), GatewayAt(g, inputs, 1, false);
            var tag := MessageTag(inputs[0].session, inputs[0].envelope);
      && p.reg == g.reg && f.reg == g.reg && tag in f.results
      && p.results.Keys == {tag} && p.results[tag].at == 0 && p.nonces == map[]
  {
    hide Handled, Carried, Step;
    var inputs := EarlyRun(TOO_EARLY);
    var s, e, c := inputs[0].session, inputs[0].envelope, inputs[0].clocks;
    assert inputs[..0] == [];
    NextGatewayAt(g, inputs, 0, true);
    NextGatewayAt(g, inputs, 0, false);
    HandledCases(Pruned(g, 0), s, e, c);
    HandledCases(g, s, e, c);
  }

  lemma EarlySecond(g: Gateway)
    requires Structure.RegOk(g.reg) && Scenes.Commandable(g.reg.devices["ac-living-01"])
    requires Listed(g.reg) && g.results == map[] && g.nonces == map[]
    ensures var inputs := EarlyRun(TOO_EARLY);
      GatewayAt(g, inputs, 2, true).reg != GatewayAt(g, inputs, 2, false).reg
  {
    hide Step, Carried, GatewayAt;
    var inputs := EarlyRun(TOO_EARLY);
    var s, e, c := inputs[1].session, inputs[1].envelope, inputs[1].clocks;
    SwitchingOn(g.reg, e, c.wall);
    hide Handled, Structure.RegOk, DrainAlerts;
    EarlyFirst(g);
    NextGatewayAt(g, inputs, 1, true);
    NextGatewayAt(g, inputs, 1, false);
    var p, f := GatewayAt(g, inputs, 1, true), GatewayAt(g, inputs, 1, false);
    HandledCases(Pruned(p, c.pruned), s, e, c);
    HandledCases(f, s, e, c);
    assert MessageTag(s, e) !in Pruned(p, c.pruned).results;
    assert Admitted(Pruned(p, c.pruned), s, e, c.wall);
  }

  lemma EarlyRunShows(now: int)
    ensures Listed(Boot.Initial(now))
    ensures !PruningInvisible(Fresh(Boot.Initial(now)), EarlyRun(TOO_EARLY))
  {
    Boot.BootOk(now);
    Boot.InitialAirConditioner(now);
    hide Boot.Initial, Boot.Booted, Structure.RegOk, Boot.DefaultDrivers, GatewayAt;
    Structure.RegOkListed(Boot.Initial(now));
    EarlySecond(Fresh(Boot.Initial(now)));
  }

  lemma EarlyRunIsFair()
    ensures WellNamed(EarlyRun(TOO_EARLY)) && ClocksTogether(EarlyRun(TOO_EARLY), 0)
    ensures AheadAtMost(EarlyRun(TOO_EARLY), TOO_EARLY)
  {
  }

  lemma LooserAhead(inputs: seq<Input>, a: int, b: int)
    requires AheadAtMost(inputs, a) && a <= b
    ensures AheadAtMost(inputs, b)
  {
  }

  /**
   * Forgetting is invisible, exactly: with clocks that advance together and names that are not
   * reused, the registry of the gateway equals at every moment that of a gateway whose caches are
   * never pruned, over all runs with timestamps at most ahead in the future, if and only if ahead is
   * at most 270 s.
   */
  lemma PruningThreshold(ahead: int)
    ensures (forall reg: Reg, inputs: seq<Input>, offset: int ::
               Listed(reg) && WellNamed(inputs) && ClocksTogether(inputs, offset) && AheadAtMost(inputs, ahead)
               ==> PruningInvisible(Fresh(reg), inputs))
            <==> ahead <= 270_000
  {
    if ahead <= 270_000 {
      forall reg: Reg, inputs: seq<Input>, offset: int |
        Listed(reg) && WellNamed(inputs) && ClocksTogether(inputs, offset) && AheadAtMost(inputs, ahead)
        ensures PruningInvisible(Fresh(reg), inputs)
      {
        PruningIsInvisible(reg, inputs, offset, ahead);
      }
    } else {
      EarlyRunShows(0);
      EarlyRunIsFair();
      LooserAhead(EarlyRun(TOO_EARLY), TOO_EARLY, ahead);
    }
  }
}
