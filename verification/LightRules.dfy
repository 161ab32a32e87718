/**
 * Automatic lighting: when a tick may switch a light, told from the light's history alone.
 */
module LightRules {
  import opened Wrappers
  import opened Devices
  import opened Registry
  import opened Operations
  import opened Scenes
  import opened Traces
  import opened Structure
  import opened Versions

  function ActTime(a: Act): int {
    a.now
  }

  ghost predicate InTimeOrder(acts: seq<Act>) {
    forall i, j :: 0 <= i <= j < |acts| ==> ActTime(acts[i]) <= ActTime(acts[j])
  }

  /** The device before act n, or after the last act. */
  function Before(d: Device, acts: seq<Act>, n: nat): Device
    requires n <= |acts|
  {
    DoAll(d, acts[..n])
  }

  lemma NextAct(d: Device, acts: seq<Act>, n: nat)
    requires n < |acts|
    ensures Before(d, acts, n + 1) == Do(Before(d, acts, n), acts[n])
  {
    assert acts[..n + 1][..n] == acts[..n];
  }

  lemma {:induction false} StaysLight(d: Device, acts: seq<Act>, n: nat)
    requires d.body.Light? && BodyOk(d.body) && n <= |acts|
    ensures Before(d, acts, n).body.Light? && BodyOk(Before(d, acts, n).body)
  {
    DoAllOk(d, acts[..n]);
  }

  predicate Obeyed(d: Device, a: Act, actions: set<string>) {
    a.CommandAct? && a.action in actions && Commanded(d, a.action, a.payload, a.expected, a.now).error.None?
  }

  const MANUAL: set<string> := {"setPower", "setBrightness"}
  const RECONFIGURE: set<string> := {"setAutomationConfig"}

  /** The tick gets as far as the presence rule. */
  predicate Consults(d: Device, a: Act)
    requires d.body.Light?
  {
    && a.TickAct? && d.online && d.body.automation.enabled
    && a.around.sensor.Some? && a.around.sensor.value.online
    && (d.body.automation.manualOverrideUntil.Some? ==> a.now >= d.body.automation.manualOverrideUntil.value)
  }

  predicate SeesDarkPresence(d: Device, a: Act)
    requires d.body.Light?
  {
    Consults(d, a) && a.around.sensor.value.presence
    && a.around.sensor.value.lux < d.body.automation.thresholdLux as real
  }

  predicate SeesAbsence(d: Device, a: Act)
    requires d.body.Light?
  {
    Consults(d, a) && !a.around.sensor.value.presence
  }

  // ----- what one act does

  lemma LightAct(d: Device, a: Act)
    requires d.body.Light? && BodyOk(d.body)
    ensures var e := Do(d, a);
      && e.body.Light?
      && (Obeyed(d, a, MANUAL) ==>
            e.body.automation == d.body.automation.(manualOverrideUntil := Some(a.now + 300_000))
            && e.body.noPresenceSince == d.body.noPresenceSince)
      && (Obeyed(d, a, RECONFIGURE) ==> e.body.noPresenceSince.None?)
      && (!Obeyed(d, a, MANUAL) && !Obeyed(d, a, RECONFIGURE) ==> e.body.automation == d.body.automation)
      && (!Obeyed(d, a, RECONFIGURE) && !SeesDarkPresence(d, a)
          && !(SeesAbsence(d, a) && d.body.noPresenceSince.None?) ==>
            e.body.noPresenceSince == d.body.noPresenceSince)
      && (SeesDarkPresence(d, a) ==> e.body.noPresenceSince.None?)
      && (SeesAbsence(d, a) && d.body.noPresenceSince.None? ==> e.body.noPresenceSince == Some(a.now))
  {
  }

  lemma LightTickPower(d: Device, a: Act)
    requires d.body.Light? && BodyOk(d.body) && a.TickAct?
    ensures var e := Do(d, a);
      && e.body.Light?
      && (!Consults(d, a) ==> e == d)
      && (e.body.power && !d.body.power <==> SeesDarkPresence(d, a) && !d.body.power)
      && (e.body.power && !d.body.power ==> e.body.brightness == d.body.lastNonZero)
      && (!e.body.power && d.body.power <==>
            SeesAbsence(d, a) && d.body.power && d.body.noPresenceSince.Some?
            && a.now - d.body.noPresenceSince.value >= 1000 * d.body.automation.noPresenceDelaySeconds)
  {
  }

  // ----- manual override

  ghost predicate NoneBetween(d: Device, acts: seq<Act>, i: nat, n: nat, actions: set<string>)
    requires n <= |acts|
  {
    forall k :: i < k < n ==> !Obeyed(Before(d, acts, k), acts[k], actions)
  }

  lemma OverrideMoves(d: Device, a: Act)
    requires d.body.Light? && BodyOk(d.body)
    ensures Do(d, a).body.Light?
    ensures var until := Do(d, a).body.automation.manualOverrideUntil;
      && (Obeyed(d, a, MANUAL) ==> until == Some(a.now + 300_000))
      && (!Obeyed(d, a, MANUAL) && !Obeyed(d, a, RECONFIGURE) ==> until == d.body.automation.manualOverrideUntil)
  {
    hide Do, Obeyed, SeesDarkPresence, SeesAbsence, BodyOk;
    LightAct(d, a);
  }

  lemma {:induction false} OverrideLasts(d: Device, acts: seq<Act>, i: nat, n: nat)
    requires d.body.Light? && BodyOk(d.body) && InTimeOrder(acts)
    requires i < n <= |acts| && Obeyed(Before(d, acts, i), acts[i], MANUAL)
    requires NoneBetween(d, acts, i, n, RECONFIGURE)
    ensures var b := Before(d, acts, n).body;
      b.Light? && b.automation.manualOverrideUntil.Some?
      && b.automation.manualOverrideUntil.value >= acts[i].now + 300_000
    decreases n
  {
    hide Do, Obeyed, BodyOk;
    StaysLight(d, acts, n - 1);
    NextAct(d, acts, n - 1);
    var before, last := Before(d, acts, n - 1), acts[n - 1];
    hide Before;
    if i < n - 1 {
      OverrideLasts(d, acts, i, n - 1);
      assert ActTime(acts[i]) <= ActTime(last);
      OverrideMoves(before, last);
    } else {
      OverrideMoves(before, last);
    }
  }

  /** For five minutes after a successful manual command no tick touches the light at all, unless its
      automation is reconfigured. */
  lemma ManualCommandRules(d: Device, acts: seq<Act>, i: nat, j: nat)
    requires d.body.Light? && BodyOk(d.body) && InTimeOrder(acts)
    requires i < j < |acts| && Obeyed(Before(d, acts, i), acts[i], MANUAL)
    requires NoneBetween(d, acts, i, j, RECONFIGURE)
    requires acts[j].TickAct? && acts[j].now < acts[i].now + 300_000
    ensures Before(d, acts, j + 1) == Before(d, acts, j)
  {
    OverrideLasts(d, acts, i, j);
    StaysLight(d, acts, j);
    NextAct(d, acts, j);
    LightTickPower(Before(d, acts, j), acts[j]);
  }

  // ----- switching off

  ghost predicate AbsentSince(d: Device, acts: seq<Act>, i: nat, n: nat)
    requires i < n <= |acts| && d.body.Light? && BodyOk(d.body)
  {
    (forall k :: 0 <= k <= n ==> Before(d, acts, k).body.Light?) &&
    SeesAbsence(Before(d, acts, i), acts[i])
    && (forall k :: i < k < n ==> !SeesDarkPresence(Before(d, acts, k), acts[k])
                                  && !Obeyed(Before(d, acts, k), acts[k], RECONFIGURE))
  }

  lemma AllLight(d: Device, acts: seq<Act>, n: nat)
    requires d.body.Light? && BodyOk(d.body) && n <= |acts|
    ensures forall k :: 0 <= k <= n ==> Before(d, acts, k).body.Light? && BodyOk(Before(d, acts, k).body)
  {
    forall k | 0 <= k <= n ensures Before(d, acts, k).body.Light? && BodyOk(Before(d, acts, k).body) {
      StaysLight(d, acts, k);
    }
  }

  lemma AbsentStarts(d: Device, acts: seq<Act>, i: nat)
    requires i < |acts| && d.body.Light? && BodyOk(d.body) && Before(d, acts, i).body.Light?
    requires SeesAbsence(Before(d, acts, i), acts[i])
    ensures AbsentSince(d, acts, i, i + 1)
  {
    AllLight(d, acts, i + 1);
  }

  lemma AbsentExtends(d: Device, acts: seq<Act>, i: nat, n: nat)
    requires i < n < |acts| && d.body.Light? && BodyOk(d.body) && AbsentSince(d, acts, i, n)
    requires !SeesDarkPresence(Before(d, acts, n), acts[n]) && !Obeyed(Before(d, acts, n), acts[n], RECONFIGURE)
    ensures AbsentSince(d, acts, i, n + 1)
  {
    hide Before, SeesDarkPresence, Obeyed, SeesAbsence;
    AllLight(d, acts, n + 1);
  }

  /** The stored moment is that of a sighting of absence with no dark presence since. */
  lemma {:induction false} StoredAbsence(d: Device, acts: seq<Act>, n: nat) returns (i: nat)
    requires d.body.Light? && BodyOk(d.body) && d.body.noPresenceSince.None? && n <= |acts|
    requires Before(d, acts, n).body.Light? && Before(d, acts, n).body.noPresenceSince.Some?
    ensures i < n && AbsentSince(d, acts, i, n)
    ensures Before(d, acts, n).body.noPresenceSince.value == acts[i].now
    decreases n
  {
    i := 0;
    if n > 0 {
      hide Do, BodyOk, SeesAbsence, SeesDarkPresence, Obeyed, AbsentSince, Before;
      NextAct(d, acts, n - 1);
      StaysLight(d, acts, n - 1);
      var before := Before(d, acts, n - 1);
      LightAct(before, acts[n - 1]);
      if SeesAbsence(before, acts[n - 1]) && before.body.noPresenceSince.None? {
        i := n - 1;
        AbsentStarts(d, acts, i);
      } else {
        i := StoredAbsence(d, acts, n - 1);
        AbsentExtends(d, acts, i, n - 1);
      }
    }
  }

  /** A sighting of absence, once stored, stays until dark presence is seen. */
  lemma {:induction false} AbsenceStored(d: Device, acts: seq<Act>, i: nat, n: nat)
    requires d.body.Light? && BodyOk(d.body) && InTimeOrder(acts)
    requires d.body.noPresenceSince.None? || (|acts| > 0 ==> d.body.noPresenceSince.value <= acts[0].now)
    requires i < n <= |acts| && AbsentSince(d, acts, i, n)
    ensures var b := Before(d, acts, n).body;
      b.Light? && b.noPresenceSince.Some? && b.noPresenceSince.value <= acts[i].now
    decreases n
  {
    hide Before;
    hide Do;
    AllLight(d, acts, n);
    NextAct(d, acts, n - 1);
    LightAct(Before(d, acts, n - 1), acts[n - 1]);
    if i < n - 1 {
      AbsenceStored(d, acts, i, n - 1);
    } else {
      StoredInPast(d, acts, i);
    }
  }

  lemma {:induction false} StoredInPast(d: Device, acts: seq<Act>, n: nat)
    requires d.body.Light? && BodyOk(d.body) && InTimeOrder(acts) && n < |acts|
    requires d.body.noPresenceSince.None? || d.body.noPresenceSince.value <= acts[0].now
    ensures var b := Before(d, acts, n).body;
      b.Light? && (b.noPresenceSince.Some? ==> b.noPresenceSince.value <= acts[n].now)
    decreases n
  {
    hide Do;
    AllLight(d, acts, n);
    if n == 0 {
      assert acts[..0] == [];
    } else {
      StoredInPast(d, acts, n - 1);
      NextAct(d, acts, n - 1);
      LightAct(Before(d, acts, n - 1), acts[n - 1]);
      assert ActTime(acts[n - 1]) <= ActTime(acts[n]);
    }
  }

  /** Whatever the clock does, a tick that switches a light off follows an absence seen at least the delay before. */
  lemma SwitchedOffAfterAbsence(d: Device, acts: seq<Act>, n: nat)
    requires d.body.Light? && BodyOk(d.body) && d.body.noPresenceSince.None?
    requires n < |acts| && acts[n].TickAct?
    ensures Before(d, acts, n).body.Light? && Before(d, acts, n + 1).body.Light?
    ensures Before(d, acts, n).body.power && !Before(d, acts, n + 1).body.power ==>
      && SeesAbsence(Before(d, acts, n), acts[n])
      && exists i :: 0 <= i < n && AbsentSince(d, acts, i, n)
           && acts[n].now - acts[i].now >= 1000 * Before(d, acts, n).body.automation.noPresenceDelaySeconds
  {
    hide Do;
    AllLight(d, acts, n);
    NextAct(d, acts, n);
    LightTickPower(Before(d, acts, n), acts[n]);
    if Before(d, acts, n).body.noPresenceSince.Some? {
      var i := StoredAbsence(d, acts, n);
    }
  }

  /**
   * Exactly when a tick switches a light off: the light is on, the tick sees nobody, and some earlier
   * tick at least the configured delay ago saw nobody either, with neither dark presence seen nor the
   * automation reconfigured in between.
   */
  lemma SwitchedOffIff(d: Device, acts: seq<Act>, n: nat)
    requires d.body.Light? && BodyOk(d.body) && d.body.noPresenceSince.None? && InTimeOrder(acts)
    requires n < |acts| && acts[n].TickAct?
    ensures Before(d, acts, n).body.Light? && Before(d, acts, n + 1).body.Light?
    ensures (Before(d, acts, n).body.power && !Before(d, acts, n + 1).body.power) <==>
      && Before(d, acts, n).body.power
      && SeesAbsence(Before(d, acts, n), acts[n])
      && exists i :: 0 <= i < n && AbsentSince(d, acts, i, n)
           && acts[n].now - acts[i].now >= 1000 * Before(d, acts, n).body.automation.noPresenceDelaySeconds
  {
    hide Do;
    AllLight(d, acts, n);
    NextAct(d, acts, n);
    var before := Before(d, acts, n);
    LightTickPower(before, acts[n]);
    SwitchedOffAfterAbsence(d, acts, n);
    forall i | 0 <= i < n && AbsentSince(d, acts, i, n)
      ensures before.body.noPresenceSince.Some? && before.body.noPresenceSince.value <= acts[i].now
    {
      AbsenceStored(d, acts, i, n);
    }
  }

  // ----- in the registry

  predicate Reconfigures(op: Op, id: string) {
    op.Command? && op.target == id && op.action == "setAutomationConfig"
  }

  /** The override the light carries, if it is a light. */
  predicate OverriddenUntil(b: Body, until: int) {
    b.Light? && b.automation.manualOverrideUntil.Some? && b.automation.manualOverrideUntil.value >= until
  }

  lemma {:induction false} OverrideKept(d: Device, acts: seq<Act>, since: int)
    requires BodyOk(d.body) && OverriddenUntil(d.body, since + 300_000)
    requires forall a <- acts :: a.now >= since && !(a.CommandAct? && a.action == "setAutomationConfig")
    ensures OverriddenUntil(DoAll(d, acts).body, since + 300_000)
    decreases |acts|
  {
    hide Do;
    if acts != [] {
      var front, last := acts[..|acts| - 1], acts[|acts| - 1];
      assert last in acts && forall a <- front :: a in acts;
      OverrideKept(d, front, since);
      DoAllOk(d, front);
      LightAct(DoAll(d, front), last);
    }
  }

  predicate HasTime(op: Op) {
    op.Command? || op.TickAll? || op.Fault? || op.Inject?
  }

  function OpTime(op: Op): int {
    if op.Command? || op.TickAll? || op.Fault? || op.Inject? then op.now else 0
  }

  lemma {:induction false} ObeyActsPlain(d: Device, orders: seq<Order>, now: int)
    requires forall o <- orders :: o.action != "setAutomationConfig"
    ensures forall a <- ObeyActs(d, orders, now) :: a.now == now && a.CommandAct? && a.action != "setAutomationConfig"
    decreases |orders|
  {
    if orders != [] {
      var a := Commanded(d, orders[0].action, orders[0].payload, Some(d.stateVersion), now);
      assert orders[0] in orders && forall o <- orders[1..] :: o in orders;
      if a.error.None? { ObeyActsPlain(a.device, orders[1..], now); }
    }
  }

  lemma {:induction false} AwayOrdersPlain(devices: map<string, Device>, order: seq<string>, id: string)
    ensures forall o <- OrdersFor(AwayPlans(devices, order), id) :: o.action != "setAutomationConfig"
    decreases |order|
  {
    if order != [] {
      AwayOrdersPlain(devices, order[..|order| - 1], id);
      var last := order[|order| - 1];
      var before := AwayPlans(devices, order[..|order| - 1]);
      if last in devices && AwayOrder(devices[last].kind).Some? {
        var o := AwayOrder(devices[last].kind).value;
        assert o.action != "setAutomationConfig";
        assert (before + [Plan(last, [o])])[..|before|] == before;
      }
    }
  }

  lemma HomeOrdersPlain(id: string)
    ensures forall o <- OrdersFor(HOME_PLANS, id) :: o.action != "setAutomationConfig"
  {
    if Planned(HOME_PLANS, id) {
      var i :| 0 <= i < |HOME_PLANS| && HOME_PLANS[i].deviceId == id;
      HomePlansDistinct();
      OrdersForPlanned(HOME_PLANS, i);
    } else {
      OrdersForUnplanned(HOME_PLANS, id);
    }
  }

  lemma ActsOfPlain(reg: Reg, op: Op, id: string)
    requires Listed(reg) && id in reg.devices && !Reconfigures(op, id)
    ensures forall a <- ActsOf(reg, op, id) ::
              HasTime(op) && a.now == OpTime(op) && !(a.CommandAct? && a.action == "setAutomationConfig")
  {
    if op.Command? {
      if op.target == "scene-away" {
        AwayOrdersPlain(reg.devices, reg.order, id);
        ObeyActsPlain(reg.devices[id], OrdersFor(AwayPlans(reg.devices, reg.order), id), op.now);
      } else if op.target == "scene-home" {
        HomeOrdersPlain(id);
        ObeyActsPlain(reg.devices[id], OrdersFor(HOME_PLANS, id), op.now);
      }
    }
  }

  lemma OverrideStep(reg: Reg, op: Op, id: string, since: int)
    requires RegOk(reg) && id in reg.devices && id in Step(reg, op).devices
    requires OverriddenUntil(reg.devices[id].body, since + 300_000) && !Reconfigures(op, id)
    requires HasTime(op) ==> OpTime(op) >= since
    ensures OverriddenUntil(Step(reg, op).devices[id].body, since + 300_000)
  {
    assert DeviceFits(reg, id);
    hide Step, Perform, ActsOf, Do, HasTime, Reconfigures, OverriddenUntil;
    Projection(reg, op, id);
    ActsOfPlain(reg, op, id);
    OverrideKept(reg.devices[id], ActsOf(reg, op, id), since);
  }

  /** A manual command the light follows, sent to it directly or by a scene that has one for it. */
  predicate Manually(reg: Reg, op: Op, id: string) {
    op.Command? && id in reg.devices && reg.devices[id].body.Light? &&
    if op.target == "scene-away" then
      op.action == "executeAway" && reg.devices[id].kind == "light" && Commandable(reg.devices[id])
    else if op.target == "scene-home" then
      op.action == "executeHome" && id == "light-living-01" && Commandable(reg.devices[id])
    else
      op.target == id && op.action in MANUAL && Succeeds(reg, op)
  }

  /** Operation i is a manual command to a light that is then there until moment n, is not reconfigured and
      sees no clock reading before i. */
  ghost predicate ManualSince(reg: Reg, ops: seq<Op>, i: nat, n: nat, id: string)
    requires Listed(reg)
  {
    && i < n <= |ops| && Present(reg, ops, i, n, id) && Manually(At(reg, ops, i), ops[i], id)
    && (forall k :: i < k < n ==>
          !Reconfigures(ops[k], id) && (HasTime(ops[k]) ==> OpTime(ops[k]) >= OpTime(ops[i])))
  }

  lemma ManualFacts(reg: Reg, ops: seq<Op>, i: nat, n: nat, id: string)
    requires Listed(reg) && ManualSince(reg, ops, i, n, id)
    ensures i < n <= |ops|
    ensures id in At(reg, ops, n - 1).devices && id in At(reg, ops, n).devices
    ensures i < n - 1 ==> ManualSince(reg, ops, i, n - 1, id) && !Reconfigures(ops[n - 1], id)
                          && (HasTime(ops[n - 1]) ==> OpTime(ops[n - 1]) >= OpTime(ops[i]))
  {
    hide At, Manually;
  }

  function SceneOrders(reg: Reg, op: Op, id: string): seq<Order>
    requires op.Command?
  {
    OrdersFor(if op.target == "scene-away" then AwayPlans(reg.devices, reg.order) else HOME_PLANS, id)
  }

  /** The one order a scene has for a light, and that it starts the override. */
  lemma SceneOrderForLight(reg: Reg, op: Op, id: string)
    requires Listed(reg) && Manually(reg, op, id) && Scene(op.target)
    ensures var orders := SceneOrders(reg, op, id);
      |orders| == 1 && orders[0].action in MANUAL
      && Commanded(reg.devices[id], orders[0].action, orders[0].payload, Some(reg.devices[id].stateVersion), op.now)
           .error.None?
  {
    if op.target == "scene-away" {
      AwayPlansAreAwayIds(reg.devices, reg.order);
      var plans, ids := AwayPlans(reg.devices, reg.order), AwayIds(reg.devices, reg.order);
      assert AwayOrder("light").Some?;
      assert id in ids;
      var i :| 0 <= i < |ids| && ids[i] == id;
      OrdersForPlanned(plans, i);
    } else {
      HomePlansDistinct();
      OrdersForPlanned(HOME_PLANS, 0);
    }
  }

  lemma ObeyOnlyOrder(d: Device, order: Order, now: int)
    requires Commanded(d, order.action, order.payload, Some(d.stateVersion), now).error.None?
    ensures ObeyActs(d, [order], now) == [CommandAct(order.action, order.payload, Some(d.stateVersion), now)]
  {
    assert [order][1..] == [];
  }

  /** The act a manual operation comes down to. */
  lemma ManualAct(reg: Reg, op: Op, id: string) returns (act: Act)
    requires Listed(reg) && Manually(reg, op, id)
    ensures ActsOf(reg, op, id) == [act] && act.now == OpTime(op) && Obeyed(reg.devices[id], act, MANUAL)
  {
    var d := reg.devices[id];
    if Scene(op.target) {
      SceneOrderForLight(reg, op, id);
      hide Commanded, OrdersFor, AwayPlans, Listed;
      var orders := SceneOrders(reg, op, id);
      assert orders == [orders[0]];
      ObeyOnlyOrder(d, orders[0], op.now);
      act := CommandAct(orders[0].action, orders[0].payload, Some(d.stateVersion), op.now);
    } else {
      act := CommandAct(op.action, op.payload, op.expected, op.now);
    }
  }

  lemma OverrideStarts(reg: Reg, ops: seq<Op>, i: nat, id: string)
    requires RegOk(reg) && SoundRun(reg, ops) && ManualSince(reg, ops, i, i + 1, id)
    ensures id in At(reg, ops, i + 1).devices
    ensures OverriddenUntil(At(reg, ops, i + 1).devices[id].body, OpTime(ops[i]) + 300_000)
  {
    ManualFacts(reg, ops, i, i + 1, id);
    RunOk(reg, ops, i);
    NextAt(reg, ops, i);
    assert DeviceFits(At(reg, ops, i), id);
    hide At, Step, Perform, Manually, OpTime, OverriddenUntil;
    FirstOverride(At(reg, ops, i), ops[i], id);
  }

  lemma {:induction false} OverrideKeptInRun(reg: Reg, ops: seq<Op>, i: nat, n: nat, id: string)
    requires RegOk(reg) && SoundRun(reg, ops) && ManualSince(reg, ops, i, n, id)
    ensures i < n <= |ops| && id in At(reg, ops, n).devices
    ensures OverriddenUntil(At(reg, ops, n).devices[id].body, OpTime(ops[i]) + 300_000)
    decreases n
  {
    RegOkListed(reg);
    hide At, Step, Perform, ManualSince, HasTime, OpTime, Reconfigures, OverriddenUntil, RegOk, SoundRun;
    ManualFacts(reg, ops, i, n, id);
    if n - 1 == i {
      OverrideStarts(reg, ops, i, id);
    } else {
      OverrideKeptInRun(reg, ops, i, n - 1, id);
      RunOk(reg, ops, n - 1);
      NextAt(reg, ops, n - 1);
      OverrideStep(At(reg, ops, n - 1), ops[n - 1], id, OpTime(ops[i]));
    }
  }

  lemma FirstOverride(reg: Reg, op: Op, id: string)
    requires Listed(reg) && Manually(reg, op, id) && BodyOk(reg.devices[id].body) && id in Step(reg, op).devices
    ensures OverriddenUntil(Step(reg, op).devices[id].body, OpTime(op) + 300_000)
  {
    var d := reg.devices[id];
    assert d.body.Light?;
    hide Step, Perform, Do, ActsOf, Manually, Obeyed, OpTime;
    var act := ManualAct(reg, op, id);
    Projection(reg, op, id);
    DoOne(d, act);
    LightAct(d, act);
  }

  /** The same of whole registry runs: for five minutes after a manual command to a light, by a client or by a
      scene, no tick of the registry changes that light, whatever else happens. */
  lemma TicksRespectManualCommand(reg: Reg, ops: seq<Op>, i: nat, j: nat, id: string)
    requires RegOk(reg) && SoundRun(reg, ops) && j < |ops| && ManualSince(reg, ops, i, j, id)
    requires ops[j].TickAll? && OpTime(ops[j]) < OpTime(ops[i]) + 300_000
    ensures id in At(reg, ops, j + 1).devices
    ensures At(reg, ops, j + 1).devices[id] == At(reg, ops, j).devices[id]
  {
    OverrideKeptInRun(reg, ops, i, j, id);
    RunOk(reg, ops, j);
    NextAt(reg, ops, j);
    var now := At(reg, ops, j);
    assert id in now.devices;
    assert DeviceFits(now, id);
    hide At, RegOk, SoundRun;
    QuietStepTables(now, ops[j]);
    assert id in Step(now, ops[j]).devices.Keys;
    TickLeavesOverridden(now, ops[j], id, OpTime(ops[i]) + 300_000);
  }

  lemma TickLeavesOverridden(reg: Reg, op: Op, id: string, until: int)
    requires Listed(reg) && op.TickAll? && id in reg.devices && id in Step(reg, op).devices
    requires BodyOk(reg.devices[id].body) && OverriddenUntil(reg.devices[id].body, until) && op.now < until
    ensures Step(reg, op).devices[id] == reg.devices[id]
  {
    hide Step, Perform, Do;
    Projection(reg, op, id);
    var acts := ActsOf(reg, op, id);
    DoOne(reg.devices[id], acts[0]);
    LightTickPower(reg.devices[id], acts[0]);
  }
}
