/**
 * Automatic lighting in runs of the registry: when a tick switches a light off, told from the operations of the
 * run and from the sensor of the light's room.
 */
module LightRuns {
  import opened Lists
  import opened Wrappers
  import opened Devices
  import opened Registry
  import opened Operations
  import opened Scenes
  import opened Traces
  import opened Structure
  import opened Versions
  import opened LightRules
  import opened RoomClimate

  // ----- sensors are ticked before lights

  predicate Sorted(devices: map<string, Device>, ids: seq<string>) {
    forall i, j :: 0 <= i < j < |ids| ==> PriorityOf(devices, ids[i]) <= PriorityOf(devices, ids[j])
  }

  lemma {:induction false} InsertSorted(devices: map<string, Device>, id: string, ids: seq<string>)
    requires Sorted(devices, ids)
    ensures Sorted(devices, Insert(devices, id, ids))
  {
    hide PriorityOf;
    if ids != [] && PriorityOf(devices, id) > PriorityOf(devices, ids[0]) {
      InsertSorted(devices, id, ids[1..]);
      InsertElements(devices, id, ids[1..]);
      var rest := Insert(devices, id, ids[1..]);
      forall j | 0 <= j < |rest|
        ensures PriorityOf(devices, ids[0]) <= PriorityOf(devices, rest[j])
      {
        assert rest[j] in multiset(rest);
        assert rest[j] == id || rest[j] in ids[1..];
      }
    }
  }

  /** The order of a tick is by priority. */
  lemma {:induction false} ByPrioritySorted(devices: map<string, Device>, order: seq<string>)
    ensures Sorted(devices, ByPriority(devices, order))
  {
    if order != [] {
      ByPrioritySorted(devices, order[1..]);
      InsertSorted(devices, order[0], ByPriority(devices, order[1..]));
    }
  }

  lemma {:induction false} NotTickedAgain(reg: Reg, ids: seq<string>, p: nat, now: int, forecast: Forecast, id: string)
    requires (forall x <- ids :: x in reg.devices) && p <= |ids| && id in reg.devices && id !in ids[p..]
    ensures TickFirst(reg, ids, now, forecast).reg.devices[id]
         == TickFirst(reg, ids[..p], now, forecast).reg.devices[id]
    decreases |ids|
  {
    hide Ticked, SurroundingsOf;
    if p < |ids| {
      var front := ids[..|ids| - 1];
      assert front[..p] == ids[..p];
      assert ids[p..] == front[p..] + [ids[|ids| - 1]];
      NotTickedAgain(reg, front, p, now, forecast, id);
    } else {
      assert ids[..p] == ids;
    }
  }

  lemma {:induction false} InTickAt(reg: Reg, ids: seq<string>, p: nat, now: int, forecast: Forecast)
    requires (forall x <- ids :: x in reg.devices) && Distinct(ids) && p < |ids|
    ensures var before := TickFirst(reg, ids[..p], now, forecast).reg;
            SurroundingsInTick(reg, ids, now, forecast, ids[p]) == SurroundingsOf(before, before.devices[ids[p]])
    decreases |ids|
  {
    hide SurroundingsOf, TickFirst;
    if p < |ids| - 1 {
      var front := ids[..|ids| - 1];
      assert front[..p] == ids[..p];
      InTickAt(reg, front, p, now, forecast);
    }
  }

  lemma TickedFamily(d: Device, now: int, around: Surroundings, w: Weather)
    ensures FamilyOf(Ticked(d, now, around, w).body) == FamilyOf(d.body)
  {
  }

  lemma {:induction false} TicksKeepFamilies(reg: Reg, ids: seq<string>, now: int, forecast: Forecast, id: string)
    requires (forall x <- ids :: x in reg.devices) && id in reg.devices
    ensures FamilyOf(TickFirst(reg, ids, now, forecast).reg.devices[id].body) == FamilyOf(reg.devices[id].body)
    decreases |ids|
  {
    hide Ticked, SurroundingsOf;
    if ids != [] {
      var before := TickFirst(reg, ids[..|ids| - 1], now, forecast).reg;
      TicksKeepFamilies(reg, ids[..|ids| - 1], now, forecast, id);
      TickedFamily(before.devices[id], now, SurroundingsOf(before, before.devices[id]), WeatherAt(forecast, id));
    }
  }

  /** Two registries that agree on where devices are and on the first sensor of a room show the same sensor. */
  lemma SameSensor(reg: Reg, before: Reg, after: Reg, d: Device, e: Device)
    requires SameCooling(reg.devices, before.devices) && SameCooling(reg.devices, after.devices)
    requires before.order == reg.order && after.order == reg.order && d.roomId == e.roomId
    requires forall s <- reg.devices ::
               && s in before.devices && s in after.devices
               && FamilyOf(before.devices[s].body) == FamilyOf(after.devices[s].body)
               && (before.devices[s].body.Environment? ==> before.devices[s] == after.devices[s])
    ensures SurroundingsOf(before, d).sensor == SurroundingsOf(after, e).sensor
  {
    SameFirst(reg.devices, before.devices, reg.order, "environment", Some(d.roomId));
    SameFirst(reg.devices, after.devices, reg.order, "environment", Some(d.roomId));
    var found := FindFirst(before.devices, before.order, "environment", Some(d.roomId));
    assert found.Some? ==> found.value in reg.devices.Keys;
  }

  lemma SensorBeforeLight(reg: Reg, ids: seq<string>, p: nat, s: string)
    requires Listed(reg) && ids == TickOrder(reg) && p < |ids| && s in reg.devices
    requires ids[p] in reg.devices && reg.devices[ids[p]].body.Light? && reg.devices[s].body.Environment?
    ensures s !in ids[p..]
  {
    ByPrioritySorted(reg.devices, reg.order);
    assert PriorityOf(reg.devices, ids[p]) == 30 && PriorityOf(reg.devices, s) == 10;
    forall q | 0 <= q < |ids[p..]|
      ensures PriorityOf(reg.devices, ids[p..][q]) >= 30
    {
      assert ids[p..][q] == ids[p + q];
    }
  }

  /** A sensor is done when the light's turn comes. */
  lemma SensorSettled(reg: Reg, ids: seq<string>, p: nat, now: int, f: Forecast, s: string)
    requires Listed(reg) && ids == TickOrder(reg) && p < |ids| && reg.devices[ids[p]].body.Light? && s in reg.devices
    ensures var before, after := TickFirst(reg, ids[..p], now, f).reg, TickFirst(reg, ids, now, f).reg;
            && FamilyOf(before.devices[s].body) == FamilyOf(after.devices[s].body)
            && (before.devices[s].body.Environment? ==> before.devices[s] == after.devices[s])
  {
    hide TickOrder, TickFirst;
    TicksKeepFamilies(reg, ids[..p], now, f, s);
    TicksKeepFamilies(reg, ids, now, f, s);
    if reg.devices[s].body.Environment? {
      SensorBeforeLight(reg, ids, p, s);
      NotTickedAgain(reg, ids, p, now, f, s);
    }
  }

  lemma FreshAt(reg: Reg, ids: seq<string>, p: nat, now: int, f: Forecast)
    requires Listed(reg) && ids == TickOrder(reg) && p < |ids| && reg.devices[ids[p]].body.Light?
    ensures SurroundingsInTick(reg, ids, now, f, ids[p]).sensor
         == SurroundingsOf(TickFirst(reg, ids, now, f).reg, reg.devices[ids[p]]).sensor
  {
    hide SurroundingsOf, SurroundingsInTick, TickOrder, TickFirst, Listed;
    InTickAt(reg, ids, p, now, f);
    TicksKeepCooling(reg, ids[..p], now, f);
    TicksKeepCooling(reg, ids, now, f);
    TickFirstListed(reg, ids[..p], now, f);
    TickFirstListed(reg, ids, now, f);
    var before, after := TickFirst(reg, ids[..p], now, f).reg, TickFirst(reg, ids, now, f).reg;
    forall s <- reg.devices
      ensures s in before.devices && s in after.devices
      ensures FamilyOf(before.devices[s].body) == FamilyOf(after.devices[s].body)
      ensures before.devices[s].body.Environment? ==> before.devices[s] == after.devices[s]
    {
      SensorSettled(reg, ids, p, now, f, s);
    }
    SameSensor(reg, before, after, before.devices[ids[p]], reg.devices[ids[p]]);
  }

  lemma StepIsTick(reg: Reg, op: Op)
    requires Listed(reg) && op.TickAll?
    ensures Step(reg, op) == TickFirst(reg, TickOrder(reg), op.now, op.forecast).reg
  {
  }

  /** What a light sees in a tick of the registry is the sensor of its room as the whole tick leaves it. */
  lemma SeesFreshSensor(reg: Reg, op: Op, id: string)
    requires Listed(reg) && op.TickAll? && id in reg.devices && reg.devices[id].body.Light?
    ensures SurroundingsInTick(reg, TickOrder(reg), op.now, op.forecast, id).sensor
         == SurroundingsOf(Step(reg, op), reg.devices[id]).sensor
  {
    hide SurroundingsOf, SurroundingsInTick, TickOrder, TickFirst, Listed, Step;
    StepIsTick(reg, op);
    var ids := TickOrder(reg);
    var p :| 0 <= p < |ids| && ids[p] == id;
    FreshAt(reg, ids, p, op.now, op.forecast);
  }

  // ----- what a tick of the registry sees

  /** The sensor of the light's room, as the operation leaves it. */
  ghost function SensorAfter(reg: Reg, op: Op, id: string): Option<Sensed>
    requires Listed(reg) && id in reg.devices
  {
    SurroundingsOf(Step(reg, op), reg.devices[id]).sensor
  }

  /** A tick in which the light's automation looks at the sensor. */
  ghost predicate LooksIn(reg: Reg, op: Op, id: string)
    requires Listed(reg)
  {
    && op.TickAll? && id in reg.devices && reg.devices[id].body.Light?
    && (var d := reg.devices[id];
        && d.online && d.body.automation.enabled
        && (d.body.automation.manualOverrideUntil.Some? ==> op.now >= d.body.automation.manualOverrideUntil.value)
        && SensorAfter(reg, op, id).Some? && SensorAfter(reg, op, id).value.online)
  }

  ghost predicate AbsenceIn(reg: Reg, op: Op, id: string)
    requires Listed(reg)
  {
    LooksIn(reg, op, id) && !SensorAfter(reg, op, id).value.presence
  }

  ghost predicate DarkPresenceIn(reg: Reg, op: Op, id: string)
    requires Listed(reg)
  {
    && LooksIn(reg, op, id) && SensorAfter(reg, op, id).value.presence
    && SensorAfter(reg, op, id).value.lux < reg.devices[id].body.automation.thresholdLux as real
  }

  /** A command that reconfigures the light's automation, and succeeds. */
  ghost predicate ReconfiguredIn(reg: Reg, op: Op, id: string) {
    op.Command? && !Scene(op.target) && op.target == id && op.action == "setAutomationConfig" && Succeeds(reg, op)
  }

  lemma TickAsAct(reg: Reg, op: Op, id: string)
    requires Listed(reg) && op.TickAll? && id in reg.devices && reg.devices[id].body.Light?
    ensures |ActsOf(reg, op, id)| == 1 && ActsOf(reg, op, id)[0].TickAct? && ActsOf(reg, op, id)[0].now == op.now
    ensures AbsenceIn(reg, op, id) <==> SeesAbsence(reg.devices[id], ActsOf(reg, op, id)[0])
    ensures DarkPresenceIn(reg, op, id) <==> SeesDarkPresence(reg.devices[id], ActsOf(reg, op, id)[0])
  {
    hide Step, SurroundingsInTick, SurroundingsOf;
    SeesFreshSensor(reg, op, id);
  }

  // ----- one operation

  lemma {:induction false} PlainKeepsAbsence(d: Device, acts: seq<Act>)
    requires d.body.Light? && BodyOk(d.body)
    requires forall a <- acts :: !a.TickAct? && !(a.CommandAct? && a.action == "setAutomationConfig")
    ensures DoAll(d, acts).body.Light? && DoAll(d, acts).body.noPresenceSince == d.body.noPresenceSince
    decreases |acts|
  {
    hide Do;
    if acts != [] {
      var front, last := acts[..|acts| - 1], acts[|acts| - 1];
      assert last in acts && forall a <- front :: a in acts;
      PlainKeepsAbsence(d, front);
      DoAllOk(d, front);
      LightAct(DoAll(d, front), last);
    }
  }

  /** What an operation does to the moment absence was first seen. */
  ghost predicate AbsenceMoves(reg: Reg, op: Op, id: string, b: Body, c: Body)
    requires Listed(reg) && b.Light?
  {
    && c.Light?
    && (DarkPresenceIn(reg, op, id) || ReconfiguredIn(reg, op, id) ==> c.noPresenceSince.None?)
    && (AbsenceIn(reg, op, id) && b.noPresenceSince.None? ==> c.noPresenceSince == Some(op.now))
    && ((!DarkPresenceIn(reg, op, id) && !ReconfiguredIn(reg, op, id)
         && !(AbsenceIn(reg, op, id) && b.noPresenceSince.None?)) ==>
          c.noPresenceSince == b.noPresenceSince)
  }

  lemma TickMovesAbsence(reg: Reg, op: Op, id: string)
    requires RegOk(reg) && op.TickAll? && id in reg.devices && id in Step(reg, op).devices
    requires reg.devices[id].body.Light?
    ensures AbsenceMoves(reg, op, id, reg.devices[id].body, Step(reg, op).devices[id].body)
  {
    assert DeviceFits(reg, id);
    hide Step, Do, SeesAbsence, SeesDarkPresence, AbsenceIn, DarkPresenceIn, ActsOf;
    Projection(reg, op, id);
    TickAsAct(reg, op, id);
    var act := ActsOf(reg, op, id)[0];
    assert ActsOf(reg, op, id) == [act];
    DoOne(reg.devices[id], act);
    LightAct(reg.devices[id], act);
  }

  lemma ReconfigureAsAct(reg: Reg, op: Op, id: string)
    requires Listed(reg) && op.Command? && !Scene(op.target) && op.target == id && id in reg.devices
    ensures ReconfiguredIn(reg, op, id) <==>
            LightRules.Obeyed(reg.devices[id], CommandAct(op.action, op.payload, op.expected, op.now), RECONFIGURE)
  {
    hide Commanded;
  }

  lemma CommandMovesAbsence(reg: Reg, op: Op, id: string)
    requires RegOk(reg) && op.Command? && !Scene(op.target) && op.target == id
    requires id in reg.devices && id in Step(reg, op).devices && reg.devices[id].body.Light?
    ensures AbsenceMoves(reg, op, id, reg.devices[id].body, Step(reg, op).devices[id].body)
  {
    assert DeviceFits(reg, id);
    hide Step, Do, LightRules.Obeyed, ReconfiguredIn;
    Projection(reg, op, id);
    var act := CommandAct(op.action, op.payload, op.expected, op.now);
    assert ActsOf(reg, op, id) == [act];
    DoOne(reg.devices[id], act);
    ReconfigureAsAct(reg, op, id);
    LightAct(reg.devices[id], act);
    assert !Consults(reg.devices[id], act);
    OneKind(reg.devices[id], act);
  }

  lemma OneKind(d: Device, a: Act)
    ensures !(LightRules.Obeyed(d, a, MANUAL) && LightRules.Obeyed(d, a, RECONFIGURE))
  {
  }

  lemma OtherOpsPlain(reg: Reg, op: Op, id: string)
    requires Listed(reg) && id in reg.devices && !op.TickAll?
    requires !(op.Command? && !Scene(op.target) && op.target == id)
    ensures forall a <- ActsOf(reg, op, id) :: !a.TickAct? && !(a.CommandAct? && a.action == "setAutomationConfig")
  {
    if op.Command? && op.target == "scene-away" {
      AwayOrdersPlain(reg.devices, reg.order, id);
      ObeyActsPlain(reg.devices[id], OrdersFor(AwayPlans(reg.devices, reg.order), id), op.now);
    } else if op.Command? && op.target == "scene-home" {
      HomeOrdersPlain(id);
      ObeyActsPlain(reg.devices[id], OrdersFor(HOME_PLANS, id), op.now);
    }
  }

  lemma OperationMovesAbsence(reg: Reg, op: Op, id: string)
    requires RegOk(reg) && id in reg.devices && id in Step(reg, op).devices && reg.devices[id].body.Light?
    ensures AbsenceMoves(reg, op, id, reg.devices[id].body, Step(reg, op).devices[id].body)
  {
    if op.TickAll? {
      TickMovesAbsence(reg, op, id);
    } else if op.Command? && !Scene(op.target) && op.target == id {
      CommandMovesAbsence(reg, op, id);
    } else {
      assert DeviceFits(reg, id);
      hide Step, Do, ActsOf, Succeeds;
      Projection(reg, op, id);
      OtherOpsPlain(reg, op, id);
      PlainKeepsAbsence(reg.devices[id], ActsOf(reg, op, id));
    }
  }

  // ----- runs

  /** Operation i is a tick that sees nobody, and until moment n no tick sees dark presence and the automation is
      not reconfigured. */
  ghost predicate AbsentFrom(reg: Reg, ops: seq<Op>, i: nat, n: nat, id: string)
    requires Listed(reg)
  {
    && i < n <= |ops| && AbsenceIn(At(reg, ops, i), ops[i], id)
    && forall k :: i < k < n ==> !DarkPresenceIn(At(reg, ops, k), ops[k], id)
                                 && !ReconfiguredIn(At(reg, ops, k), ops[k], id)
  }

  /** A light there from lo to hi that starts with no absence noted. */
  ghost predicate FreshLight(reg: Reg, ops: seq<Op>, lo: nat, hi: nat, id: string)
    requires Listed(reg)
  {
    && lo <= hi <= |ops| && Present(reg, ops, lo, hi, id)
    && At(reg, ops, lo).devices[id].body.Light? && At(reg, ops, lo).devices[id].body.noPresenceSince.None?
  }

  lemma {:induction false} StaysALight(reg: Reg, ops: seq<Op>, lo: nat, hi: nat, id: string)
    requires RegOk(reg) && SoundRun(reg, ops) && Listed(reg) && lo <= hi <= |ops| && Present(reg, ops, lo, hi, id)
    requires At(reg, ops, lo).devices[id].body.Light?
    ensures id in At(reg, ops, hi).devices && At(reg, ops, hi).devices[id].body.Light?
    decreases hi
  {
    hide At, Step, Perform, RegOk, SoundRun;
    if lo != hi {
      assert id in At(reg, ops, hi - 1).devices && id in At(reg, ops, hi).devices;
      StaysALight(reg, ops, lo, hi - 1, id);
      RunOk(reg, ops, hi - 1);
      NextAt(reg, ops, hi - 1);
      DeviceStaysOk(At(reg, ops, hi - 1), ops[hi - 1], id);
    }
  }

  lemma MovesAt(reg: Reg, ops: seq<Op>, n: nat, id: string)
    requires RegOk(reg) && SoundRun(reg, ops) && Listed(reg) && n < |ops|
    requires id in At(reg, ops, n).devices && id in At(reg, ops, n + 1).devices
    requires At(reg, ops, n).devices[id].body.Light?
    ensures AbsenceMoves(At(reg, ops, n), ops[n], id, At(reg, ops, n).devices[id].body,
                         At(reg, ops, n + 1).devices[id].body)
  {
    hide At, Step, Perform, RegOk, SoundRun, AbsenceMoves;
    RunOk(reg, ops, n);
    NextAt(reg, ops, n);
    OperationMovesAbsence(At(reg, ops, n), ops[n], id);
  }

  /** The moment a light has noted is that of a tick that saw nobody, with no dark presence since. */
  lemma {:induction false} NotedAbsence(reg: Reg, ops: seq<Op>, lo: nat, n: nat, id: string) returns (i: nat)
    requires RegOk(reg) && SoundRun(reg, ops) && Listed(reg) && FreshLight(reg, ops, lo, n, id)
    requires id in At(reg, ops, n).devices && At(reg, ops, n).devices[id].body.Light?
    requires At(reg, ops, n).devices[id].body.noPresenceSince.Some?
    ensures lo <= i < n && AbsentFrom(reg, ops, i, n, id)
    ensures ops[i].TickAll? && At(reg, ops, n).devices[id].body.noPresenceSince == Some(ops[i].now)
    decreases n
  {
    hide At, Step, Perform, RegOk, SoundRun, DarkPresenceIn, ReconfiguredIn;
    assert n > lo;
    assert id in At(reg, ops, n - 1).devices && id in At(reg, ops, lo).devices;
    StaysALight(reg, ops, lo, n - 1, id);
    MovesAt(reg, ops, n - 1, id);
    var before := At(reg, ops, n - 1);
    if AbsenceIn(before, ops[n - 1], id) && before.devices[id].body.noPresenceSince.None? {
      i := n - 1;
    } else {
      i := NotedAbsence(reg, ops, lo, n - 1, id);
    }
  }

  /** Ticks read a clock that does not go back. */
  predicate TicksInOrder(ops: seq<Op>, lo: nat, hi: nat) {
    hi <= |ops| && forall j, k :: lo <= j <= k < hi && ops[j].TickAll? && ops[k].TickAll? ==> ops[j].now <= ops[k].now
  }

  /** Absence, once seen, stays noted, with a moment no later. */
  lemma {:induction false} AbsenceStaysNoted(reg: Reg, ops: seq<Op>, lo: nat, i: nat, n: nat, id: string)
    requires RegOk(reg) && SoundRun(reg, ops) && Listed(reg) && FreshLight(reg, ops, lo, n, id)
    requires TicksInOrder(ops, lo, n) && lo <= i && AbsentFrom(reg, ops, i, n, id)
    ensures ops[i].TickAll? && id in At(reg, ops, n).devices
    ensures var b := At(reg, ops, n).devices[id].body;
            b.Light? && b.noPresenceSince.Some? && b.noPresenceSince.value <= ops[i].now
    decreases n
  {
    hide At, Step, Perform, RegOk, SoundRun, DarkPresenceIn, ReconfiguredIn;
    assert id in At(reg, ops, n - 1).devices && id in At(reg, ops, lo).devices && id in At(reg, ops, n).devices;
    StaysALight(reg, ops, lo, n - 1, id);
    MovesAt(reg, ops, n - 1, id);
    if i < n - 1 {
      AbsenceStaysNoted(reg, ops, lo, i, n - 1, id);
    } else {
      NeverBoth(At(reg, ops, i), ops[i], id);
      if At(reg, ops, i).devices[id].body.noPresenceSince.Some? {
        var j := NotedAbsence(reg, ops, lo, i, id);
      }
    }
  }

  lemma NeverBoth(reg: Reg, op: Op, id: string)
    requires Listed(reg) && AbsenceIn(reg, op, id)
    ensures !DarkPresenceIn(reg, op, id) && !ReconfiguredIn(reg, op, id)
  {
    hide Step, SensorAfter;
  }

  // ----- switching off

  ghost predicate SwitchedOff(reg: Reg, op: Op, id: string)
    requires Listed(reg)
  {
    && id in reg.devices && reg.devices[id].body.Light? && reg.devices[id].body.power
    && id in Step(reg, op).devices && Step(reg, op).devices[id].body.Light? && !Step(reg, op).devices[id].body.power
  }

  lemma TickSwitchesOff(reg: Reg, op: Op, id: string)
    requires RegOk(reg) && Listed(reg) && op.TickAll? && id in reg.devices && id in Step(reg, op).devices
    requires reg.devices[id].body.Light?
    ensures var b := reg.devices[id].body;
            SwitchedOff(reg, op, id) <==>
              && b.power && AbsenceIn(reg, op, id) && b.noPresenceSince.Some?
              && op.now - b.noPresenceSince.value >= 1000 * b.automation.noPresenceDelaySeconds
  {
    assert DeviceFits(reg, id);
    hide Step, Do, SeesAbsence, SeesDarkPresence, AbsenceIn, DarkPresenceIn, ActsOf;
    Projection(reg, op, id);
    TickAsAct(reg, op, id);
    var act := ActsOf(reg, op, id)[0];
    assert ActsOf(reg, op, id) == [act];
    DoOne(reg.devices[id], act);
    LightTickPower(reg.devices[id], act);
  }

  /** A tick that sees nobody, long enough after an earlier one with no dark presence in between. */
  ghost predicate LongAbsence(reg: Reg, ops: seq<Op>, lo: nat, n: nat, id: string)
    requires Listed(reg) && n < |ops| && ops[n].TickAll? && id in At(reg, ops, n).devices
    requires At(reg, ops, n).devices[id].body.Light?
  {
    && AbsenceIn(At(reg, ops, n), ops[n], id)
    && exists i :: lo <= i < n && AbsentFrom(reg, ops, i, n, id) && ops[i].TickAll?
         && ops[n].now - ops[i].now >= 1000 * At(reg, ops, n).devices[id].body.automation.noPresenceDelaySeconds
  }

  /** Whatever the clock does: every automatic switch-off follows an absence seen at least the delay before. */
  lemma SwitchedOffOnlyAfterAbsence(reg: Reg, ops: seq<Op>, lo: nat, n: nat, id: string)
    requires RegOk(reg) && SoundRun(reg, ops) && Listed(reg) && n < |ops| && FreshLight(reg, ops, lo, n, id)
    requires ops[n].TickAll? && SwitchedOff(At(reg, ops, n), ops[n], id)
    ensures id in At(reg, ops, n).devices && At(reg, ops, n).devices[id].body.Light?
    ensures LongAbsence(reg, ops, lo, n, id)
  {
    hide At, Step, Perform, RegOk, SoundRun, AbsenceIn, AbsentFrom;
    RunOk(reg, ops, n);
    TickSwitchesOff(At(reg, ops, n), ops[n], id);
    var i := NotedAbsence(reg, ops, lo, n, id);
  }

  /** With a clock that does not go back it is exactly so: a tick switches a lit light off when it sees nobody and
      an earlier tick, at least the configured delay ago, saw nobody either, with neither dark presence seen nor the
      automation reconfigured in between. */
  lemma SwitchedOffExactly(reg: Reg, ops: seq<Op>, lo: nat, n: nat, id: string)
    requires RegOk(reg) && SoundRun(reg, ops) && Listed(reg) && n < |ops| && FreshLight(reg, ops, lo, n, id)
    requires id in At(reg, ops, n + 1).devices && ops[n].TickAll? && TicksInOrder(ops, lo, n)
    ensures id in At(reg, ops, n).devices && At(reg, ops, n).devices[id].body.Light?
    ensures SwitchedOff(At(reg, ops, n), ops[n], id) <==>
            At(reg, ops, n).devices[id].body.power && LongAbsence(reg, ops, lo, n, id)
  {
    hide At, Step, Perform, RegOk, SoundRun, AbsenceIn, AbsentFrom;
    assert id in At(reg, ops, n).devices;
    StaysALight(reg, ops, lo, n, id);
    RunOk(reg, ops, n);
    NextAt(reg, ops, n);
    TickSwitchesOff(At(reg, ops, n), ops[n], id);
    if SwitchedOff(At(reg, ops, n), ops[n], id) {
      SwitchedOffOnlyAfterAbsence(reg, ops, lo, n, id);
    }
    if LongAbsence(reg, ops, lo, n, id) {
      var i :| lo <= i < n && AbsentFrom(reg, ops, i, n, id) && ops[i].TickAll?
        && ops[n].now - ops[i].now >= 1000 * At(reg, ops, n).devices[id].body.automation.noPresenceDelaySeconds;
      AbsenceStaysNoted(reg, ops, lo, i, n, id);
    }
  }
}
