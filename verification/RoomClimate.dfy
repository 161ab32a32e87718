/** A sensor in a room whose air conditioner holds a temperature, over the reals. */
module RoomClimate {
  import opened Wrappers
  import opened Devices
  import opened Registry
  import opened Operations
  import opened Traces
  import opened Structure

  function AbsReal(x: real): real {
    if x < 0.0 then -x else x
  }

  function Power(base: real, n: nat): real {
    if n == 0 then 1.0 else base * Power(base, n - 1)
  }

  /** How far a sensor's reading is from the target. */
  function Distance(b: Body, target: int): real {
    if b.Environment? then AbsReal(b.temperature - target as real) else 0.0
  }

  const BAND := 0.875

  /** The tick takes a measurement. */
  predicate Measures(d: Device, a: Act) {
    a.TickAct? && d.body.Environment? && d.online && a.now >= d.body.manualInjectionUntil
  }

  /** The air conditioner of the room is on with the target, in a mode that drives the temperature,
      and the noise is what random.uniform draws. */
  predicate HeldAt(a: Act, target: int) {
    a.TickAct? ==>
      && a.around.cooling.Some? && a.around.cooling.value.online && a.around.cooling.value.power
      && a.around.cooling.value.mode in {"cool", "heat", "auto"}
      && a.around.cooling.value.target == target
      && -0.02 <= a.weather.temperatureNoise <= 0.02
  }

  /** One measurement: the distance shrinks by the factor 0.92, give or take noise and rounding. */
  lemma OneMeasurement(d: Device, a: Act, target: int)
    requires d.body.Environment? && HeldAt(a, target) && !a.InjectAct?
    ensures var b, c := d.body, Do(d, a).body;
      && c.Environment?
      && (Measures(d, a) ==>
            Distance(c, target) <= 0.92 * Distance(b, target) + 0.07)
      && (!Measures(d, a) ==> c.temperature == b.temperature)
  {
  }

  ghost function Measurements(d: Device, acts: seq<Act>): nat
    decreases |acts|
  {
    if acts == [] then 0
    else
      var front := acts[..|acts| - 1];
      Measurements(d, front) + if Measures(DoAll(d, front), acts[|acts| - 1]) then 1 else 0
  }

  lemma ShrinkOnce(power: real, distance: real, before: real, after: real)
    requires before <= power * distance + BAND
    requires after <= 0.92 * before + 0.07
    ensures after <= (0.92 * power) * distance + BAND
  {
    assert 0.92 * (power * distance) == (0.92 * power) * distance;
  }

  /**
   * While the air conditioner holds the target, n measurements leave the temperature within
   * 0.92^n times the first distance plus 0.875, for every noise and every rounding; and once within
   * 0.875 of the target the temperature stays there.
   */
  lemma {:induction false} TemperatureContracts(d: Device, acts: seq<Act>, target: int)
    requires d.body.Environment?
    requires forall a <- acts :: HeldAt(a, target) && !a.InjectAct?
    ensures DoAll(d, acts).body.Environment?
    ensures Contracted(d, DoAll(d, acts), Measurements(d, acts), target)
    decreases |acts|
  {
    hide Do, HeldAt, Measures, Distance;
    if acts != [] {
      var front, final := acts[..|acts| - 1], acts[|acts| - 1];
      assert final in acts && forall a <- front :: a in acts;
      TemperatureContracts(d, front, target);
      var e := DoAll(d, front);
      OneMeasurement(e, final, target);
      SameDistance(e.body, Do(e, final).body, target);
      if Measures(e, final) {
        ShrinkOnce(Power(0.92, Measurements(d, front)), Distance(d.body, target),
                   Distance(e.body, target), Distance(Do(e, final).body, target));
      }
    }
  }

  lemma SameDistance(b: Body, c: Body, target: int)
    requires b.Environment? && c.Environment?
    ensures b.temperature == c.temperature ==> Distance(b, target) == Distance(c, target)
  {
  }

  // ----- in the registry

  /** Two stores that agree on where devices are and on every air conditioner. */
  ghost predicate SameCooling(a: map<string, Device>, b: map<string, Device>) {
    && a.Keys == b.Keys
    && (forall id <- a :: id in b && a[id].kind == b[id].kind && a[id].roomId == b[id].roomId
          && (a[id].body.AirConditioner? <==> b[id].body.AirConditioner?)
          && (a[id].body.AirConditioner? ==> a[id].online == b[id].online && a[id].body == b[id].body))
  }

  lemma {:induction false} SameFirst(a: map<string, Device>, b: map<string, Device>, order: seq<string>,
                                     kind: string, room: Option<string>)
    requires SameCooling(a, b)
    ensures FindFirst(a, order, kind, room) == FindFirst(b, order, kind, room)
    decreases |order|
  {
    if order != [] {
      assert order[0] in a.Keys <==> order[0] in b.Keys;
      SameFirst(a, b, order[1..], kind, room);
    }
  }

  lemma TickKeepsCooling(d: Device, now: int, around: Surroundings, w: Weather)
    ensures var e := Ticked(d, now, around, w);
      && e.kind == d.kind && e.roomId == d.roomId && e.online == d.online
      && (e.body.AirConditioner? <==> d.body.AirConditioner?)
      && (d.body.AirConditioner? ==> e.body == d.body)
  {
  }

  /** Ticks leave every air conditioner as it is. */
  lemma {:induction false} TicksKeepCooling(reg: Reg, ids: seq<string>, now: int, forecast: Forecast)
    requires forall x <- ids :: x in reg.devices
    ensures SameCooling(reg.devices, TickFirst(reg, ids, now, forecast).reg.devices)
    decreases |ids|
  {
    if ids != [] {
      var before := TickFirst(reg, ids[..|ids| - 1], now, forecast).reg;
      var id := ids[|ids| - 1];
      TicksKeepCooling(reg, ids[..|ids| - 1], now, forecast);
      TickKeepsCooling(before.devices[id], now, SurroundingsOf(before, before.devices[id]), WeatherAt(forecast, id));
      hide Ticked, SurroundingsOf;
      assert TickFirst(reg, ids, now, forecast).reg == TickDevice(before, id, now, forecast);
    }
  }

  lemma CoolingOf(reg: Reg, after: Reg, id: string)
    requires SameCooling(reg.devices, after.devices) && after.order == reg.order && id in reg.devices
    ensures id in after.devices
    ensures SurroundingsOf(after, after.devices[id]).cooling == SurroundingsOf(reg, reg.devices[id]).cooling
  {
    assert id in after.devices.Keys;
    SameFirst(reg.devices, after.devices, reg.order, "airConditioner", Some(reg.devices[id].roomId));
  }

  lemma {:induction false} CoolingInTick(reg: Reg, ids: seq<string>, now: int, forecast: Forecast, id: string)
    requires forall x <- ids :: x in reg.devices
    requires id in reg.devices
    ensures SurroundingsInTick(reg, ids, now, forecast, id).cooling ==
            SurroundingsOf(reg, reg.devices[id]).cooling
    decreases |ids|
  {
    if ids != [] {
      var front := ids[..|ids| - 1];
      if ids[|ids| - 1] == id {
        TicksKeepCooling(reg, front, now, forecast);
        TickFirstListed(reg, front, now, forecast);
        hide SurroundingsOf;
        CoolingOf(reg, TickFirst(reg, front, now, forecast).reg, id);
      } else {
        CoolingInTick(reg, front, now, forecast, id);
      }
    }
  }

  predicate Holds(cooling: Option<Cooling>, target: int) {
    && cooling.Some? && cooling.value.online && cooling.value.power
    && cooling.value.mode in {"cool", "heat", "auto"} && cooling.value.target == target
  }

  /** The first air conditioner of the sensor's room holds the target when the operation is a tick, and no
      readings are injected into the sensor. */
  ghost predicate HeldOp(reg: Reg, op: Op, id: string, target: int) {
    (op.Inject? ==> FindFirst(reg.devices, reg.order, "environment", None) != Some(id)) &&
    (op.TickAll? ==>
       && id in reg.devices && Holds(SurroundingsOf(reg, reg.devices[id]).cooling, target)
       && -0.02 <= WeatherAt(op.forecast, id).temperatureNoise <= 0.02)
  }

  lemma HeldActs(reg: Reg, op: Op, id: string, target: int)
    requires Listed(reg) && id in reg.devices && HeldOp(reg, op, id, target)
    ensures forall a <- ActsOf(reg, op, id) :: HeldAt(a, target) && !a.InjectAct?
  {
    if op.TickAll? {
      CoolingInTick(reg, TickOrder(reg), op.now, op.forecast, id);
    } else if op.Command? {
      if op.target == "scene-away" {
        OnlyCommands(reg.devices[id], OrdersFor(AwayPlans(reg.devices, reg.order), id), op.now);
      } else if op.target == "scene-home" {
        OnlyCommands(reg.devices[id], OrdersFor(HOME_PLANS, id), op.now);
      }
    }
  }

  lemma {:induction false} OnlyCommands(d: Device, orders: seq<Order>, now: int)
    ensures forall a <- ObeyActs(d, orders, now) :: a.CommandAct?
    decreases |orders|
  {
    if orders != [] {
      var a := Commanded(d, orders[0].action, orders[0].payload, Some(d.stateVersion), now);
      if a.error.None? { OnlyCommands(a.device, orders[1..], now); }
    }
  }

  ghost predicate HeldThroughout(reg: Reg, ops: seq<Op>, lo: nat, hi: nat, id: string, target: int)
    requires Listed(reg)
  {
    lo <= hi <= |ops| && Present(reg, ops, lo, hi, id)
    && (forall k :: lo <= k < hi ==> HeldOp(At(reg, ops, k), ops[k], id, target))
  }

  lemma HeldFacts(reg: Reg, ops: seq<Op>, lo: nat, hi: nat, id: string, target: int)
    requires Listed(reg) && HeldThroughout(reg, ops, lo, hi, id, target)
    ensures lo <= hi <= |ops| && Present(reg, ops, lo, hi, id)
    ensures lo < hi ==> HeldThroughout(reg, ops, lo, hi - 1, id, target)
                        && id in At(reg, ops, hi - 1).devices
                        && HeldOp(At(reg, ops, hi - 1), ops[hi - 1], id, target)
  {
    hide At, HeldOp;
  }

  lemma {:induction false} HeldTrace(reg: Reg, ops: seq<Op>, lo: nat, hi: nat, id: string, target: int)
    requires Listed(reg) && HeldThroughout(reg, ops, lo, hi, id, target)
    ensures lo <= hi <= |ops| && Present(reg, ops, lo, hi, id)
    ensures forall a <- Trace(reg, ops, lo, hi, id) :: HeldAt(a, target) && !a.InjectAct?
    decreases hi
  {
    hide At, HeldThroughout, HeldOp, HeldAt, ActsOf;
    HeldFacts(reg, ops, lo, hi, id, target);
    if lo != hi {
      HeldTrace(reg, ops, lo, hi - 1, id, target);
      HeldActs(At(reg, ops, hi - 1), ops[hi - 1], id, target);
    }
  }

  /** The contraction over a run of the registry: the measurements of a sensor while the first air
      conditioner of its room holds the target. */
  lemma RoomApproachesTarget(reg: Reg, ops: seq<Op>, lo: nat, hi: nat, id: string, target: int)
    requires Listed(reg) && lo <= hi <= |ops| && Present(reg, ops, lo, hi, id)
    requires HeldThroughout(reg, ops, lo, hi, id, target)
    requires id in At(reg, ops, lo).devices && At(reg, ops, lo).devices[id].body.Environment?
    ensures id in At(reg, ops, hi).devices
    ensures var d, e := At(reg, ops, lo).devices[id], At(reg, ops, hi).devices[id];
      Contracted(d, e, Measurements(d, Trace(reg, ops, lo, hi, id)), target)
  {
    hide At, HeldThroughout, HeldAt, Distance;
    HeldTrace(reg, ops, lo, hi, id, target);
    TraceOfRun(reg, ops, lo, hi, id);
    hide Present, Trace, Measurements;
    TemperatureContracts(At(reg, ops, lo).devices[id], Trace(reg, ops, lo, hi, id), target);
  }

  predicate Contracted(d: Device, e: Device, n: nat, target: int) {
    && Distance(e.body, target) <= Power(0.92, n) * Distance(d.body, target) + BAND
    && (Distance(d.body, target) <= BAND ==> Distance(e.body, target) <= BAND)
  }
}
