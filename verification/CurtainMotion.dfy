/** The motion of a curtain: ten percent a tick, never past the target. */
module CurtainMotion {
  import opened Wrappers
  import opened Devices
  import opened Registry
  import opened Operations
  import opened Traces
  import opened Structure
  import opened Quiet
  import opened CommandLaws

  predicate Moves(d: Device, a: Act) {
    a.TickAct? && d.online
  }

  predicate Reports(d: Device, a: Act) {
    a.TickAct? && BodyTick(d.body, d.online, a.now, a.around, a.weather).changed
  }

  ghost function OnlineTicks(d: Device, acts: seq<Act>): nat
    decreases |acts|
  {
    if acts == [] then 0
    else
      var front := acts[..|acts| - 1];
      OnlineTicks(d, front) + if Moves(DoAll(d, front), acts[|acts| - 1]) then 1 else 0
  }

  ghost function ReportedTicks(d: Device, acts: seq<Act>): nat
    decreases |acts|
  {
    if acts == [] then 0
    else
      var front := acts[..|acts| - 1];
      ReportedTicks(d, front) + if Reports(DoAll(d, front), acts[|acts| - 1]) then 1 else 0
  }

  function Abs(x: int): nat {
    if x < 0 then -x else x
  }

  /** The place on the way from start to target after covering a distance. */
  function Along(start: int, target: int, distance: nat): int {
    if start <= target then Min(start + distance, target) else Max(start - distance, target)
  }

  ghost predicate NoCommands(acts: seq<Act>) {
    forall a <- acts :: !a.CommandAct?
  }

  lemma CurtainAct(d: Device, a: Act, start: int, k: nat)
    requires d.body.Curtain? && BodyOk(d.body) && !a.CommandAct?
    requires d.body.position == Along(start, d.body.targetPosition, 10 * k)
    ensures var b, c := d.body, Do(d, a).body;
      && c.Curtain? && c.targetPosition == b.targetPosition
      && c.position == Along(start, b.targetPosition, 10 * (if Moves(d, a) then k + 1 else k))
      && (Reports(d, a) <==> Moves(d, a) && b.position != b.targetPosition)
  {
  }

  function CeilTenth(n: nat): nat {
    (n + 9) / 10
  }

  /** The distance left, and the ticks it still takes, after k steps. */
  lemma Remaining(start: int, target: int, k: nat)
    ensures Abs(target - Along(start, target, 10 * k)) == Max(0, Abs(target - start) - 10 * k)
    ensures Along(start, target, 10 * k) != target <==> k < CeilTenth(Abs(target - start))
  {
  }

  /** Where a curtain is after k steps, and how many of them were reported. */
  predicate Travelled(d: Device, e: Device, k: nat, reported: nat) {
    d.body.Curtain? && e.body.Curtain? &&
    var start, target, position := d.body.position, d.body.targetPosition, e.body.position;
    && e.body.targetPosition == target
    && Abs(target - position) == Max(0, Abs(target - start) - 10 * k)
    && Min(start, target) <= position <= Max(start, target)
    && reported == Min(k, CeilTenth(Abs(target - start)))
    && e.body.movement == (if target > position then Opening else if target < position then Closing else Stopped)
  }

  /**
   * With no commands, k online ticks leave the distance max(0, d - 10k); the curtain is then on its
   * way, never past the target; the ticks that report a change are the first ceil(d / 10) of them;
   * and the movement shown is always the direction of what is left.
   */
  lemma {:induction false} CurtainAfterTicks(d: Device, acts: seq<Act>)
    requires d.body.Curtain? && BodyOk(d.body) && NoCommands(acts)
    ensures DoAll(d, acts).body.Curtain? && DoAll(d, acts).body.targetPosition == d.body.targetPosition
    ensures DoAll(d, acts).body.position ==
            Along(d.body.position, d.body.targetPosition, 10 * OnlineTicks(d, acts))
    ensures Travelled(d, DoAll(d, acts), OnlineTicks(d, acts), ReportedTicks(d, acts))
    decreases |acts|
  {
    hide Moves, Reports, Abs, CeilTenth, Do;
    var start, target := d.body.position, d.body.targetPosition;
    DoAllOk(d, acts);
    if acts == [] {
      Remaining(start, target, 0);
    } else {
      var front, last := acts[..|acts| - 1], acts[|acts| - 1];
      assert last in acts && forall a <- front :: a in acts;
      CurtainAfterTicks(d, front);
      DoAllOk(d, front);
      var k := OnlineTicks(d, front);
      hide Do, Reports;
      CurtainAct(DoAll(d, front), last, start, k);
      Remaining(start, target, k);
      Remaining(start, target, k + 1);
    }
  }

  /** The same of a stretch of a registry run in which nothing commands the curtain. */
  lemma CurtainInRegistry(reg: Reg, ops: seq<Op>, lo: nat, hi: nat, id: string)
    requires RegOk(reg) && SoundRun(reg, ops) && lo <= hi <= |ops|
    requires Present(reg, ops, lo, hi, id) && LeftAlone(reg, ops, lo, hi, id)
    requires id in At(reg, ops, lo).devices && At(reg, ops, lo).devices[id].body.Curtain?
    ensures id in At(reg, ops, hi).devices
    ensures var d := At(reg, ops, lo).devices[id];
            var acts := Trace(reg, ops, lo, hi, id);
      Travelled(d, At(reg, ops, hi).devices[id], OnlineTicks(d, acts), ReportedTicks(d, acts))
  {
    RunOk(reg, ops, lo);
    assert DeviceFits(At(reg, ops, lo), id);
    hide At, LeftAlone, BodyOk;
    QuietTrace(reg, ops, lo, hi, id);
    TraceOfRun(reg, ops, lo, hi, id);
    hide Present, Trace;
    CurtainAfterTicks(At(reg, ops, lo).devices[id], Trace(reg, ops, lo, hi, id));
  }

  /**
   * A curtain that is opened or closed and then left alone gets there: after k online ticks it has covered 10 k percent
   * of the way, and it is fully open or closed exactly from the tick on that makes 10 k the whole distance.
   */
  lemma SentCurtainArrives(reg: Reg, ops: seq<Op>, i: nat, n: nat, id: string)
    requires RegOk(reg) && SoundRun(reg, ops) && i < n <= |ops| && Listed(reg)
    requires ops[i].Command? && ops[i].target == id && ops[i].action in {"open", "close"}
    requires id != "scene-away" && id != "scene-home" && id in At(reg, ops, i).devices
    requires At(reg, ops, i).devices[id].body.Curtain? && Free(At(reg, ops, i).devices[id], ops[i].expected)
    requires Present(reg, ops, i + 1, n, id) && LeftAlone(reg, ops, i + 1, n, id)
    ensures id in At(reg, ops, n).devices
    ensures At(reg, ops, n).devices[id].body.Curtain?
    ensures id in At(reg, ops, i + 1).devices
    ensures var start, here := At(reg, ops, i).devices[id].body.position, At(reg, ops, n).devices[id].body;
            var k := OnlineTicks(At(reg, ops, i + 1).devices[id], Trace(reg, ops, i + 1, n, id));
      && 0 <= start <= 100
      && (ops[i].action == "open" ==>
            here.position == Min(start + 10 * k, 100) && (here.position == 100 <==> 10 * k >= 100 - start))
      && (ops[i].action == "close" ==>
            here.position == Max(start - 10 * k, 0) && (here.position == 0 <==> 10 * k >= start))
  {
    hide At, RegOk, SoundRun, LeftAlone, Commanded, Step, Trace, Present, Travelled, Free, BodyOk;
    CurtainSent(reg, ops, i, id);
    NextAt(reg, ops, i);
    BoundsOf(reg, ops, i + 1, n, id);
    CurtainInRegistry(reg, ops, i + 1, n, id);
    var d, acts := At(reg, ops, i + 1).devices[id], Trace(reg, ops, i + 1, n, id);
    Arrival(d, At(reg, ops, n).devices[id], OnlineTicks(d, acts), ReportedTicks(d, acts));
  }

  /** The command that sends it. */
  lemma CurtainSent(reg: Reg, ops: seq<Op>, i: nat, id: string)
    requires RegOk(reg) && SoundRun(reg, ops) && i < |ops| && Listed(reg)
    requires ops[i].Command? && ops[i].target == id && ops[i].action in {"open", "close"}
    requires id != "scene-away" && id != "scene-home" && id in At(reg, ops, i).devices
    requires At(reg, ops, i).devices[id].body.Curtain? && Free(At(reg, ops, i).devices[id], ops[i].expected)
    ensures id in At(reg, ops, i + 1).devices && At(reg, ops, i + 1).devices[id].body.Curtain?
    ensures var b, c := At(reg, ops, i).devices[id].body, At(reg, ops, i + 1).devices[id].body;
      && 0 <= b.position <= 100 && c.position == b.position
      && c.targetPosition == (if ops[i].action == "open" then 100 else 0)
  {
    var before, op := At(reg, ops, i), ops[i];
    RunOk(reg, ops, i);
    NextAt(reg, ops, i);
    assert DeviceFits(before, id);
    hide At, RegOk, SoundRun, Commanded, Step, Execute, Perform;
    CurtainRange(before.devices[id].body);
    DirectCommand(before, id, op.action, op.payload, op.expected, op.now);
    CurtainCommand(before.devices[id], op.action, op.payload, op.expected, op.now);
  }

  lemma Arrival(d: Device, e: Device, k: nat, reported: nat)
    requires Travelled(d, e, k, reported) && 0 <= d.body.position <= 100
    ensures e.body.Curtain?
    ensures d.body.targetPosition == 100 ==>
              e.body.position == Min(d.body.position + 10 * k, 100)
              && (e.body.position == 100 <==> 10 * k >= 100 - d.body.position)
    ensures d.body.targetPosition == 0 ==>
              e.body.position == Max(d.body.position - 10 * k, 0)
              && (e.body.position == 0 <==> 10 * k >= d.body.position)
  {
  }

  lemma CurtainRange(b: Body)
    requires b.Curtain? && BodyOk(b)
    ensures 0 <= b.position <= 100
  {
  }

  /** The branch of tick for a curtain that stands at its target and is not stopped is never taken. */
  lemma AtTargetMeansStopped(d: Device, acts: seq<Act>)
    requires d.body.Curtain? && BodyOk(d.body)
    ensures var c := DoAll(d, acts).body;
      c.Curtain? && 0 <= c.position <= 100 && 0 <= c.targetPosition <= 100
      && (c.position == c.targetPosition ==> c.movement == Stopped)
  {
    DoAllOk(d, acts);
  }
}
