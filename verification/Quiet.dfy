/** Stretches of a run in which a device is sent no command. */
module Quiet {
  import opened Wrappers
  import opened Devices
  import opened Registry
  import opened Operations
  import opened Scenes
  import opened Traces

  /** The operation sends the device a command, directly or through a scene that has one for it. */
  ghost predicate Commands(reg: Reg, op: Op, id: string) {
    op.Command? && id in reg.devices &&
    if op.target == "scene-away" then op.action == "executeAway" && AwayOrder(reg.devices[id].kind).Some?
    else if op.target == "scene-home" then op.action == "executeHome" && Planned(HOME_PLANS, id)
    else op.target == id
  }

  lemma {:induction false} NotSentAway(devices: map<string, Device>, order: seq<string>, id: string)
    requires id in devices && AwayOrder(devices[id].kind).None?
    ensures OrdersFor(AwayPlans(devices, order), id) == []
    decreases |order|
  {
    hide AwayOrder;
    if order != [] {
      NotSentAway(devices, order[..|order| - 1], id);
      var before, last := AwayPlans(devices, order[..|order| - 1]), order[|order| - 1];
      if last in devices && AwayOrder(devices[last].kind).Some? {
        assert (before + [Plan(last, [AwayOrder(devices[last].kind).value])])[..|before|] == before;
      }
    }
  }

  lemma QuietOpActs(reg: Reg, op: Op, id: string)
    requires Listed(reg) && id in reg.devices && !Commands(reg, op, id)
    ensures var acts := ActsOf(reg, op, id);
      && |acts| <= 1 && (|acts| == 1 ==> !acts[0].CommandAct?)
      && (op.TickAll? ==> |acts| == 1 && acts[0].TickAct? && acts[0].now == op.now)
      && (!op.TickAll? && |acts| == 1 ==> !acts[0].TickAct?)
  {
    hide AwayOrder, SurroundingsInTick, FindFirst;
    if op.Command? && op.target == "scene-away" {
      if AwayOrder(reg.devices[id].kind).None? {
        NotSentAway(reg.devices, reg.order, id);
      }
    } else if op.Command? && op.target == "scene-home" {
      if !Planned(HOME_PLANS, id) {
        OrdersForUnplanned(HOME_PLANS, id);
      }
    }
  }

  /** The device is there from moment i to moment n and is sent no command in between. */
  ghost predicate LeftAlone(reg: Reg, ops: seq<Op>, i: nat, n: nat, id: string)
    requires Listed(reg)
  {
    && i <= n <= |ops| && Present(reg, ops, i, n, id)
    && (forall k :: i <= k < n ==> !Commands(At(reg, ops, k), ops[k], id))
  }

  lemma LeftAloneFacts(reg: Reg, ops: seq<Op>, i: nat, n: nat, id: string)
    requires Listed(reg) && LeftAlone(reg, ops, i, n, id)
    ensures id in At(reg, ops, i).devices && id in At(reg, ops, n).devices
    ensures i < n ==> LeftAlone(reg, ops, i, n - 1, id)
                       && !Commands(At(reg, ops, n - 1), ops[n - 1], id)
  {
    hide At;
  }

  lemma BoundsOf(reg: Reg, ops: seq<Op>, i: nat, n: nat, id: string)
    requires Listed(reg) && LeftAlone(reg, ops, i, n, id)
    ensures i <= n <= |ops|
  {
  }

  lemma {:induction false} QuietTrace(reg: Reg, ops: seq<Op>, i: nat, n: nat, id: string)
    requires Listed(reg) && i <= n <= |ops| && Present(reg, ops, i, n, id) && LeftAlone(reg, ops, i, n, id)
    ensures forall a <- Trace(reg, ops, i, n, id) :: !a.CommandAct?
    decreases n
  {
    hide At, LeftAlone, ActsOf, Commands;
    LeftAloneFacts(reg, ops, i, n, id);
    if i != n {
      assert id in At(reg, ops, n - 1).devices;
      QuietTrace(reg, ops, i, n - 1, id);
      QuietOpActs(At(reg, ops, n - 1), ops[n - 1], id);
    }
  }
}
