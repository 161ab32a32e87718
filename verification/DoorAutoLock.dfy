/** The auto-lock of a door: when a tick locks it again after an unlock. */
module DoorAutoLock {
  import opened Wrappers
  import opened Devices
  import opened Registry
  import opened Operations
  import opened Scenes
  import opened Traces
  import opened Structure
  import opened Versions
  import opened Quiet

  /** The door is open and will be locked at the deadline, or the deadline has done its work. */
  predicate Counting(b: Body, deadline: int) {
    b.DoorLock? && !b.locked && b.autoLockEnabled && b.autoLockAt == Some(deadline)
  }

  predicate Relocked(b: Body) {
    b.DoorLock? && b.locked && b.autoLockAt.None?
  }

  predicate Expires(d: Device, a: Act, deadline: int) {
    a.TickAct? && d.online && a.now >= deadline
  }

  lemma UnlockStarts(d: Device, a: Act)
    requires d.body.DoorLock? && BodyOk(d.body)
    requires a.CommandAct? && a.action == "unlock"
    requires Commanded(d, a.action, a.payload, a.expected, a.now).error.None?
    ensures d.body.autoLockEnabled ==>
              Counting(Do(d, a).body, a.now + 1000 * d.body.autoLockDelaySeconds)
    ensures !d.body.autoLockEnabled ==> Do(d, a).body.DoorLock? && Do(d, a).body.autoLockAt.None?
  {
  }

  lemma QuietAct(d: Device, a: Act, deadline: int)
    requires !a.CommandAct?
    ensures Counting(d.body, deadline) ==>
              if Expires(d, a, deadline) then Relocked(Do(d, a).body) else Counting(Do(d, a).body, deadline)
    ensures Relocked(d.body) ==> Relocked(Do(d, a).body)
  {
  }

  // ----- in the registry

  /** A tick of the registry that finds the door online at or after the deadline. */
  predicate ExpiresIn(reg: Reg, op: Op, id: string, deadline: int) {
    op.TickAll? && id in reg.devices && reg.devices[id].online && op.now >= deadline
  }

  lemma QuietStep(reg: Reg, op: Op, id: string, deadline: int)
    requires Listed(reg) && id in reg.devices && id in Step(reg, op).devices && !Commands(reg, op, id)
    ensures var b, c := reg.devices[id].body, Step(reg, op).devices[id].body;
      && (Counting(b, deadline) ==>
            if ExpiresIn(reg, op, id, deadline) then Relocked(c) else Counting(c, deadline))
      && (Relocked(b) ==> Relocked(c))
  {
    hide Step, Perform, Do, ActsOf, Counting, Relocked;
    Projection(reg, op, id);
    QuietOpActs(reg, op, id);
    var acts := ActsOf(reg, op, id);
    if acts != [] {
      assert acts == [acts[0]];
      DoOne(reg.devices[id], acts[0]);
      QuietAct(reg.devices[id], acts[0], deadline);
    }
  }

  ghost predicate ExpiredBetween(reg: Reg, ops: seq<Op>, i: nat, n: nat, id: string, deadline: int)
    requires Listed(reg) && n <= |ops|
  {
    exists k :: i <= k < n && ExpiresIn(At(reg, ops, k), ops[k], id, deadline)
  }

  lemma ExpiredGrows(reg: Reg, ops: seq<Op>, i: nat, n: nat, id: string, deadline: int)
    requires Listed(reg) && i < n <= |ops|
    ensures ExpiredBetween(reg, ops, i, n, id, deadline) <==>
              ExpiredBetween(reg, ops, i, n - 1, id, deadline)
              || ExpiresIn(At(reg, ops, n - 1), ops[n - 1], id, deadline)
  {
    hide At, ExpiresIn;
  }

  lemma {:induction false} LockedExactlyWhenExpired(
    reg: Reg, ops: seq<Op>, i: nat, n: nat, id: string, deadline: int)
    requires Listed(reg) && LeftAlone(reg, ops, i, n, id)
    requires id in At(reg, ops, i).devices && Counting(At(reg, ops, i).devices[id].body, deadline)
    ensures n <= |ops| && id in At(reg, ops, n).devices
    ensures if ExpiredBetween(reg, ops, i, n, id, deadline)
            then Relocked(At(reg, ops, n).devices[id].body)
            else Counting(At(reg, ops, n).devices[id].body, deadline)
    decreases n
  {
    hide At, Step, Perform, LeftAlone, Counting, Relocked, ExpiredBetween, ExpiresIn, Commands;
    LeftAloneFacts(reg, ops, i, n, id);
    BoundsOf(reg, ops, i, n, id);
    if i == n {
      NothingExpired(reg, ops, i, id, deadline);
    } else {
      LockedExactlyWhenExpired(reg, ops, i, n - 1, id, deadline);
      ExpiredGrows(reg, ops, i, n, id, deadline);
      NextAt(reg, ops, n - 1);
      QuietStep(At(reg, ops, n - 1), ops[n - 1], id, deadline);
    }
  }

  lemma NothingExpired(reg: Reg, ops: seq<Op>, i: nat, id: string, deadline: int)
    requires Listed(reg) && i <= |ops|
    ensures !ExpiredBetween(reg, ops, i, i, id, deadline)
  {
  }

  /** Operation i unlocks a door that has auto-lock on. */
  ghost predicate Unlocks(reg: Reg, op: Op, id: string) {
    && id in reg.devices && reg.devices[id].body.DoorLock? && reg.devices[id].body.autoLockEnabled
    && op.Command? && op.target == id && !Scene(id) && op.action == "unlock" && Succeeds(reg, op)
  }

  function Deadline(reg: Reg, op: Op, id: string): int {
    if op.Command? && id in reg.devices && reg.devices[id].body.DoorLock?
    then op.now + 1000 * reg.devices[id].body.autoLockDelaySeconds else 0
  }

  /**
   * Auto-lock: after a successful unlock with auto-lock on, and with no further command to the door,
   * the door is locked at a later moment if and only if some tick since then found it online at or
   * after the unlock time plus the configured delay.
   */
  lemma AutoLocks(reg: Reg, ops: seq<Op>, i: nat, n: nat, id: string)
    requires RegOk(reg) && SoundRun(reg, ops) && i < n <= |ops|
    requires Unlocks(At(reg, ops, i), ops[i], id) && LeftAlone(reg, ops, i + 1, n, id)
    ensures id in At(reg, ops, n).devices && At(reg, ops, n).devices[id].body.DoorLock?
    ensures At(reg, ops, n).devices[id].body.locked <==>
              ExpiredBetween(reg, ops, i + 1, n, id, Deadline(At(reg, ops, i), ops[i], id))
  {
    hide At, Step, Perform, LeftAlone, ExpiredBetween, RegOk, SoundRun, Unlocks, Deadline;
    RunOk(reg, ops, i);
    RegOkListed(reg);
    NextAt(reg, ops, i);
    var before := At(reg, ops, i);
    UnlockInRegistry(before, ops[i], id);
    LockedExactlyWhenExpired(reg, ops, i + 1, n, id, Deadline(before, ops[i], id));
  }

  lemma RegOkDevice(reg: Reg, id: string)
    requires RegOk(reg) && id in reg.devices
    ensures DeviceFits(reg, id)
  {
  }

  lemma UnlockInRegistry(reg: Reg, op: Op, id: string)
    requires RegOk(reg) && Unlocks(reg, op, id)
    ensures id in Step(reg, op).devices
    ensures Counting(Step(reg, op).devices[id].body, Deadline(reg, op, id))
  {
    hide RegCore, HomeDevices, SceneViews, PublicView;
    assert DeviceFits(reg, id) by { RegOkDevice(reg, id); }
    UnlockStarts(reg.devices[id], CommandAct(op.action, op.payload, op.expected, op.now));
  }

  /** In every reachable registry an armed deadline means that auto-lock is on and the door is open. */
  lemma ArmedMeansOpen(reg: Reg, ops: seq<Op>, n: nat, id: string)
    requires RegOk(reg) && SoundRun(reg, ops) && n <= |ops|
    requires id in At(reg, ops, n).devices && At(reg, ops, n).devices[id].body.DoorLock?
    ensures var b := At(reg, ops, n).devices[id].body;
      b.autoLockAt.Some? ==> b.autoLockEnabled && !b.locked
  {
    RunOk(reg, ops, n);
    assert DeviceFits(At(reg, ops, n), id);
  }
}
