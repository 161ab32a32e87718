/**
 * One gateway, its channel and one client: the channel delays, drops, repeats and reorders the messages,
 * and snapshots are installed late.  What the client's copy of a device is worth.
 */
module Replica {
  import opened Wrappers
  import opened Devices
  import opened Registry
  import opened Operations
  import opened Traces
  import opened Structure
  import opened Versions
  import opened Announcements
  import opened Messages

  // ----- what the gateway sends

  predicate Removes(reg: Reg, op: Op, id: string) {
    op.Remove? && op.id == id && id in reg.devices && reg.devices[id].removable
  }

  function Updates(views: seq<PublicDevice>): (ms: seq<Message>)
    ensures |ms| == |views|
    ensures forall v :: Update(v) in ms <==> v in views
    ensures forall m <- ms :: m.Update?
  {
    if views == [] then [] else Updates(views[..|views| - 1]) + [Update(views[|views| - 1])]
  }

  /** The messages after one operation: the announced views, or the id of the removed device. */
  function Broadcast(reg: Reg, op: Op): seq<Message>
    requires Listed(reg)
  {
    Updates(Perform(reg, op).announced)
    + if op.Remove? && RemoveProvisioned(reg, op.id).result.Ok?
      then [Removal(RemoveProvisioned(reg, op.id).result.value.id)] else []
  }

  lemma BroadcastMeans(reg: Reg, op: Op)
    requires Listed(reg) && KeysAreIds(reg)
    ensures forall v :: Update(v) in Broadcast(reg, op) <==> v in Perform(reg, op).announced
    ensures forall id :: Removal(id) in Broadcast(reg, op) <==> Removes(reg, op, id)
  {
    hide Perform;
  }

  // ----- views and incarnations

  /** The view of some moment of the run, from the given one on. */
  ghost predicate Genuine(reg: Reg, ops: seq<Op>, lo: nat, v: PublicDevice)
    requires Listed(reg)
  {
    exists n :: lo <= n <= |ops| && v.id in At(reg, ops, n).devices && v == Public(At(reg, ops, n), v.id)
  }

  ghost predicate AllGenuine(reg: Reg, ops: seq<Op>, views: seq<PublicDevice>)
    requires Listed(reg)
  {
    forall v <- views :: Genuine(reg, ops, 0, v)
  }

  ghost predicate NeverRemoved(reg: Reg, ops: seq<Op>, id: string)
    requires Listed(reg)
  {
    forall n :: 0 <= n < |ops| ==> !Removes(At(reg, ops, n), ops[n], id)
  }

  /** The device is never removed and nothing is written silently to it; other devices may do what they like. */
  ghost predicate Undisturbed(reg: Reg, ops: seq<Op>, id: string) {
    RegOk(reg) && SoundRun(reg, ops) && NoSilentWrites(reg, ops, 0, |ops|, id) && NeverRemoved(reg, ops, id)
  }

  lemma StaysUnlessRemoved(reg: Reg, op: Op, id: string)
    requires Listed(reg) && !Removes(reg, op, id) && id in reg.devices
    ensures id in Step(reg, op).devices
  {
    match op
    case Command(target, action, payload, expected, now) =>
      ExecuteListed(reg, target, action, payload, expected, now);
      assert id in reg.devices.Keys;
    case TickAll(now, forecast) =>
      TickListed(reg, now, forecast);
      assert id in reg.devices.Keys;
    case AddDriver(declared) =>
      if DeclarationAcceptable(reg, declared) { RegisteredDevice(reg, declared, id); }
    case _ =>
  }

  lemma {:induction false} StaysUntil(reg: Reg, ops: seq<Op>, lo: nat, hi: nat, id: string)
    requires Listed(reg) && NeverRemoved(reg, ops, id) && lo <= hi <= |ops| && id in At(reg, ops, lo).devices
    ensures id in At(reg, ops, hi).devices
    decreases hi
  {
    hide Step, Perform, At, Removes;
    if lo != hi {
      StaysUntil(reg, ops, lo, hi - 1, id);
      NextAt(reg, ops, hi - 1);
      StaysUnlessRemoved(At(reg, ops, hi - 1), ops[hi - 1], id);
    }
  }

  lemma StaysInRun(reg: Reg, ops: seq<Op>, lo: nat, id: string)
    requires Listed(reg) && NeverRemoved(reg, ops, id) && lo <= |ops| && id in At(reg, ops, lo).devices
    ensures Present(reg, ops, lo, |ops|, id)
  {
    hide At, NeverRemoved;
    forall n | lo <= n <= |ops| ensures id in At(reg, ops, n).devices {
      StaysUntil(reg, ops, lo, n, id);
    }
  }

  /** A view of an incarnation is never ahead of the gateway, and it equals the gateway's view at every moment
      the gateway is at that version. */
  lemma IncarnationIsBehind(reg: Reg, ops: seq<Op>, lo: nat, v: PublicDevice, n: nat)
    requires RegOk(reg) && SoundRun(reg, ops) && lo <= n <= |ops| && Present(reg, ops, lo, |ops|, v.id)
    requires NoSilentWrites(reg, ops, lo, |ops|, v.id) && Genuine(reg, ops, lo, v)
    ensures v.id in At(reg, ops, n).devices && v.id in At(reg, ops, |ops|).devices
    ensures v.stateVersion <= Public(At(reg, ops, |ops|), v.id).stateVersion
    ensures Public(At(reg, ops, n), v.id).stateVersion == v.stateVersion ==> v == Public(At(reg, ops, n), v.id)
  {
    hide At, RegOk, SoundRun, SilentlyWrites, Public;
    RegOkListed(reg);
    var m :| lo <= m <= |ops| && v.id in At(reg, ops, m).devices && v == Public(At(reg, ops, m), v.id);
    VersionNamesView(reg, ops, m, |ops|, v.id);
    if m <= n {
      VersionNamesView(reg, ops, m, n, v.id);
    } else {
      VersionNamesView(reg, ops, n, m, v.id);
    }
  }

  /** The same for every view of a device that is never removed. */
  lemma GenuineIsBehind(reg: Reg, ops: seq<Op>, v: PublicDevice, n: nat)
    requires Undisturbed(reg, ops, v.id) && Genuine(reg, ops, 0, v) && n <= |ops|
    ensures v.id in At(reg, ops, |ops|).devices
    ensures v.stateVersion <= Public(At(reg, ops, |ops|), v.id).stateVersion
    ensures v.id in At(reg, ops, n).devices && Public(At(reg, ops, n), v.id).stateVersion == v.stateVersion
            ==> v == Public(At(reg, ops, n), v.id)
  {
    hide At, RegOk, SoundRun, SilentlyWrites, Public, NeverRemoved;
    RegOkListed(reg);
    var m :| 0 <= m <= |ops| && v.id in At(reg, ops, m).devices && v == Public(At(reg, ops, m), v.id);
    StaysInRun(reg, ops, m, v.id);
    assert Genuine(reg, ops, m, v);
    IncarnationIsBehind(reg, ops, m, v, |ops|);
    if v.id in At(reg, ops, n).devices {
      StaysInRun(reg, ops, n, v.id);
      var first := if m <= n then m else n;
      assert Genuine(reg, ops, first, v);
      IncarnationIsBehind(reg, ops, first, v, n);
    }
  }

  lemma GenuineCoherent(reg: Reg, ops: seq<Op>, a: PublicDevice, b: PublicDevice)
    requires a.id == b.id && a.stateVersion == b.stateVersion && Undisturbed(reg, ops, a.id)
    requires Genuine(reg, ops, 0, a) && Genuine(reg, ops, 0, b)
    ensures a == b
  {
    assert RegOk(reg);
    RegOkListed(reg);
    hide At, Undisturbed, RegOk;
    var n :| 0 <= n <= |ops| && b.id in At(reg, ops, n).devices && b == Public(At(reg, ops, n), b.id);
    GenuineIsBehind(reg, ops, a, n);
  }

  // ----- the channel and the client

  /** sent is every message broadcast so far, fetched every snapshot that was read, moments how many
      operations came before each. */
  datatype World = World(
    ops: seq<Op>,
    sent: seq<Message>,
    fetched: seq<seq<PublicDevice>>,
    moments: seq<nat>,
    client: seq<PublicDevice>)

  /** Any message sent so far may be delivered at any time, again or never; a snapshot is installed some
      time after it was fetched. */
  datatype Happening = GatewayDoes(op: Op) | Delivers(k: nat) | Fetches | Installs(k: nat)

  function Moved(reg: Reg, w: World, h: Happening): World
    requires Listed(reg)
  {
    match h
    case GatewayDoes(op) => w.(ops := w.ops + [op], sent := w.sent + Broadcast(After(reg, w.ops), op))
    case Delivers(k) => if k < |w.sent| then w.(client := Received(w.client, w.sent[k])) else w
    case Fetches =>
      var now := After(reg, w.ops);
      w.(fetched := w.fetched + [Snapshot(now)], moments := w.moments + [|w.ops|])
    case Installs(k) => if k < |w.fetched| then w.(client := w.fetched[k]) else w
  }

  function History(reg: Reg, happenings: seq<Happening>): World
    requires Listed(reg)
    decreases |happenings|
  {
    if happenings == [] then World([], [], [], [], [])
    else Moved(reg, History(reg, happenings[..|happenings| - 1]), happenings[|happenings| - 1])
  }

  lemma NextHistory(reg: Reg, happenings: seq<Happening>, n: nat)
    requires Listed(reg) && n < |happenings|
    ensures History(reg, happenings[..n + 1]) == Moved(reg, History(reg, happenings[..n]), happenings[n])
  {
    assert happenings[..n + 1][..n] == happenings[..n];
  }

  lemma WholeHistory(reg: Reg, happenings: seq<Happening>)
    requires Listed(reg)
    ensures History(reg, happenings[..|happenings|]) == History(reg, happenings)
  {
    assert happenings[..|happenings|] == happenings;
  }

  /** Operations, messages and snapshots are only ever added. */
  lemma {:induction false} WorldGrows(reg: Reg, happenings: seq<Happening>, lo: nat, hi: nat)
    requires Listed(reg) && lo <= hi <= |happenings|
    ensures var v, w := History(reg, happenings[..lo]), History(reg, happenings[..hi]);
            v.ops <= w.ops && v.sent <= w.sent && v.fetched <= w.fetched && v.moments <= w.moments
    decreases hi
  {
    hide History, Received, Broadcast, Snapshot;
    if lo != hi {
      WorldGrows(reg, happenings, lo, hi - 1);
      NextHistory(reg, happenings, hi - 1);
    }
  }

  /** The gateway of the history serves from a well-formed registry. */
  ghost predicate SoundHistory(reg: Reg, happenings: seq<Happening>) {
    && RegOk(reg) && Listed(reg)
    && SoundRun(reg, History(reg, happenings).ops)
    && forall op <- History(reg, happenings).ops :: Served(op)
  }

  lemma SamePast(reg: Reg, ops: seq<Op>, more: seq<Op>, n: nat)
    requires Listed(reg) && n <= |ops| && ops <= more
    ensures At(reg, more, n) == At(reg, ops, n)
  {
    assert more[..n] == ops[..n];
  }

  lemma AtEnd(reg: Reg, ops: seq<Op>)
    requires Listed(reg)
    ensures At(reg, ops, |ops|) == After(reg, ops)
  {
    assert ops[..|ops|] == ops;
  }

  lemma SoundPrefix(reg: Reg, ops: seq<Op>, more: seq<Op>)
    requires Listed(reg) && ops <= more && SoundRun(reg, more)
    ensures SoundRun(reg, ops)
  {
    hide At, SoundOp;
    forall n | 0 <= n < |ops| ensures SoundOp(At(reg, ops, n), ops[n]) {
      SamePast(reg, ops, more, n);
      assert more[n] == ops[n];
    }
  }

  /** Every message is true of some moment, and so is every copy. */
  ghost predicate WorldGenuine(reg: Reg, w: World)
    requires Listed(reg)
  {
    && (forall v :: Update(v) in w.sent ==> Genuine(reg, w.ops, 0, v))
    && (forall id :: Removal(id) in w.sent ==> !NeverRemoved(reg, w.ops, id))
    && AllGenuine(reg, w.ops, w.client)
    && (forall s <- w.fetched :: AllGenuine(reg, w.ops, s))
  }

  lemma GenuineLater(reg: Reg, ops: seq<Op>, op: Op, v: PublicDevice)
    requires Listed(reg) && Genuine(reg, ops, 0, v)
    ensures Genuine(reg, ops + [op], 0, v)
  {
    hide At;
    var n :| 0 <= n <= |ops| && v.id in At(reg, ops, n).devices && v == Public(At(reg, ops, n), v.id);
    SamePast(reg, ops, ops + [op], n);
  }

  lemma RemovedLater(reg: Reg, ops: seq<Op>, op: Op, id: string)
    requires Listed(reg)
    ensures NeverRemoved(reg, ops + [op], id) <==>
            NeverRemoved(reg, ops, id) && !Removes(After(reg, ops), op, id)
  {
    hide At, Removes;
    AtEnd(reg, ops);
    forall n | 0 <= n <= |ops| ensures At(reg, ops + [op], n) == At(reg, ops, n) {
      SamePast(reg, ops, ops + [op], n);
    }
  }

  lemma GenuineNow(reg: Reg, ops: seq<Op>, v: PublicDevice)
    requires Listed(reg) && v.id in After(reg, ops).devices && v == Public(After(reg, ops), v.id)
    ensures Genuine(reg, ops, 0, v)
  {
    assert ops[..|ops|] == ops;
    assert At(reg, ops, |ops|) == After(reg, ops);
  }

  lemma AfterOne(reg: Reg, ops: seq<Op>, op: Op)
    requires Listed(reg)
    ensures After(reg, ops + [op]) == Step(After(reg, ops), op)
  {
    assert (ops + [op])[..|ops|] == ops;
  }

  lemma WorldOperation(reg: Reg, w: World, op: Op)
    requires Listed(reg) && WorldGenuine(reg, w) && RegOk(After(reg, w.ops)) && Served(op)
    ensures WorldGenuine(reg, Moved(reg, w, GatewayDoes(op)))
  {
    AfterOne(reg, w.ops, op);
    AnnouncedAreCurrent(After(reg, w.ops), op);
    OkKeysAreIds(After(reg, w.ops));
    BroadcastMeans(After(reg, w.ops), op);
    hide Step, Perform, Genuine, RegOk, Broadcast, NeverRemoved, Removes;
    var next := Moved(reg, w, GatewayDoes(op));
    forall v | Update(v) in next.sent ensures Genuine(reg, next.ops, 0, v) {
      if Update(v) in w.sent { GenuineLater(reg, w.ops, op, v); }
      else { GenuineNow(reg, next.ops, v); }
    }
    forall id | Removal(id) in next.sent ensures !NeverRemoved(reg, next.ops, id) {
      RemovedLater(reg, w.ops, op, id);
    }
    forall v <- next.client ensures Genuine(reg, next.ops, 0, v) { GenuineLater(reg, w.ops, op, v); }
    forall s <- next.fetched, v <- s ensures Genuine(reg, next.ops, 0, v) { GenuineLater(reg, w.ops, op, v); }
  }

  lemma WorldStep(reg: Reg, w: World, h: Happening)
    requires RegOk(reg) && Listed(reg) && SoundRun(reg, w.ops) && WorldGenuine(reg, w)
    requires h.GatewayDoes? ==> Served(h.op)
    ensures WorldGenuine(reg, Moved(reg, w, h))
  {
    hide RegOk, RegCore, HomeDevices, SoundDeclaration, SoundRun, At, Broadcast, Received;
    var now := After(reg, w.ops);
    AtEnd(reg, w.ops);
    RunOk(reg, w.ops, |w.ops|);
    OkKeysAreIds(now);
    hide Genuine, NeverRemoved;
    match h
    case GatewayDoes(op) => WorldOperation(reg, w, op);
    case Delivers(k) =>
      if k < |w.sent| { ReceivedEntries(w.client, w.sent[k]); }
    case Fetches =>
      forall v <- Snapshot(now) ensures Genuine(reg, w.ops, 0, v) { GenuineNow(reg, w.ops, v); }
    case Installs(k) =>
  }

  lemma EmptyGenuine(reg: Reg)
    requires Listed(reg)
    ensures WorldGenuine(reg, History(reg, []))
  {
  }

  /** Up to any moment the gateway was sound. */
  lemma SoundSoFar(reg: Reg, happenings: seq<Happening>, n: nat)
    requires SoundHistory(reg, happenings) && n <= |happenings|
    ensures SoundRun(reg, History(reg, happenings[..n]).ops)
    ensures n < |happenings| && happenings[n].GatewayDoes? ==> Served(happenings[n].op)
  {
    hide RegOk, SoundRun, Broadcast, Received, Snapshot, Listed, After;
    WholeHistory(reg, happenings);
    WorldGrows(reg, happenings, n, |happenings|);
    if n < |happenings| {
      NextHistory(reg, happenings, n);
      WorldGrows(reg, happenings, n + 1, |happenings|);
    }
    hide History;
    SoundPrefix(reg, History(reg, happenings[..n]).ops, History(reg, happenings).ops);
    if n < |happenings| && happenings[n].GatewayDoes? {
      assert happenings[n].op in History(reg, happenings[..n + 1]).ops;
    }
  }

  lemma {:induction false} HistoryGenuine(reg: Reg, happenings: seq<Happening>, n: nat)
    requires SoundHistory(reg, happenings) && n <= |happenings|
    ensures WorldGenuine(reg, History(reg, happenings[..n]))
    decreases n
  {
    hide RegOk, SoundRun, Listed, History, WorldGenuine, Served;
    if n == 0 {
      assert happenings[..0] == [];
      EmptyGenuine(reg);
    } else {
      HistoryGenuine(reg, happenings, n - 1);
      NextHistory(reg, happenings, n - 1);
      SoundSoFar(reg, happenings, n - 1);
      hide Moved;
      WorldStep(reg, History(reg, happenings[..n - 1]), happenings[n - 1]);
    }
  }

  /**
   * Replica safety: whatever the channel does and whatever happens to other devices, every copy the client holds
   * is a view the gateway had, and for a device that is never removed and never silently written to it is the
   * gateway's view at the copy's version and not ahead of the gateway.
   */
  lemma ReplicaSafe(reg: Reg, happenings: seq<Happening>, v: PublicDevice, n: nat)
    requires SoundHistory(reg, happenings)
    requires v in History(reg, happenings).client && n <= |History(reg, happenings).ops|
    ensures Genuine(reg, History(reg, happenings).ops, 0, v)
    ensures var ops := History(reg, happenings).ops;
      Undisturbed(reg, ops, v.id) ==>
        && v.id in After(reg, ops).devices
        && v.stateVersion <= Public(After(reg, ops), v.id).stateVersion
        && (v.id in At(reg, ops, n).devices && Public(At(reg, ops, n), v.id).stateVersion == v.stateVersion
            ==> v == Public(At(reg, ops, n), v.id))
  {
    hide Genuine, Undisturbed, History, At, RegOk, SoundRun;
    WholeHistory(reg, happenings);
    HistoryGenuine(reg, happenings, |happenings|);
    var ops := History(reg, happenings).ops;
    AtEnd(reg, ops);
    if Undisturbed(reg, ops, v.id) {
      GenuineIsBehind(reg, ops, v, n);
    }
  }

  /** Unless a snapshot is installed or a removal delivered no copy is lost and no version falls. */
  lemma VersionsRise(reg: Reg, w: World, h: Happening, id: string)
    requires Listed(reg) && !h.Installs? && Copy(w.client, id).Some?
    requires h.Delivers? && h.k < |w.sent| ==> w.sent[h.k] != Removal(id)
    ensures AtLeast(Copy(Moved(reg, w, h).client, id), Copy(w.client, id).value.stateVersion)
  {
    if h.Delivers? && h.k < |w.sent| { ReceivedCopy(w.client, w.sent[h.k], id); }
  }

  // ----- convergence

  /** Everything the gateway broadcasts from operation lo on. */
  ghost function SentSince(reg: Reg, ops: seq<Op>, lo: nat, hi: nat): seq<Message>
    requires Listed(reg) && lo <= hi <= |ops|
    decreases hi
  {
    if lo == hi then [] else SentSince(reg, ops, lo, hi - 1) + Broadcast(At(reg, ops, hi - 1), ops[hi - 1])
  }

  lemma {:induction false} CurrentWasSent(reg: Reg, ops: seq<Op>, lo: nat, hi: nat, id: string)
    requires RegOk(reg) && SoundRun(reg, ops) && lo <= hi <= |ops| && (forall op <- ops :: Served(op))
    requires NoSilentWrites(reg, ops, lo, hi, id) && id in At(reg, ops, hi).devices
    ensures (id in At(reg, ops, lo).devices && Public(At(reg, ops, hi), id) == Public(At(reg, ops, lo), id))
            || Update(Public(At(reg, ops, hi), id)) in SentSince(reg, ops, lo, hi)
    decreases hi
  {
    hide At, Step, Perform, RegOk, SoundRun, Broadcast, SilentlyWrites, Public;
    RegOkListed(reg);
    if lo != hi {
      var before, op := At(reg, ops, hi - 1), ops[hi - 1];
      RunOk(reg, ops, hi - 1);
      OkKeysAreIds(before);
      NextAt(reg, ops, hi - 1);
      assert op in ops;
      ChangesAreAnnounced(before, op, id);
      BroadcastMeans(before, op);
      if id in before.devices && Public(Step(before, op), id) == Public(before, id) {
        CurrentWasSent(reg, ops, lo, hi - 1, id);
      }
    }
  }

  /** The copy is a view of the gateway, and never ahead of it. */
  lemma NotAhead(reg: Reg, ops: seq<Op>, client: seq<PublicDevice>, ms: seq<Message>, id: string)
    requires Undisturbed(reg, ops, id) && Listed(reg) && NoRemoval(ms, id)
    requires forall v <- client :: v.id == id ==> Genuine(reg, ops, 0, v)
    requires forall v :: Update(v) in ms && v.id == id ==> Genuine(reg, ops, 0, v)
    ensures var copy, now := Copy(ReceivedAll(client, ms), id), At(reg, ops, |ops|);
      copy.Some? ==>
        && id in now.devices && copy.value.stateVersion <= Public(now, id).stateVersion
        && (copy.value.stateVersion == Public(now, id).stateVersion ==> copy.value == Public(now, id))
  {
    hide At, Undisturbed, Genuine, ReceivedAll, Public;
    ReceivedNewest(client, ms, id);
    var copy := Copy(ReceivedAll(client, ms), id);
    if copy.Some? {
      assert copy.value in client || Update(copy.value) in ms;
      GenuineIsBehind(reg, ops, copy.value, |ops|);
    }
  }

  /** The copy is at least as new as the current view. */
  lemma GivenCurrent(reg: Reg, ops: seq<Op>, lo: nat, client: seq<PublicDevice>, ms: seq<Message>, id: string)
    requires Undisturbed(reg, ops, id) && Listed(reg) && lo <= |ops| && (forall op <- ops :: Served(op))
    requires NoRemoval(ms, id) && id in At(reg, ops, |ops|).devices
    requires id in At(reg, ops, lo).devices ==> AtLeast(Copy(client, id), Public(At(reg, ops, lo), id).stateVersion)
    requires forall m <- SentSince(reg, ops, lo, |ops|) :: About(m) == id ==> m in ms
    ensures AtLeast(Copy(ReceivedAll(client, ms), id), Public(At(reg, ops, |ops|), id).stateVersion)
  {
    hide At, RegOk, SoundRun, ReceivedAll, SilentlyWrites, NeverRemoved, SentSince, Copy, Listed;
    ReceivedNewest(client, ms, id);
    RunOk(reg, ops, |ops|);
    OkKeysAreIds(At(reg, ops, |ops|));
    CurrentWasSent(reg, ops, lo, |ops|, id);
    var current := Public(At(reg, ops, |ops|), id);
    assert current.id == id;
    if Update(current) in SentSince(reg, ops, lo, |ops|) {
      assert About(Update(current)) == id;
    }
  }

  /**
   * Convergence: a client whose copy of a device is at least as new as some moment, and that has since been given
   * every later message about the device in any order, among any other messages, any number of times, holds
   * exactly the gateway's current view of it.
   */
  lemma Converges(reg: Reg, ops: seq<Op>, lo: nat, client: seq<PublicDevice>, ms: seq<Message>, id: string)
    requires Undisturbed(reg, ops, id) && Listed(reg) && lo <= |ops| && (forall op <- ops :: Served(op))
    requires forall v <- client :: v.id == id ==> Genuine(reg, ops, 0, v)
    requires forall v :: Update(v) in ms && v.id == id ==> Genuine(reg, ops, 0, v)
    requires NoRemoval(ms, id)
    requires id in At(reg, ops, lo).devices ==> AtLeast(Copy(client, id), Public(At(reg, ops, lo), id).stateVersion)
    requires forall m <- SentSince(reg, ops, lo, |ops|) :: About(m) == id ==> m in ms
    ensures Copy(ReceivedAll(client, ms), id) ==
            if id in After(reg, ops).devices then Some(Public(After(reg, ops), id)) else None
  {
    hide At, After, Undisturbed, RegOk, SoundRun, Genuine, ReceivedAll, SentSince, Copy, Public;
    AtEnd(reg, ops);
    NotAhead(reg, ops, client, ms, id);
    if id in At(reg, ops, |ops|).devices {
      GivenCurrent(reg, ops, lo, client, ms, id);
    }
  }

  // ----- convergence in a history

  /** What the client was given between two moments of a history, in the order of delivery. */
  function DeliveredSince(reg: Reg, happenings: seq<Happening>, lo: nat, hi: nat): seq<Message>
    requires Listed(reg) && lo <= hi <= |happenings|
    decreases hi
  {
    if lo == hi then []
    else
      var before, h := History(reg, happenings[..hi - 1]), happenings[hi - 1];
      DeliveredSince(reg, happenings, lo, hi - 1)
      + if h.Delivers? && h.k < |before.sent| then [before.sent[h.k]] else []
  }

  predicate NoInstall(happenings: seq<Happening>, lo: nat) {
    forall n :: lo <= n < |happenings| ==> !happenings[n].Installs?
  }

  lemma InstallsLater(happenings: seq<Happening>, lo: nat, n: nat)
    requires NoInstall(happenings, lo) && lo <= n < |happenings|
    ensures !happenings[n].Installs?
  {
  }

  /** Without an install the client's list is what the deliveries make of it. */
  lemma {:induction false} ClientReceives(reg: Reg, happenings: seq<Happening>, lo: nat, hi: nat)
    requires Listed(reg) && lo <= hi <= |happenings| && NoInstall(happenings, lo)
    ensures History(reg, happenings[..hi]).client ==
            ReceivedAll(History(reg, happenings[..lo]).client, DeliveredSince(reg, happenings, lo, hi))
    decreases hi
  {
    hide History, Received, Broadcast, ReceivedAll, NoInstall;
    ReceivedNext(History(reg, happenings[..lo]).client, [], Removal(""));
    if lo != hi {
      assert !happenings[hi - 1].Installs? by { InstallsLater(happenings, lo, hi - 1); }
      ClientReceives(reg, happenings, lo, hi - 1);
      NextHistory(reg, happenings, hi - 1);
      var before, h := History(reg, happenings[..hi - 1]), happenings[hi - 1];
      var given := DeliveredSince(reg, happenings, lo, hi - 1);
      if h.Delivers? && h.k < |before.sent| {
        ReceivedNext(History(reg, happenings[..lo]).client, given, before.sent[h.k]);
      } else {
        assert given + [] == given;
      }
    }
  }

  lemma {:induction false} DeliveredWasSent(reg: Reg, happenings: seq<Happening>, lo: nat, hi: nat)
    requires Listed(reg) && lo <= hi <= |happenings|
    ensures forall m <- DeliveredSince(reg, happenings, lo, hi) :: m in History(reg, happenings[..hi]).sent
    decreases hi
  {
    hide History;
    if lo != hi {
      DeliveredWasSent(reg, happenings, lo, hi - 1);
      WorldGrows(reg, happenings, hi - 1, hi);
    }
  }

  /** A snapshot shows the gateway at its moment. */
  ghost predicate Dated(reg: Reg, w: World)
    requires Listed(reg)
  {
    && |w.moments| == |w.fetched|
    && forall k :: 0 <= k < |w.fetched| ==>
         w.moments[k] <= |w.ops| && w.fetched[k] == Snapshot(At(reg, w.ops, w.moments[k]))
  }

  lemma {:induction false} AlwaysDated(reg: Reg, happenings: seq<Happening>, n: nat)
    requires Listed(reg) && n <= |happenings|
    ensures Dated(reg, History(reg, happenings[..n]))
    decreases n
  {
    hide History, Snapshot, At, Broadcast, Received;
    if n == 0 {
      assert happenings[..0] == [];
      EmptyDated(reg);
    } else {
      AlwaysDated(reg, happenings, n - 1);
      NextHistory(reg, happenings, n - 1);
      var v, w := History(reg, happenings[..n - 1]), History(reg, happenings[..n]);
      forall k | 0 <= k < |v.fetched|
        ensures At(reg, w.ops, v.moments[k]) == At(reg, v.ops, v.moments[k])
      {
        SamePast(reg, v.ops, w.ops, v.moments[k]);
      }
      if happenings[n - 1].Fetches? {
        AtEnd(reg, v.ops);
      }
    }
  }

  lemma EmptyDated(reg: Reg)
    requires Listed(reg)
    ensures Dated(reg, History(reg, []))
  {
  }

  /** The copy of a device in a snapshot. */
  lemma SnapshotCopy(reg: Reg, id: string)
    requires Listed(reg) && KeysAreIds(reg)
    ensures Copy(Snapshot(reg), id) == if id in reg.devices then Some(Public(reg, id)) else None
  {
    var s := Snapshot(reg);
    forall i | 0 <= i < |s| ensures s[i].id == reg.order[i] && s[i] == Public(reg, s[i].id) {
      assert reg.order[i] in reg.devices;
    }
    if id in reg.devices {
      var i :| 0 <= i < |reg.order| && reg.order[i] == id;
      assert s[i].id == id && s[i] in s;
    }
  }

  /** The happening installs a snapshot that was read before. */
  predicate InstallsSnapshot(reg: Reg, happenings: seq<Happening>, n: nat)
    requires Listed(reg) && n < |happenings|
  {
    happenings[n].Installs? && happenings[n].k < |History(reg, happenings[..n]).fetched|
  }

  /** What is installed is the snapshot of a moment that has passed. */
  lemma InstalledClient(reg: Reg, happenings: seq<Happening>, last: nat)
    requires Listed(reg) && last < |happenings| && InstallsSnapshot(reg, happenings, last)
    ensures var w, k := History(reg, happenings), happenings[last].k;
            && k < |w.fetched| && k < |w.moments| && w.moments[k] <= |w.ops|
            && w.fetched[k] == Snapshot(At(reg, w.ops, w.moments[k]))
            && History(reg, happenings[..last + 1]).client == w.fetched[k]
  {
    hide History, At, Snapshot;
    NextHistory(reg, happenings, last);
    WorldGrows(reg, happenings, last, |happenings|);
    WholeHistory(reg, happenings);
    AlwaysDated(reg, happenings, |happenings|);
  }

  /** Everything sent since the snapshot that is installed at moment n was read. */
  ghost function MissingFrom(reg: Reg, happenings: seq<Happening>, n: nat): seq<Message>
    requires Listed(reg) && n < |happenings| && InstallsSnapshot(reg, happenings, n)
  {
    InstalledClient(reg, happenings, n);
    var w := History(reg, happenings);
    SentSince(reg, w.ops, w.moments[happenings[n].k], |w.ops|)
  }

  /** In a sound history the client is only ever told of a removal that took place. */
  lemma DeliveredTrue(reg: Reg, happenings: seq<Happening>, lo: nat, id: string)
    requires SoundHistory(reg, happenings) && lo <= |happenings|
    ensures var ms, ops := DeliveredSince(reg, happenings, lo, |happenings|), History(reg, happenings).ops;
      && (forall v :: Update(v) in ms ==> Genuine(reg, ops, 0, v))
      && (NeverRemoved(reg, ops, id) ==> NoRemoval(ms, id))
  {
    hide History, DeliveredSince, Genuine, NeverRemoved, RegOk, SoundRun;
    WholeHistory(reg, happenings);
    HistoryGenuine(reg, happenings, |happenings|);
    DeliveredWasSent(reg, happenings, lo, |happenings|);
  }

  /**
   * Convergence of the client in any history: take the last snapshot it installed.  If every message about a device
   * that was sent since that snapshot was read has been delivered since it was installed, in whatever order, among
   * whatever other deliveries, then the client holds exactly the gateway's current view of the device.
   */
  lemma HistoryConverges(reg: Reg, happenings: seq<Happening>, last: nat, id: string)
    requires SoundHistory(reg, happenings) && Undisturbed(reg, History(reg, happenings).ops, id)
    requires last < |happenings| && InstallsSnapshot(reg, happenings, last) && NoInstall(happenings, last + 1)
    requires forall m <- MissingFrom(reg, happenings, last) ::
               About(m) == id ==> m in DeliveredSince(reg, happenings, last + 1, |happenings|)
    ensures var w := History(reg, happenings);
            Copy(w.client, id) ==
            if id in After(reg, w.ops).devices then Some(Public(After(reg, w.ops), id)) else None
  {
    hide History, ReceivedAll, At, After, SentSince, DeliveredSince, Genuine, Snapshot, Public, Copy, NeverRemoved,
         RegOk, SoundRun, SilentlyWrites;
    var n := |happenings|;
    WholeHistory(reg, happenings);
    var w, k := History(reg, happenings), happenings[last].k;
    InstalledClient(reg, happenings, last);
    ClientReceives(reg, happenings, last + 1, n);
    HistoryGenuine(reg, happenings, n);
    DeliveredTrue(reg, happenings, last + 1, id);
    assert w.fetched[k] in w.fetched;
    var lo := w.moments[k];
    RunOk(reg, w.ops, lo);
    OkKeysAreIds(At(reg, w.ops, lo));
    SnapshotCopy(At(reg, w.ops, lo), id);
    Converges(reg, w.ops, lo, w.fetched[k], DeliveredSince(reg, happenings, last + 1, n), id);
  }
}
