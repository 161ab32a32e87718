/**
 * Devices that are removed, and perhaps registered again under versions that restart at 1: exactly when the
 * client agrees with the gateway about them.
 */
module Returns {
  import opened Wrappers
  import opened Devices
  import opened Registry
  import opened Operations
  import opened Traces
  import opened Structure
  import opened Boot
  import opened Versions
  import opened Announcements
  import opened Messages
  import opened Replica

  /** The client's copy of the device is the gateway's view of it, or both have none. */
  ghost predicate Agrees(reg: Reg, w: World, id: string)
    requires Listed(reg)
  {
    Copy(w.client, id) == if id in After(reg, w.ops).devices then Some(Public(After(reg, w.ops), id)) else None
  }

  function CopyAt(reg: Reg, happenings: seq<Happening>, n: nat, id: string): Option<PublicDevice>
    requires Listed(reg) && n <= |happenings|
  {
    Copy(History(reg, happenings[..n]).client, id)
  }

  /** The views the client has to choose from: the copy it had at a moment, and what it was told since. */
  function HeardSince(reg: Reg, happenings: seq<Happening>, since: nat, id: string): seq<PublicDevice>
    requires Listed(reg) && since <= |happenings|
  {
    Heard(CopyAt(reg, happenings, since, id), DeliveredSince(reg, happenings, since, |happenings|), id)
  }

  lemma ClientSince(reg: Reg, happenings: seq<Happening>, since: nat)
    requires Listed(reg) && since <= |happenings| && NoInstall(happenings, since)
    ensures History(reg, happenings).client ==
            ReceivedAll(History(reg, happenings[..since]).client,
                        DeliveredSince(reg, happenings, since, |happenings|))
  {
    hide History, ReceivedAll, DeliveredSince;
    ClientReceives(reg, happenings, since, |happenings|);
    WholeHistory(reg, happenings);
  }

  // ----- devices the gateway does not have

  /** About a device the gateway does not have, the client agrees exactly when the last message it was given about the
      device is its removal, or it was given none and had no copy. */
  lemma GoneExactly(reg: Reg, happenings: seq<Happening>, since: nat, id: string)
    requires Listed(reg) && since <= |happenings| && NoInstall(happenings, since)
    requires id !in After(reg, History(reg, happenings).ops).devices
    ensures var ms := DeliveredSince(reg, happenings, since, |happenings|);
      Agrees(reg, History(reg, happenings), id) <==>
        EndsRemoved(ms, id) || (Messages.Silent(ms, id) && CopyAt(reg, happenings, since, id).None?)
  {
    hide History, ReceivedAll, DeliveredSince, After, EndsRemoved, Messages.Silent;
    ClientSince(reg, happenings, since);
    AbsentExactly(History(reg, happenings[..since]).client,
                  DeliveredSince(reg, happenings, since, |happenings|), id);
  }

  /** The same from the last snapshot on: the copy it brought is there exactly when the gateway had the device
      when the snapshot was read. */
  lemma GoneSinceSnapshot(reg: Reg, happenings: seq<Happening>, last: nat, id: string)
    requires SoundHistory(reg, happenings) && id !in After(reg, History(reg, happenings).ops).devices
    requires last < |happenings| && InstallsSnapshot(reg, happenings, last) && NoInstall(happenings, last + 1)
    ensures var ms, w := DeliveredSince(reg, happenings, last + 1, |happenings|), History(reg, happenings);
      && happenings[last].k < |w.moments| && w.moments[happenings[last].k] <= |w.ops|
      && (Agrees(reg, w, id) <==>
            EndsRemoved(ms, id)
            || (Messages.Silent(ms, id) && id !in At(reg, w.ops, w.moments[happenings[last].k]).devices))
  {
    hide History, DeliveredSince, At, After, EndsRemoved, Messages.Silent, Snapshot, RegOk, SoundRun, Agrees, NoInstall;
    InstalledClient(reg, happenings, last);
    var w := History(reg, happenings);
    var seen := At(reg, w.ops, w.moments[happenings[last].k]);
    RunOk(reg, w.ops, w.moments[happenings[last].k]);
    OkKeysAreIds(seen);
    SnapshotCopy(seen, id);
    GoneExactly(reg, happenings, last + 1, id);
  }

  // ----- devices the gateway has

  /** About a device the gateway has, in any history at all, the client agrees exactly when the current view is the
      first newest of those it heard. */
  lemma AgreesExactly(reg: Reg, happenings: seq<Happening>, since: nat, id: string)
    requires Listed(reg) && since <= |happenings| && NoInstall(happenings, since)
    requires id in After(reg, History(reg, happenings).ops).devices
    ensures Agrees(reg, History(reg, happenings), id) <==>
            FirstNewest(HeardSince(reg, happenings, since, id), Public(After(reg, History(reg, happenings).ops), id))
  {
    hide History, ReceivedAll, DeliveredSince, After, Public, FirstNewest, Heard, NoInstall;
    ClientSince(reg, happenings, since);
    HeldExactly(History(reg, happenings[..since]).client, DeliveredSince(reg, happenings, since, |happenings|), id,
                Public(After(reg, History(reg, happenings).ops), id));
  }

  lemma {:induction false} HeardOfDevice(before: Option<PublicDevice>, ms: seq<Message>, id: string)
    requires before.Some? ==> before.value.id == id
    ensures forall v <- Heard(before, ms, id) :: v.id == id && (before == Some(v) || Update(v) in ms)
    decreases |ms|
  {
    if ms != [] {
      HeardOfDevice(before, ms[..|ms| - 1], id);
    }
  }

  /** A device that was never removed: the client agrees exactly when it has been given the current view, by message or
      by snapshot. */
  lemma CurrentExactly(reg: Reg, happenings: seq<Happening>, since: nat, id: string)
    requires SoundHistory(reg, happenings) && Undisturbed(reg, History(reg, happenings).ops, id)
    requires since <= |happenings| && NoInstall(happenings, since)
    requires id in After(reg, History(reg, happenings).ops).devices
    ensures Agrees(reg, History(reg, happenings), id) <==>
            Public(After(reg, History(reg, happenings).ops), id) in HeardSince(reg, happenings, since, id)
  {
    hide History, ReceivedAll, DeliveredSince, After, Public, Undisturbed, RegOk, SoundRun, FirstNewest, Heard, Genuine;
    var ops := History(reg, happenings).ops;
    var current, heard := Public(After(reg, ops), id), HeardSince(reg, happenings, since, id);
    AgreesExactly(reg, happenings, since, id);
    HeardGenuine(reg, happenings, since, id);
    AtEnd(reg, ops);
    forall v <- heard
      ensures v.stateVersion <= current.stateVersion && (v.stateVersion == current.stateVersion ==> v == current)
    {
      GenuineIsBehind(reg, ops, v, |ops|);
    }
    HighestIsFirstNewest(heard, current);
  }

  lemma HeardGenuine(reg: Reg, happenings: seq<Happening>, since: nat, id: string)
    requires SoundHistory(reg, happenings) && since <= |happenings|
    ensures forall v <- HeardSince(reg, happenings, since, id) ::
              v.id == id && Genuine(reg, History(reg, happenings).ops, 0, v)
  {
    hide History, DeliveredSince, Genuine, RegOk, SoundRun, Heard;
    HeardOfDevice(CopyAt(reg, happenings, since, id), DeliveredSince(reg, happenings, since, |happenings|), id);
    HistoryGenuine(reg, happenings, since);
    DeliveredTrue(reg, happenings, since, id);
    WorldGrows(reg, happenings, since, |happenings|);
    WholeHistory(reg, happenings);
    forall v | Genuine(reg, History(reg, happenings[..since]).ops, 0, v)
      ensures Genuine(reg, History(reg, happenings).ops, 0, v)
    {
      GenuineInLonger(reg, History(reg, happenings[..since]).ops, History(reg, happenings).ops, v);
    }
  }

  lemma GenuineInLonger(reg: Reg, ops: seq<Op>, more: seq<Op>, v: PublicDevice)
    requires Listed(reg) && ops <= more && Genuine(reg, ops, 0, v)
    ensures Genuine(reg, more, 0, v)
  {
    hide At;
    var n :| 0 <= n <= |ops| && v.id in At(reg, ops, n).devices && v == Public(At(reg, ops, n), v.id);
    SamePast(reg, ops, more, n);
  }

  /** The first position of a view in a list. */
  function FirstAt(views: seq<PublicDevice>, v: PublicDevice): (k: nat)
    requires v in views
    ensures k < |views| && views[k] == v && forall j :: 0 <= j < k ==> views[j] != v
  {
    if views[0] == v then 0 else 1 + FirstAt(views[1..], v)
  }

  lemma HighestIsFirstNewest(views: seq<PublicDevice>, v: PublicDevice)
    requires forall u <- views :: u.stateVersion <= v.stateVersion && (u.stateVersion == v.stateVersion ==> u == v)
    ensures FirstNewest(views, v) <==> v in views
  {
    if v in views {
      var k := FirstAt(views, v);
      assert Wins(views, k);
    }
  }

  // ----- devices that came back

  /** No view of an earlier incarnation keeps the view at position k out. */
  ghost predicate Unblocked(reg: Reg, ops: seq<Op>, lo: nat, heard: seq<PublicDevice>, k: nat)
    requires Listed(reg) && k < |heard|
  {
    && (forall j :: 0 <= j < k && !Genuine(reg, ops, lo, heard[j]) ==> heard[j].stateVersion < heard[k].stateVersion)
    && (forall j :: k < j < |heard| && !Genuine(reg, ops, lo, heard[j]) ==>
          heard[j].stateVersion <= heard[k].stateVersion)
  }

  ghost predicate ComesThrough(reg: Reg, ops: seq<Op>, lo: nat, heard: seq<PublicDevice>, v: PublicDevice)
    requires Listed(reg)
  {
    exists k: nat :: k < |heard| && heard[k] == v && Unblocked(reg, ops, lo, heard, k)
  }

  /** Of the views that are not its own, none before position k is as high and none after it higher. */
  lemma UnblockedIsFirstNewest(heard: seq<PublicDevice>, own: set<PublicDevice>, k: nat)
    requires k < |heard|
    requires forall u <- own :: u.stateVersion <= heard[k].stateVersion
                               && (u.stateVersion == heard[k].stateVersion ==> u == heard[k])
    requires forall j :: 0 <= j < k && heard[j] !in own ==> heard[j].stateVersion < heard[k].stateVersion
    requires forall j :: k < j < |heard| && heard[j] !in own ==> heard[j].stateVersion <= heard[k].stateVersion
    ensures FirstNewest(heard, heard[k])
  {
    var first := FirstAt(heard, heard[k]);
    assert first <= k;
    assert Wins(heard, first);
  }

  lemma ComesThroughExactly(reg: Reg, ops: seq<Op>, lo: nat, heard: seq<PublicDevice>, v: PublicDevice)
    requires Listed(reg)
    requires forall u <- heard :: Genuine(reg, ops, lo, u) ==>
               u.stateVersion <= v.stateVersion && (u.stateVersion == v.stateVersion ==> u == v)
    ensures FirstNewest(heard, v) <==> ComesThrough(reg, ops, lo, heard, v)
  {
    hide Genuine, Listed;
    if FirstNewest(heard, v) {
      var k: nat :| k < |heard| && heard[k] == v && Wins(heard, k);
      assert Unblocked(reg, ops, lo, heard, k);
    }
    if ComesThrough(reg, ops, lo, heard, v) {
      var k: nat :| k < |heard| && heard[k] == v && Unblocked(reg, ops, lo, heard, k);
      hide FirstNewest, Wins;
      var own := set u | u in heard && Genuine(reg, ops, lo, u);
      UnblockedIsFirstNewest(heard, own, k);
    }
  }

  /**
   * The exact law for a device the gateway has, whatever happened to it before: let its present incarnation go
   * back to moment lo.  The client agrees with the gateway exactly when it heard the current view, since the
   * last removal it was told of, and no view of an earlier incarnation that it heard before had a version as
   * high, nor one that it heard after a higher one.
   */
  lemma ReturnedExactly(reg: Reg, happenings: seq<Happening>, since: nat, lo: nat, id: string)
    requires SoundHistory(reg, happenings) && since <= |happenings| && NoInstall(happenings, since)
    requires var ops := History(reg, happenings).ops;
      lo <= |ops| && Present(reg, ops, lo, |ops|, id) && NoSilentWrites(reg, ops, lo, |ops|, id)
    ensures var w := History(reg, happenings);
      && id in After(reg, w.ops).devices
      && (Agrees(reg, w, id) <==>
            ComesThrough(reg, w.ops, lo, HeardSince(reg, happenings, since, id), Public(After(reg, w.ops), id)))
  {
    hide History, ReceivedAll, DeliveredSince, After, At, Public, RegOk, SoundRun, FirstNewest, Heard, Genuine,
         SilentlyWrites, ComesThrough;
    var ops := History(reg, happenings).ops;
    AtEnd(reg, ops);
    var current, heard := Public(At(reg, ops, |ops|), id), HeardSince(reg, happenings, since, id);
    AgreesExactly(reg, happenings, since, id);
    HeardOfDevice(CopyAt(reg, happenings, since, id), DeliveredSince(reg, happenings, since, |happenings|), id);
    forall u <- heard | Genuine(reg, ops, lo, u)
      ensures u.stateVersion <= current.stateVersion && (u.stateVersion == current.stateVersion ==> u == current)
    {
      IncarnationIsBehind(reg, ops, lo, u, |ops|);
    }
    ComesThroughExactly(reg, ops, lo, heard, current);
  }

  // ----- an old copy

  lemma {:induction false} HeardWithoutRemoval(before: Option<PublicDevice>, ms: seq<Message>, id: string)
    requires NoRemoval(ms, id) && before.Some?
    ensures var heard := Heard(before, ms, id);
      && |heard| > 0 && heard[0] == before.value
      && (forall j :: 0 < j < |heard| ==> Update(heard[j]) in ms)
      && (forall m <- ms :: About(m) == id ==> m.Update? && m.view in heard)
    decreases |ms|
  {
    if ms != [] {
      HeardWithoutRemoval(before, ms[..|ms| - 1], id);
      assert ms == ms[..|ms| - 1] + [ms[|ms| - 1]];
    }
  }

  /**
   * A client that still holds a copy from before the device was removed, is told of no removal, and is given
   * views of the present incarnation only, the current one among them, agrees with the gateway exactly when the
   * current version has passed the old copy's; until then it keeps the old copy.
   */
  lemma OldCopyShutsOut(reg: Reg, happenings: seq<Happening>, since: nat, lo: nat, id: string)
    requires SoundHistory(reg, happenings) && since <= |happenings| && NoInstall(happenings, since)
    requires var ops := History(reg, happenings).ops;
      lo <= |ops| && Present(reg, ops, lo, |ops|, id) && NoSilentWrites(reg, ops, lo, |ops|, id)
    requires var copy := CopyAt(reg, happenings, since, id);
      copy.Some? && !Genuine(reg, History(reg, happenings).ops, lo, copy.value)
    requires var ms, ops := DeliveredSince(reg, happenings, since, |happenings|), History(reg, happenings).ops;
      && NoRemoval(ms, id)
      && (forall v :: Update(v) in ms && v.id == id ==> Genuine(reg, ops, lo, v))
      && id in After(reg, ops).devices && Update(Public(After(reg, ops), id)) in ms
    ensures var w, copy := History(reg, happenings), CopyAt(reg, happenings, since, id);
      && (Agrees(reg, w, id) <==> copy.value.stateVersion < Public(After(reg, w.ops), id).stateVersion)
      && (!Agrees(reg, w, id) ==> Copy(w.client, id) == copy)
  {
    hide History, DeliveredSince, After, At, Public, RegOk, SoundRun, Heard, Genuine, SilentlyWrites, NoInstall;
    var ops, copy := History(reg, happenings).ops, CopyAt(reg, happenings, since, id);
    var ms := DeliveredSince(reg, happenings, since, |happenings|);
    AtEnd(reg, ops);
    var current, heard := Public(At(reg, ops, |ops|), id), HeardSince(reg, happenings, since, id);
    HeardWithoutRemoval(copy, ms, id);
    HeardOfDevice(copy, ms, id);
    ReturnedExactly(reg, happenings, since, lo, id);
    CurrentHasId(reg, ops, id);
    assert About(Update(current)) == id;
    assert forall j :: 0 < j < |heard| ==> Genuine(reg, ops, lo, heard[j]);
    if copy.value.stateVersion < current.stateVersion {
      var k := FirstAt(heard, current);
      assert Unblocked(reg, ops, lo, heard, k);
    } else {
      forall j | 0 < j < |heard| ensures heard[j].stateVersion <= copy.value.stateVersion {
        IncarnationIsBehind(reg, ops, lo, heard[j], |ops|);
      }
      assert Wins(heard, 0);
      assert FirstNewest(heard, copy.value);
      ClientSince(reg, happenings, since);
      HeldExactly(History(reg, happenings[..since]).client, ms, id, copy.value);
    }
  }

  lemma CurrentHasId(reg: Reg, ops: seq<Op>, id: string)
    requires RegOk(reg) && SoundRun(reg, ops) && Listed(reg) && id in At(reg, ops, |ops|).devices
    ensures Public(At(reg, ops, |ops|), id).id == id
  {
    RunOk(reg, ops, |ops|);
    hide At, RegOk, SoundRun;
    OkKeysAreIds(At(reg, ops, |ops|));
  }
}
