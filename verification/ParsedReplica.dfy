/**
 * The client of Replica with its parser in front: an update that does not parse is dropped, a snapshot the
 * parser throws on is not installed.  A parsed device stands for the view it was parsed from.
 */
module ParsedReplica {
  import opened Wrappers
  import opened Devices
  import opened Registry
  import opened Operations
  import opened Traces
  import opened Structure
  import opened Versions
  import opened Announcements
  import opened Messages
  import opened Replica
  import opened Returns
  import opened WireFormat
  import DeviceCodec
  import opened SnapshotRuns
  import DeviceParser

  predicate Parses(v: PublicDevice, texts: Texts) {
    DeviceCodec.ParseDevice(Wire(v, texts)).Some?
  }

  predicate Taken(m: Message, texts: Texts) {
    m.Update? ==> Parses(m.view, texts)
  }

  /** The messages that get past the parser. */
  function Accepted(ms: seq<Message>, texts: Texts): seq<Message>
    decreases |ms|
  {
    if ms == [] then []
    else
      Accepted(ms[..|ms| - 1], texts) + if Taken(ms[|ms| - 1], texts) then [ms[|ms| - 1]] else []
  }

  /** The parser throws on the snapshot. */
  predicate Discarded(views: seq<PublicDevice>, texts: Texts) {
    exists v <- views :: DeviceParser.Spoils(DeviceCodec.Record(Wire(v, texts)))
  }

  /** The entries of a snapshot that parse. */
  function Legible(views: seq<PublicDevice>, texts: Texts): (kept: seq<PublicDevice>)
    ensures forall v :: v in kept <==> v in views && Parses(v, texts)
    decreases |views|
  {
    if views == [] then []
    else
      Legible(views[..|views| - 1], texts) + if Parses(views[|views| - 1], texts) then [views[|views| - 1]] else []
  }

  function ReadMoved(reg: Reg, w: World, h: Happening, texts: Texts): World
    requires Listed(reg)
  {
    match h
    case Delivers(k) => if k < |w.sent| && Taken(w.sent[k], texts) then Moved(reg, w, h) else w
    case Installs(k) =>
      if k < |w.fetched| && !Discarded(w.fetched[k], texts) then w.(client := Legible(w.fetched[k], texts)) else w
    case _ => Moved(reg, w, h)
  }

  function ReadHistory(reg: Reg, happenings: seq<Happening>, texts: Texts): World
    requires Listed(reg)
    decreases |happenings|
  {
    if happenings == [] then World([], [], [], [], [])
    else ReadMoved(reg, ReadHistory(reg, happenings[..|happenings| - 1], texts), happenings[|happenings| - 1], texts)
  }

  /** The parser changes nothing but the client. */
  lemma {:induction false} SameGateway(reg: Reg, happenings: seq<Happening>, texts: Texts)
    requires Listed(reg)
    ensures var w := History(reg, happenings);
      ReadHistory(reg, happenings, texts) == w.(client := ReadHistory(reg, happenings, texts).client)
    decreases |happenings|
  {
    hide Received, Broadcast, Legible, Discarded, Taken, Snapshot, After;
    if happenings != [] {
      SameGateway(reg, happenings[..|happenings| - 1], texts);
    }
  }

  lemma NextRead(reg: Reg, happenings: seq<Happening>, texts: Texts, n: nat)
    requires Listed(reg) && n < |happenings|
    ensures ReadHistory(reg, happenings[..n + 1], texts) ==
            ReadMoved(reg, ReadHistory(reg, happenings[..n], texts), happenings[n], texts)
  {
    assert happenings[..n + 1][..n] == happenings[..n];
  }

  lemma AcceptedNext(ms: seq<Message>, m: Message, texts: Texts)
    ensures Accepted([], texts) == []
    ensures Accepted(ms + [m], texts) == Accepted(ms, texts) + if Taken(m, texts) then [m] else []
  {
    assert (ms + [m])[..|ms|] == ms;
  }

  lemma {:induction false} AcceptedAre(ms: seq<Message>, texts: Texts)
    ensures forall m :: m in Accepted(ms, texts) <==> m in ms && Taken(m, texts)
    decreases |ms|
  {
    hide Taken;
    if ms != [] {
      AcceptedAre(ms[..|ms| - 1], texts);
      assert ms == ms[..|ms| - 1] + [ms[|ms| - 1]];
    }
  }

  /** Without an install the list is what the accepted deliveries make of it. */
  lemma {:induction false} ReadReceives(reg: Reg, happenings: seq<Happening>, texts: Texts, lo: nat, hi: nat)
    requires Listed(reg) && lo <= hi <= |happenings| && NoInstall(happenings, lo)
    ensures ReadHistory(reg, happenings[..hi], texts).client ==
            ReceivedAll(ReadHistory(reg, happenings[..lo], texts).client,
                        Accepted(DeliveredSince(reg, happenings, lo, hi), texts))
    decreases hi
  {
    hide History, ReadHistory, Received, Broadcast, ReceivedAll, NoInstall, Accepted, Taken;
    var start := ReadHistory(reg, happenings[..lo], texts).client;
    ReceivedNext(start, [], Removal(""));
    AcceptedNext([], Removal(""), texts);
    if lo != hi {
      assert !happenings[hi - 1].Installs? by { InstallsLater(happenings, lo, hi - 1); }
      ReadReceives(reg, happenings, texts, lo, hi - 1);
      NextRead(reg, happenings, texts, hi - 1);
      SameGateway(reg, happenings[..hi - 1], texts);
      var before, h := History(reg, happenings[..hi - 1]), happenings[hi - 1];
      var given := DeliveredSince(reg, happenings, lo, hi - 1);
      if h.Delivers? && h.k < |before.sent| {
        AcceptedNext(given, before.sent[h.k], texts);
        ReceivedNext(start, Accepted(given, texts), before.sent[h.k]);
        assert Accepted(given, texts) + [] == Accepted(given, texts);
      } else {
        assert given + [] == given;
      }
    }
  }

  /** The view came by message or by snapshot. */
  ghost predicate Came(w: World, v: PublicDevice) {
    Update(v) in w.sent || exists s <- w.fetched :: v in s
  }

  lemma CameLater(v: PublicDevice, before: World, after: World)
    requires Came(before, v) && before.sent <= after.sent && before.fetched <= after.fetched
    ensures Came(after, v)
  {
  }

  lemma {:induction false} ReadEntries(reg: Reg, happenings: seq<Happening>, texts: Texts, n: nat)
    requires Listed(reg) && n <= |happenings|
    ensures forall v <- ReadHistory(reg, happenings[..n], texts).client ::
              Parses(v, texts) && Came(History(reg, happenings[..n]), v)
    decreases n
  {
    hide History, ReadHistory, Received, Broadcast, Parses, Snapshot, Came, After, Discarded;
    if n == 0 {
      assert happenings[..0] == [];
      EmptyRead(reg, texts);
    } else {
      ReadEntries(reg, happenings, texts, n - 1);
      NextRead(reg, happenings, texts, n - 1);
      SameGateway(reg, happenings[..n - 1], texts);
      WorldGrows(reg, happenings, n - 1, n);
      var before, h := History(reg, happenings[..n - 1]), happenings[n - 1];
      var client := ReadHistory(reg, happenings[..n - 1], texts).client;
      if h.Delivers? && h.k < |before.sent| {
        ReceivedEntries(client, before.sent[h.k]);
      }
      forall v <- ReadHistory(reg, happenings[..n], texts).client
        ensures Parses(v, texts) && Came(before, v)
      {
        if v !in client {
          CameNow(before, h, v);
        }
      }
      forall v | Came(before, v) ensures Came(History(reg, happenings[..n]), v) {
        CameLater(v, before, History(reg, happenings[..n]));
      }
    }
  }

  lemma CameNow(w: World, h: Happening, v: PublicDevice)
    requires (h.Delivers? && h.k < |w.sent| && w.sent[h.k] == Update(v))
             || (h.Installs? && h.k < |w.fetched| && v in w.fetched[h.k])
    ensures Came(w, v)
  {
    if h.Installs? { assert w.fetched[h.k] in w.fetched; }
  }

  lemma EmptyRead(reg: Reg, texts: Texts)
    requires Listed(reg)
    ensures ReadHistory(reg, [], texts).client == []
  {
  }

  lemma ReadGenuine(reg: Reg, happenings: seq<Happening>, texts: Texts, n: nat)
    requires SoundHistory(reg, happenings) && n <= |happenings|
    ensures forall v <- ReadHistory(reg, happenings[..n], texts).client ::
              Parses(v, texts) && Genuine(reg, History(reg, happenings).ops, 0, v)
  {
    hide History, ReadHistory, Parses, Genuine, RegOk, SoundRun;
    ReadEntries(reg, happenings, texts, n);
    HistoryGenuine(reg, happenings, n);
    WorldGrows(reg, happenings, n, |happenings|);
    WholeHistory(reg, happenings);
    forall v <- ReadHistory(reg, happenings[..n], texts).client
      ensures Genuine(reg, History(reg, happenings).ops, 0, v)
    {
      GenuineInLonger(reg, History(reg, happenings[..n]).ops, History(reg, happenings).ops, v);
    }
  }

  // ----- the parsed copy of a device

  function ReadCopy(reg: Reg, happenings: seq<Happening>, texts: Texts, n: nat, id: string): Option<PublicDevice>
    requires Listed(reg) && n <= |happenings|
  {
    Copy(ReadHistory(reg, happenings[..n], texts).client, id)
  }

  function ReadSince(reg: Reg, happenings: seq<Happening>, texts: Texts, since: nat, id: string): seq<PublicDevice>
    requires Listed(reg) && since <= |happenings|
  {
    Heard(ReadCopy(reg, happenings, texts, since, id),
          Accepted(DeliveredSince(reg, happenings, since, |happenings|), texts), id)
  }

  lemma ReadHeard(reg: Reg, happenings: seq<Happening>, texts: Texts, since: nat, id: string)
    requires SoundHistory(reg, happenings) && since <= |happenings|
    ensures forall v <- ReadSince(reg, happenings, texts, since, id) ::
              v.id == id && Parses(v, texts) && Genuine(reg, History(reg, happenings).ops, 0, v)
  {
    hide History, ReadHistory, DeliveredSince, Genuine, RegOk, SoundRun, Heard, Parses, Accepted, NeverRemoved;
    var ms := DeliveredSince(reg, happenings, since, |happenings|);
    HeardOfDevice(ReadCopy(reg, happenings, texts, since, id), Accepted(ms, texts), id);
    AcceptedAre(ms, texts);
    ReadGenuine(reg, happenings, texts, since);
    DeliveredTrue(reg, happenings, since, id);
  }

  /** A device that was never removed nor silently written to: behind its parser the client holds the gateway's view
      of it exactly when a message that parsed, or a snapshot that was taken, brought it. */
  lemma ReadCurrentExactly(reg: Reg, happenings: seq<Happening>, texts: Texts, since: nat, id: string)
    requires SoundHistory(reg, happenings) && Undisturbed(reg, History(reg, happenings).ops, id)
    requires since <= |happenings| && NoInstall(happenings, since)
    requires id in After(reg, History(reg, happenings).ops).devices
    ensures var current := Public(After(reg, History(reg, happenings).ops), id);
      Copy(ReadHistory(reg, happenings, texts).client, id) == Some(current) <==>
        current in ReadSince(reg, happenings, texts, since, id)
  {
    hide History, ReadHistory, ReceivedAll, DeliveredSince, After, Public, Undisturbed, RegOk, SoundRun, FirstNewest,
         Heard, Genuine, Accepted, NoInstall;
    var ops := History(reg, happenings).ops;
    var current, heard := Public(After(reg, ops), id), ReadSince(reg, happenings, texts, since, id);
    ReadReceives(reg, happenings, texts, since, |happenings|);
    assert happenings[..|happenings|] == happenings;
    HeldExactly(ReadHistory(reg, happenings[..since], texts).client,
                Accepted(DeliveredSince(reg, happenings, since, |happenings|), texts), id, current);
    ReadHeard(reg, happenings, texts, since, id);
    AtEnd(reg, ops);
    forall v <- heard
      ensures v.stateVersion <= current.stateVersion && (v.stateVersion == current.stateVersion ==> v == current)
    {
      GenuineIsBehind(reg, ops, v, |ops|);
    }
    HighestIsFirstNewest(heard, current);
  }

  // ----- convergence

  lemma {:induction false} HeardAll(before: Option<PublicDevice>, ms: seq<Message>, id: string)
    requires NoRemoval(ms, id)
    ensures before.Some? ==> before.value in Heard(before, ms, id)
    ensures forall v :: Update(v) in ms && v.id == id ==> v in Heard(before, ms, id)
    decreases |ms|
  {
    if ms != [] {
      HeardAll(before, ms[..|ms| - 1], id);
      assert ms == ms[..|ms| - 1] + [ms[|ms| - 1]];
    }
  }

  /** The happening installs a snapshot the parser does not throw on. */
  predicate TakesSnapshot(reg: Reg, happenings: seq<Happening>, texts: Texts, n: nat)
    requires Listed(reg) && n < |happenings|
  {
    InstallsSnapshot(reg, happenings, n)
    && !Discarded(History(reg, happenings[..n]).fetched[happenings[n].k], texts)
  }

  lemma TakenClient(reg: Reg, happenings: seq<Happening>, texts: Texts, last: nat)
    requires Listed(reg) && last < |happenings| && TakesSnapshot(reg, happenings, texts, last)
    ensures var w, k := History(reg, happenings), happenings[last].k;
      && k < |w.fetched| && k < |w.moments| && w.moments[k] <= |w.ops|
      && w.fetched[k] == Snapshot(At(reg, w.ops, w.moments[k]))
      && ReadHistory(reg, happenings[..last + 1], texts).client == Legible(w.fetched[k], texts)
  {
    hide History, ReadHistory, At, Snapshot, Legible, Discarded;
    InstalledClient(reg, happenings, last);
    NextRead(reg, happenings, texts, last);
    SameGateway(reg, happenings[..last], texts);
    WorldGrows(reg, happenings, last, |happenings|);
    WholeHistory(reg, happenings);
  }

  /** What an accepted snapshot shows of a device, if it parses. */
  lemma LegibleCopy(reg: Reg, texts: Texts, id: string)
    requires Listed(reg) && KeysAreIds(reg) && id in reg.devices && Parses(Public(reg, id), texts)
    ensures Copy(Legible(Snapshot(reg), texts), id) == Some(Public(reg, id))
  {
    hide Parses, Public, Legible, Copy;
    var s := Snapshot(reg);
    forall i | 0 <= i < |s| ensures s[i].id == reg.order[i] && s[i] == Public(reg, s[i].id) {
      assert reg.order[i] in reg.devices;
      IdOfView(reg, reg.order[i]);
    }
    var i :| 0 <= i < |reg.order| && reg.order[i] == id;
    assert s[i] in s && s[i] in Legible(s, texts);
  }

  lemma IdOfView(reg: Reg, id: string)
    requires KeysAreIds(reg) && id in reg.devices
    ensures Public(reg, id).id == id
  {
  }

  /**
   * Convergence behind the parser, for a device that was never removed nor silently written to: after a snapshot
   * that was taken, and once every message about the device that was sent since it was read has been delivered,
   * the client holds the device of the gateway's current view exactly when that view parses.
   */
  lemma ReadConverges(reg: Reg, happenings: seq<Happening>, texts: Texts, last: nat, id: string)
    requires SoundHistory(reg, happenings) && Undisturbed(reg, History(reg, happenings).ops, id)
    requires last < |happenings| && TakesSnapshot(reg, happenings, texts, last) && NoInstall(happenings, last + 1)
    requires forall m <- MissingFrom(reg, happenings, last) ::
               About(m) == id ==> m in DeliveredSince(reg, happenings, last + 1, |happenings|)
    requires id in After(reg, History(reg, happenings).ops).devices
    ensures var current := Public(After(reg, History(reg, happenings).ops), id);
      Copy(ReadHistory(reg, happenings, texts).client, id) == Some(current) <==> Parses(current, texts)
  {
    hide History, ReadHistory, DeliveredSince, At, After, Public, RegOk, SoundRun, Heard, Genuine, Accepted, NoInstall,
         Parses, NeverRemoved, SilentlyWrites, Legible, Discarded, Snapshot, SentSince, Copy;
    var w, k := History(reg, happenings), happenings[last].k;
    var ms := DeliveredSince(reg, happenings, last + 1, |happenings|);
    AtEnd(reg, w.ops);
    ReadCurrentExactly(reg, happenings, texts, last + 1, id);
    ReadHeard(reg, happenings, texts, last + 1, id);
    TakenClient(reg, happenings, texts, last);
    var lo := w.moments[k];
    var current := Public(At(reg, w.ops, |w.ops|), id);
    if Parses(current, texts) {
      DeliveredTrue(reg, happenings, last + 1, id);
      AcceptedAre(ms, texts);
      HeardAll(ReadCopy(reg, happenings, texts, last + 1, id), Accepted(ms, texts), id);
      CurrentWasSent(reg, w.ops, lo, |w.ops|, id);
      CurrentHasId(reg, w.ops, id);
      assert About(Update(current)) == id;
      if id in At(reg, w.ops, lo).devices && Public(At(reg, w.ops, lo), id) == current {
        RunOk(reg, w.ops, lo);
        OkKeysAreIds(At(reg, w.ops, lo));
        LegibleCopy(At(reg, w.ops, lo), texts, id);
      }
    }
  }

  // ----- in terms of the gateway

  lemma ParsesWhenReadable(v: PublicDevice, texts: Texts)
    requires TextsOk(texts) && OfDefaultDriver(v)
    ensures Parses(v, texts) <==> Readable(v)
  {
    hide Wire, ClientView, Readable, DeviceCodec.ParseDevice;
    ViewParses(v, texts);
  }

  lemma DiscardedWhenThrows(reg: Reg, texts: Texts)
    requires Listed(reg)
    ensures Discarded(Snapshot(reg), texts) <==> Throws(reg, texts)
  {
    hide Wire, DeviceParser.Spoils, Public;
    var s := Snapshot(reg);
    forall i | 0 <= i < |s| ensures Entries(reg, texts)[i] == DeviceCodec.Record(Wire(s[i], texts)) && s[i] in s {
    }
    if Discarded(s, texts) {
      var v :| v in s && DeviceParser.Spoils(DeviceCodec.Record(Wire(v, texts)));
      var i :| 0 <= i < |s| && s[i] == v;
      assert DeviceParser.Spoils(Entries(reg, texts)[i]);
    }
  }

  lemma ShowableParses(reg: Reg, texts: Texts, id: string)
    requires RegOk(reg) && TextsOk(texts) && id in reg.devices && BuiltinDevice(reg.devices[id])
    requires AllShowable(reg) && VersionsFit(reg)
    ensures Parses(Public(reg, id), texts)
  {
    hide RegOk, TextsOk, Wire, DeviceCodec.ParseDevice, Showable;
    EntrySpoils(reg, id, texts);
    EntryType(Public(reg, id), texts);
    assert Public(reg, id).kind == reg.devices[id].kind;
  }

  lemma BuiltinNotSilent(reg: Reg, ops: seq<Op>, id: string)
    requires Listed(reg) && NeverBlighted(reg, ops)
    requires forall n :: 0 <= n < |ops| && id in At(reg, ops, n).devices ==> BuiltinDevice(At(reg, ops, n).devices[id])
    ensures NoSilentWrites(reg, ops, 0, |ops|, id)
  {
    hide At, SilentWrite, BuiltinDevice;
  }

  /**
   * Over every run of validated requests in which no air conditioner keeps a refused argument the parser is no
   * obstacle: every snapshot is taken, and the client converges to the gateway's devices of the built-in types.
   */
  lemma ValidatedConverges(reg: Reg, happenings: seq<Happening>, texts: Texts, last: nat, id: string)
    requires SoundHistory(reg, happenings) && AllShowable(reg) && TextsOk(texts)
    requires var ops := History(reg, happenings).ops;
      && (forall op <- ops :: ValidOp(op)) && NeverBlighted(reg, ops) && NeverRemoved(reg, ops, id)
      && (forall n :: 0 <= n <= |ops| ==> VersionsFit(At(reg, ops, n)))
      && (forall n :: 0 <= n <= |ops| && id in At(reg, ops, n).devices ==> BuiltinDevice(At(reg, ops, n).devices[id]))
    requires last < |happenings| && InstallsSnapshot(reg, happenings, last) && NoInstall(happenings, last + 1)
    requires forall m <- MissingFrom(reg, happenings, last) ::
               About(m) == id ==> m in DeliveredSince(reg, happenings, last + 1, |happenings|)
    requires id in After(reg, History(reg, happenings).ops).devices
    ensures Copy(ReadHistory(reg, happenings, texts).client, id) ==
            Some(Public(After(reg, History(reg, happenings).ops), id))
  {
    hide History, ReadHistory, DeliveredSince, At, After, Public, RegOk, SoundRun, NoInstall, Parses, NeverRemoved,
         NoSilentWrites, Discarded, Snapshot, Copy, ValidOp, NeverBlighted, VersionsFit, AllShowable, TextsOk, Throws,
         BuiltinDevice;
    var ops := History(reg, happenings).ops;
    BuiltinNotSilent(reg, ops, id);
    InstalledClient(reg, happenings, last);
    var moment := History(reg, happenings).moments[happenings[last].k];
    StaysShowable(reg, ops, moment);
    StaysShowable(reg, ops, |ops|);
    RunOk(reg, ops, moment);
    RunOk(reg, ops, |ops|);
    ThrowsExactly(At(reg, ops, moment), texts);
    DiscardedWhenThrows(At(reg, ops, moment), texts);
    WorldGrows(reg, happenings, last, |happenings|);
    WholeHistory(reg, happenings);
    AtEnd(reg, ops);
    ShowableParses(At(reg, ops, |ops|), texts, id);
    ReadConverges(reg, happenings, texts, last, id);
  }
}
