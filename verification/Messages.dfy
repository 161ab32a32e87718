/**
 * The client's list of devices under the gateway's messages: updates are merged under a version gate,
 * removals filter.  What a list holds of one device after any messages in any order.
 */
module Messages {
  import opened Wrappers
  import opened Devices

  datatype Message = Update(view: PublicDevice) | Removal(deviceId: string)

  function About(m: Message): string {
    if m.Update? then m.view.id else m.deviceId
  }

  /** applyDevice: the newer of two copies stays, an unknown device goes to the end. */
  function Merged(devices: seq<PublicDevice>, incoming: PublicDevice): seq<PublicDevice> {
    var kept := seq(|devices|, i requires 0 <= i < |devices| =>
      if devices[i].id == incoming.id && incoming.stateVersion > devices[i].stateVersion
      then incoming else devices[i]);
    if exists d <- devices :: d.id == incoming.id then kept else kept + [incoming]
  }

  /** Every entry of the device is filtered out. */
  function WithoutDevice(devices: seq<PublicDevice>, id: string): seq<PublicDevice> {
    if devices == [] then []
    else
      var last := devices[|devices| - 1];
      WithoutDevice(devices[..|devices| - 1], id) + if last.id == id then [] else [last]
  }

  /** onGatewayMessage, for the two messages that change the list. */
  function Received(devices: seq<PublicDevice>, m: Message): seq<PublicDevice> {
    match m
    case Update(view) => Merged(devices, view)
    case Removal(id) => WithoutDevice(devices, id)
  }

  function ReceivedAll(devices: seq<PublicDevice>, ms: seq<Message>): seq<PublicDevice>
    decreases |ms|
  {
    if ms == [] then devices
    else Received(ReceivedAll(devices, ms[..|ms| - 1]), ms[|ms| - 1])
  }

  lemma ReceivedNext(devices: seq<PublicDevice>, ms: seq<Message>, m: Message)
    ensures ReceivedAll(devices, []) == devices
    ensures ReceivedAll(devices, ms + [m]) == Received(ReceivedAll(devices, ms), m)
  {
    assert (ms + [m])[..|ms|] == ms;
  }

  /** getDeviceById: the first entry with the id. */
  function Copy(devices: seq<PublicDevice>, id: string): (c: Option<PublicDevice>)
    ensures c.Some? ==> c.value in devices && c.value.id == id
    ensures c.None? ==> forall d <- devices :: d.id != id
  {
    if devices == [] then None
    else if devices[0].id == id then Some(devices[0])
    else Copy(devices[1..], id)
  }

  function Newer(current: Option<PublicDevice>, incoming: PublicDevice): Option<PublicDevice> {
    if current.Some? && incoming.stateVersion <= current.value.stateVersion then current else Some(incoming)
  }

  // ----- one message and one copy

  lemma {:induction false} CopyAppended(devices: seq<PublicDevice>, last: PublicDevice, id: string)
    ensures Copy(devices + [last], id) ==
            if Copy(devices, id).Some? then Copy(devices, id) else if last.id == id then Some(last) else None
  {
    if devices == [] {
    } else {
      assert (devices + [last])[1..] == devices[1..] + [last];
      CopyAppended(devices[1..], last, id);
    }
  }

  /** Replacing entries by entries with the same id. */
  lemma {:induction false} CopyReplaced(
    devices: seq<PublicDevice>, kept: seq<PublicDevice>, incoming: PublicDevice, id: string)
    requires |kept| == |devices|
    requires forall i :: 0 <= i < |devices| ==>
      kept[i] == (if devices[i].id == incoming.id && incoming.stateVersion > devices[i].stateVersion
                  then incoming else devices[i])
    ensures Copy(kept, id) ==
            if id == incoming.id && Copy(devices, id).Some? then Newer(Copy(devices, id), incoming)
            else Copy(devices, id)
  {
    if devices == [] {
    } else {
      assert kept[0].id == devices[0].id;
      CopyReplaced(devices[1..], kept[1..], incoming, id);
    }
  }

  lemma MergedCopy(devices: seq<PublicDevice>, incoming: PublicDevice, id: string)
    ensures Copy(Merged(devices, incoming), id) ==
            if id == incoming.id then Newer(Copy(devices, id), incoming) else Copy(devices, id)
  {
    var kept := seq(|devices|, i requires 0 <= i < |devices| =>
      if devices[i].id == incoming.id && incoming.stateVersion > devices[i].stateVersion
      then incoming else devices[i]);
    CopyReplaced(devices, kept, incoming, id);
    if !(exists d <- devices :: d.id == incoming.id) {
      CopyAppended(kept, incoming, id);
    } else {
      assert Merged(devices, incoming) == kept;
    }
  }

  lemma {:induction false} FilteredCopy(devices: seq<PublicDevice>, removed: string, id: string)
    ensures Copy(WithoutDevice(devices, removed), id) == if id == removed then None else Copy(devices, id)
  {
    if devices != [] {
      var front, last := devices[..|devices| - 1], devices[|devices| - 1];
      FilteredCopy(front, removed, id);
      CopyAppended(WithoutDevice(front, removed), last, id);
      CopyAppended(front, last, id);
      assert devices == front + [last];
      assert WithoutDevice(front, removed) + [] == WithoutDevice(front, removed);
    }
  }

  /** What one message does to the copy of one device. */
  lemma ReceivedCopy(devices: seq<PublicDevice>, m: Message, id: string)
    ensures Copy(Received(devices, m), id) ==
            if About(m) != id then Copy(devices, id)
            else if m.Update? then Newer(Copy(devices, id), m.view) else None
  {
    hide Merged, WithoutDevice, Copy;
    match m
    case Update(view) => MergedCopy(devices, view, id);
    case Removal(removed) => FilteredCopy(devices, removed, id);
  }

  lemma {:induction false} ReceivedEntries(devices: seq<PublicDevice>, m: Message)
    ensures forall v <- Received(devices, m) :: v in devices || m == Update(v)
  {
    if m.Removal? && devices != [] {
      ReceivedEntries(devices[..|devices| - 1], m);
    }
  }

  // ----- any messages

  /** The views of the device the list has to choose from: its own copy and the updates, as far as no
      removal of the device came after them; oldest first. */
  function Heard(before: Option<PublicDevice>, ms: seq<Message>, id: string): seq<PublicDevice>
    decreases |ms|
  {
    if ms == [] then (if before.Some? then [before.value] else [])
    else
      var front, last := Heard(before, ms[..|ms| - 1], id), ms[|ms| - 1];
      if About(last) != id then front else if last.Update? then front + [last.view] else []
  }

  /** No earlier view has that version, and no later one a higher version. */
  predicate Wins(views: seq<PublicDevice>, k: nat)
    requires k < |views|
  {
    && (forall j :: 0 <= j < k ==> views[j].stateVersion < views[k].stateVersion)
    && (forall j :: k < j < |views| ==> views[j].stateVersion <= views[k].stateVersion)
  }

  /** The first of the views with the highest version. */
  predicate FirstNewest(views: seq<PublicDevice>, v: PublicDevice) {
    exists k: nat :: k < |views| && views[k] == v && Wins(views, k)
  }

  lemma WinsNext(views: seq<PublicDevice>, k: nat, last: PublicDevice)
    requires k < |views| && Wins(views, k)
    ensures last.stateVersion <= views[k].stateVersion ==> Wins(views + [last], k)
    ensures last.stateVersion > views[k].stateVersion ==> Wins(views + [last], |views|)
  {
    assert forall j :: 0 <= j < |views| ==> views[j].stateVersion <= views[k].stateVersion;
  }

  /** The law of the list: after any messages the copy of a device is the first newest view heard of it since its
      last removal, and there is none exactly when nothing was heard. */
  lemma {:induction false} CopyIsNewestHeard(devices: seq<PublicDevice>, ms: seq<Message>, id: string)
    ensures var copy, heard := Copy(ReceivedAll(devices, ms), id), Heard(Copy(devices, id), ms, id);
      && (copy.None? <==> heard == [])
      && (copy.Some? ==> FirstNewest(heard, copy.value))
    decreases |ms|
  {
    hide Received, Copy, FirstNewest;
    if ms == [] {
      if Copy(devices, id).Some? { NewestOfOne(Copy(devices, id).value); }
    } else {
      var front, last := ms[..|ms| - 1], ms[|ms| - 1];
      CopyIsNewestHeard(devices, front, id);
      ReceivedCopy(ReceivedAll(devices, front), last, id);
      var before, earlier := Copy(ReceivedAll(devices, front), id), Heard(Copy(devices, id), front, id);
      if About(last) == id && last.Update? {
        if before.Some? {
          NewestNext(earlier, before.value, last.view);
        } else {
          NewestOfOne(last.view);
          assert earlier + [last.view] == [last.view];
        }
      }
    }
  }

  lemma NewestNext(views: seq<PublicDevice>, v: PublicDevice, last: PublicDevice)
    requires FirstNewest(views, v)
    ensures FirstNewest(views + [last], if last.stateVersion <= v.stateVersion then v else last)
  {
    var k: nat :| k < |views| && views[k] == v && Wins(views, k);
    WinsNext(views, k, last);
    hide Wins;
    var more := views + [last];
    assert more[k] == v && more[|views|] == last;
  }

  lemma NewestOfOne(v: PublicDevice)
    ensures FirstNewest([v], v)
  {
    assert [v][0] == v && Wins([v], 0);
  }

  lemma OneNewest(views: seq<PublicDevice>, v: PublicDevice, w: PublicDevice)
    requires FirstNewest(views, v) && FirstNewest(views, w)
    ensures v == w
  {
    var j: nat :| j < |views| && views[j] == v && Wins(views, j);
    var k: nat :| k < |views| && views[k] == w && Wins(views, k);
    assert j == k;
  }

  /** The list holds a view exactly when it is the first newest of those heard. */
  lemma HeldExactly(devices: seq<PublicDevice>, ms: seq<Message>, id: string, v: PublicDevice)
    ensures Copy(ReceivedAll(devices, ms), id) == Some(v) <==> FirstNewest(Heard(Copy(devices, id), ms, id), v)
  {
    CopyIsNewestHeard(devices, ms, id);
    var copy, heard := Copy(ReceivedAll(devices, ms), id), Heard(Copy(devices, id), ms, id);
    if FirstNewest(heard, v) {
      assert heard != [];
      OneNewest(heard, copy.value, v);
    }
  }

  /** The last message about the device is its removal. */
  predicate EndsRemoved(ms: seq<Message>, id: string) {
    exists k :: 0 <= k < |ms| && ms[k] == Removal(id) && forall j :: k < j < |ms| ==> About(ms[j]) != id
  }

  predicate Silent(ms: seq<Message>, id: string) {
    forall m <- ms :: About(m) != id
  }

  lemma EndsRemovedNext(front: seq<Message>, last: Message, id: string)
    ensures EndsRemoved(front + [last], id) <==>
            last == Removal(id) || (About(last) != id && EndsRemoved(front, id))
  {
    var ms := front + [last];
    if last == Removal(id) {
      assert ms[|front|] == Removal(id);
    } else if About(last) != id && EndsRemoved(front, id) {
      var k :| 0 <= k < |front| && front[k] == Removal(id) && forall j :: k < j < |front| ==> About(front[j]) != id;
      assert ms[k] == Removal(id);
    }
    if EndsRemoved(ms, id) {
      var k :| 0 <= k < |ms| && ms[k] == Removal(id) && forall j :: k < j < |ms| ==> About(ms[j]) != id;
      if k < |front| {
        assert About(ms[|front|]) != id;
        assert front[k] == Removal(id);
        assert forall j :: k < j < |front| ==> front[j] == ms[j];
      }
    }
  }

  lemma {:induction false} HeardNothing(before: Option<PublicDevice>, ms: seq<Message>, id: string)
    ensures Heard(before, ms, id) == [] <==> EndsRemoved(ms, id) || (Silent(ms, id) && before.None?)
    decreases |ms|
  {
    if ms == [] {
    } else {
      hide EndsRemoved;
      var front, last := ms[..|ms| - 1], ms[|ms| - 1];
      HeardNothing(before, front, id);
      assert ms == front + [last];
      EndsRemovedNext(front, last, id);
    }
  }

  /** After any messages the list has no copy of a device exactly when the last message about it was its removal, or
      there was none and it had no copy before. */
  lemma AbsentExactly(devices: seq<PublicDevice>, ms: seq<Message>, id: string)
    ensures Copy(ReceivedAll(devices, ms), id).None? <==>
            EndsRemoved(ms, id) || (Silent(ms, id) && Copy(devices, id).None?)
  {
    hide Copy, ReceivedAll, Heard, EndsRemoved, Silent;
    CopyIsNewestHeard(devices, ms, id);
    HeardNothing(Copy(devices, id), ms, id);
  }

  // ----- without a removal

  predicate NoRemoval(ms: seq<Message>, id: string) {
    Removal(id) !in ms
  }

  predicate AtLeast(copy: Option<PublicDevice>, version: int) {
    copy.Some? && copy.value.stateVersion >= version
  }

  /** However many messages and in whatever order: without a removal of the device its copy is the newest of
      the old copy and the updates. */
  lemma {:induction false} ReceivedNewest(devices: seq<PublicDevice>, ms: seq<Message>, id: string)
    requires NoRemoval(ms, id)
    ensures var before, after := Copy(devices, id), Copy(ReceivedAll(devices, ms), id);
      && (after.Some? ==> after.value.id == id && (after == before || Update(after.value) in ms))
      && (before.Some? ==> AtLeast(after, before.value.stateVersion))
      && (forall m <- ms :: About(m) == id ==> m.Update? && AtLeast(after, m.view.stateVersion))
    decreases |ms|
  {
    hide Received, Copy;
    if ms != [] {
      var front, last := ms[..|ms| - 1], ms[|ms| - 1];
      ReceivedNewest(devices, front, id);
      ReceivedCopy(ReceivedAll(devices, front), last, id);
      assert ms == front + [last];
      assert last in ms;
    }
  }

  /** Views of the device with the same version are the same view. */
  ghost predicate Coherent(devices: seq<PublicDevice>, ms: seq<Message>, id: string) {
    forall a, b ::
      (a in devices || Update(a) in ms) && (b in devices || Update(b) in ms)
      && a.id == b.id == id && a.stateVersion == b.stateVersion ==>
        a == b
  }

  /** Confluence: two deliveries with the same updates of a device and no removal of it, whatever the order, the
      repetitions and the other messages, leave the same copy of it. */
  lemma OrderDoesNotMatter(devices: seq<PublicDevice>, a: seq<Message>, b: seq<Message>, id: string)
    requires Coherent(devices, a, id) && NoRemoval(a, id)
    requires forall m: Message :: About(m) == id ==> (m in a <==> m in b)
    ensures Copy(ReceivedAll(devices, a), id) == Copy(ReceivedAll(devices, b), id)
  {
    assert About(Removal(id)) == id;
    ReceivedNewest(devices, a, id);
    ReceivedNewest(devices, b, id);
    hide Copy, ReceivedAll;
    var x, y := Copy(ReceivedAll(devices, a), id), Copy(ReceivedAll(devices, b), id);
    assert x.Some? ==> Update(x.value) in a ==> About(Update(x.value)) == id;
    assert y.Some? ==> Update(y.value) in b ==> About(Update(y.value)) == id;
  }
}
