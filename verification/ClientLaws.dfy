/** What every event means to the client's commands, told from the client before it. */
module ClientLaws {
  import opened Lists
  import opened Devices
  import opened ClientCommands
  import opened Messages

  // ----- commands, one at a time

  /** A submission goes out exactly online and for a device that waits for nothing; else nothing happens. */
  lemma Submission(c: Client, send: int, deviceId: string, action: string, now: int)
    requires EventOk(c, Begin(send, deviceId, action), now)
    ensures var n := Step(c, Begin(send, deviceId, action), now);
      && (send in n.sends <==> c.connection == Online && deviceId !in c.pending)
      && (send !in n.sends ==> n == c)
      && (send in n.sends ==>
            && n.sends[send] == Send(deviceId, action) && n.pending == c.pending + [deviceId]
            && n == c.(sends := n.sends, pending := n.pending)
            && forall s :: s != send ==> (s in n.sends <==> s in c.sends)
                                         && (s in c.sends ==> n.sends[s] == c.sends[s]))
  {
  }

  /** Two maps agree but for one key. */
  predicate SameBut<T(==), V(==)>(m: map<T, V>, n: map<T, V>, key: T) {
    m - {key} == n - {key}
  }

  /** A send that went through becomes a message of its device and action, with five seconds to be answered. */
  lemma SendWentThrough(c: Client, send: int, messageId: string, timer: int, now: int)
    requires EventOk(c, Sent(send, messageId, timer), now)
    ensures var n := Step(c, Sent(send, messageId, timer), now);
      && send !in n.sends && SameBut(n.sends, c.sends, send)
      && messageId in n.byMessage && n.byMessage[messageId] == c.sends[send].deviceId
      && messageId in n.actions && n.actions[messageId] == c.sends[send].action
      && messageId in n.timers && n.timers[messageId] == timer
      && timer in n.live && n.live[timer] == Timer(messageId, now + 5000)
      && SameBut(n.byMessage, c.byMessage, messageId) && SameBut(n.actions, c.actions, messageId)
      && SameBut(n.timers, c.timers, messageId) && SameBut(n.live, c.live, timer)
      && n.connection == c.connection && n.devices == c.devices && n.pending == c.pending
  {
  }

  /** Exactly the one device is no longer pending; the others keep their order. */
  ghost predicate Freed(before: seq<string>, after: seq<string>, deviceId: string) {
    && (forall d :: d in after <==> d in before && d != deviceId)
    && (Distinct(before) ==> Distinct(after))
    && forall x, y :: Precedes(after, x, y) ==> Precedes(before, x, y)
  }

  lemma WithoutFrees(before: seq<string>, deviceId: string)
    ensures Freed(before, Without(before, deviceId), deviceId)
  {
    if Distinct(before) {
      WithoutDistinct(before, deviceId);
    }
    forall x, y | Precedes(Without(before, deviceId), x, y) ensures Precedes(before, x, y) {
      WithoutKeepsOrder(before, deviceId, x, y);
    }
  }

  /** A send that threw frees its device. */
  lemma SendThrew(c: Client, send: int, now: int)
    requires EventOk(c, Failed(send, false), now)
    ensures var n := Step(c, Failed(send, false), now);
      && send !in n.sends && SameBut(n.sends, c.sends, send)
      && Freed(c.pending, n.pending, c.sends[send].deviceId)
      && n == c.(sends := n.sends, pending := n.pending)
  {
    WithoutFrees(c.pending, c.sends[send].deviceId);
  }

  /** The message is in no table, its timer does not fire, and its device is free. */
  ghost predicate Settled(c: Client, n: Client, messageId: string) {
    && messageId !in n.byMessage && messageId !in n.actions && messageId !in n.timers
    && SameBut(n.byMessage, c.byMessage, messageId) && SameBut(n.actions, c.actions, messageId)
    && SameBut(n.timers, c.timers, messageId)
    && (forall t :: t in n.live <==> t in c.live && c.live[t].messageId != messageId)
    && (forall t <- n.live :: n.live[t] == c.live[t])
    && (if messageId in c.byMessage then Freed(c.pending, n.pending, c.byMessage[messageId])
        else n.pending == c.pending)
    && n.connection == c.connection && n.devices == c.devices && n.sends == c.sends
  }

  lemma FinishedSettles(c: Client, messageId: string)
    requires Sound(c)
    ensures Settled(c, Finished(c, messageId), messageId)
  {
    var n := Finished(c, messageId);
    if messageId in c.byMessage {
      WithoutFrees(c.pending, c.byMessage[messageId]);
    }
    forall t ensures t in n.live <==> t in c.live && c.live[t].messageId != messageId {
      if t in c.live {
        assert c.timers[c.live[t].messageId] == t;
      }
    }
  }

  /** The first answer, or the timer, settles a message; a later answer finds nothing to do. */
  lemma Answer(c: Client, e: Event, messageId: string, now: int)
    requires Sound(c) && EventOk(c, e, now)
    requires e == Answered(messageId, false) || (e.Fires? && c.live[e.timer].messageId == messageId)
    ensures Settled(c, Step(c, e, now), messageId)
    ensures messageId !in c.byMessage ==> Step(c, e, now) == c
  {
    if e.Fires? {
      ElapsedIsFinished(c, e.timer);
      assert c.timers[messageId] == e.timer;
    }
    FinishedSettles(c, messageId);
    if messageId !in c.byMessage {
      assert messageId !in c.timers.Keys && messageId !in c.actions.Keys;
      assert c.byMessage - {messageId} == c.byMessage;
      assert c.actions - {messageId} == c.actions;
      assert c.timers - {messageId} == c.timers;
    }
  }

  // ----- everything at once

  /** The events after which no command is waited for. */
  predicate GivesUp(e: Event) {
    match e
    case Failed(_, unauthorized) => unauthorized
    case Answered(_, unauthorized) => unauthorized
    case Connects(connection) => connection == Disconnected
    case Invalidate => true
    case Shutdown => true
    case _ => false
  }

  /** A lost session or connection and a shutdown end every wait and every timer; the sends still under way go on. */
  lemma GivingUp(c: Client, e: Event, now: int)
    requires Sound(c) && EventOk(c, e, now) && GivesUp(e)
    ensures var n := Step(c, e, now);
      && n.pending == [] && n.byMessage == map[] && n.actions == map[] && n.timers == map[] && n.live == map[]
      && n.devices == c.devices && n.connection == (if e.Shutdown? then c.connection else Disconnected)
      && n.sends == (if e.Failed? then c.sends - {e.send} else c.sends)
  {
    hide Sound, Cleared, Finished, Without;
    match e
    case Failed(send, _) =>
      GivenUpSound(c, send);
      ClearedSound(GivenUp(c, send));
      ClearedMeans(GivenUp(c, send));
    case Answered(messageId, _) =>
      FinishedSound(c, messageId);
      ClearedSound(Finished(c, messageId));
      ClearedMeans(Finished(c, messageId));
      FinishedKeeps(c, messageId);
    case Connects(connection) =>
      OtherFieldsSound(c, c.(connection := connection));
      ClearedSound(c.(connection := connection));
      ClearedMeans(c.(connection := connection));
    case _ =>
      ClearedSound(c);
      ClearedMeans(c);
  }

  lemma FinishedKeeps(c: Client, messageId: string)
    ensures var n := Finished(c, messageId); n.devices == c.devices && n.sends == c.sends
  {
  }

  lemma ClearedMeans(c: Client)
    ensures var n := Cleared(c);
      && n.pending == [] && n.byMessage == map[] && n.actions == map[] && n.timers == map[]
      && n.devices == c.devices && n.connection == c.connection && n.sends == c.sends
  {
  }

  /** The other events leave the waits alone; forgetting the gateway drops the devices and the pending list and
      keeps what would end the waits. */
  lemma OtherEvent(c: Client, e: Event, now: int)
    requires EventOk(c, e, now)
    ensures var n := Step(c, e, now);
      && (e.Connects? && e.connection != Disconnected ==> n == c.(connection := e.connection))
      && (e.Forget? ==> n == c.(devices := [], pending := [], connection := Disconnected))
      && (e.Snapshot? ==> n == c.(devices := e.devices))
      && (e.Changed? || e.Gone? ==> n == c.(devices := n.devices))
  {
  }

  // ----- over runs

  /** A timer that may fire was set when its message's send went through, five seconds before it is due. */
  ghost predicate SetAt(run: seq<Timed>, timer: int, t: Timer, k: nat) {
    k < |run| && run[k].event.Sent? && run[k].event.timer == timer && run[k].event.messageId == t.messageId
    && t.due == run[k].now + 5000
  }

  lemma {:induction false} TimersSet(run: seq<Timed>, timer: int)
    requires CanHappen(START, run) && timer in After(START, run).live
    ensures exists k :: SetAt(run, timer, After(START, run).live[timer], k)
  {
    hide Step, EventOk;
    if run != [] {
      var front, last := run[..|run| - 1], run[|run| - 1];
      var c, n := After(START, front), After(START, run);
      AlwaysSound(front);
      StepSets(c, last.event, last.now, timer);
      if timer in c.live && n.live[timer] == c.live[timer] {
        TimersSet(front, timer);
        var k :| SetAt(front, timer, c.live[timer], k);
        assert SetAt(run, timer, n.live[timer], k);
      } else {
        assert SetAt(run, timer, n.live[timer], |front|);
      }
    }
  }

  lemma StepSets(c: Client, e: Event, now: int, timer: int)
    requires EventOk(c, e, now) && timer in Step(c, e, now).live
    ensures var t := Step(c, e, now).live[timer];
      || (timer in c.live && c.live[timer] == t)
      || (e.Sent? && e.timer == timer && e.messageId == t.messageId && t.due == now + 5000)
  {
    hide Without;
  }

  // ----- the list of devices

  function Ids(devices: seq<PublicDevice>): (ids: seq<string>)
    ensures |ids| == |devices|
  {
    seq(|devices|, i requires 0 <= i < |devices| => devices[i].id)
  }

  lemma IdsJoined(devices: seq<PublicDevice>, more: seq<PublicDevice>)
    ensures Ids(devices + more) == Ids(devices) + Ids(more)
  {
  }

  /** An update finds its device in place, and puts an unknown one last. */
  lemma UpdateInPlace(devices: seq<PublicDevice>, view: PublicDevice)
    ensures Ids(Received(devices, Update(view)))
            == Ids(devices) + if view.id in Ids(devices) then [] else [view.id]
  {
    assert view.id in Ids(devices) <==> exists d <- devices :: d.id == view.id by {
      forall d | d in devices && d.id == view.id ensures view.id in Ids(devices) {
        var i :| 0 <= i < |devices| && devices[i] == d;
        assert Ids(devices)[i] == view.id;
      }
    }
  }

  /** A removal takes the device out, however often it is listed, and leaves the others in order. */
  lemma {:induction false} RemovalInOrder(devices: seq<PublicDevice>, id: string)
    ensures Ids(Received(devices, Removal(id))) == Without(Ids(devices), id)
  {
    if devices != [] {
      var front, last := devices[..|devices| - 1], devices[|devices| - 1];
      RemovalInOrder(front, id);
      IdsJoined(front, [last]);
      assert devices == front + [last];
      WithoutJoined(Ids(front), Ids([last]), id);
      IdsJoined(WithoutDevice(front, id), if last.id == id then [] else [last]);
      assert Ids([last]) == [last.id];
      assert [last.id][1..] == [];
    }
  }

  /** Without a double entry at first there is none after any messages. */
  lemma {:induction false} OneEntryEach(devices: seq<PublicDevice>, ms: seq<Message>)
    requires Distinct(Ids(devices))
    ensures Distinct(Ids(ReceivedAll(devices, ms)))
  {
    hide Received;
    if ms != [] {
      var front, last := ms[..|ms| - 1], ms[|ms| - 1];
      OneEntryEach(devices, front);
      var before := ReceivedAll(devices, front);
      match last
      case Update(view) => UpdateInPlace(before, view);
      case Removal(id) =>
        RemovalInOrder(before, id);
        WithoutDistinct(Ids(before), id);
    }
  }
}
