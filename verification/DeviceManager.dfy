/**
 * The client's device manager: the callbacks and the stretches of code between awaits, each proved to be the step
 * of ClientCommands it stands for.
 */
module DeviceManager {
  import opened Lists
  import opened Devices
  import opened ClientCommands
  import Messages

  class Manager {
    var connection: Connection
    var devices: seq<PublicDevice>
    var pendingDeviceIds: seq<string>
    var pendingByMessage: map<string, string>
    var actionByMessage: map<string, string>
    var timeoutByMessage: map<string, int>
    // what the manager waits for: its sends, and its timers in the runtime
    ghost var sends: map<int, Send>
    ghost var live: map<int, Timer>

    ghost function View(): Client
      reads this
    {
      Client(connection, devices, pendingDeviceIds, pendingByMessage, actionByMessage, timeoutByMessage, sends, live)
    }

    constructor ()
      ensures View() == START
    {
      connection := Disconnected;
      devices, pendingDeviceIds := [], [];
      pendingByMessage, actionByMessage, timeoutByMessage := map[], map[], map[];
      sends, live := map[], map[];
    }

    ghost method ClearTimeout(timer: int)
      modifies `live
      ensures live == old(live) - {timer}
    {
      live := live - {timer};
    }

    // ----- commands

    /** submitRaw up to the send. */
    method SubmitRaw(ghost send: int, deviceId: string, action: string) returns (begun: bool)
      requires EventOk(View(), Begin(send, deviceId, action), 0)
      modifies this
      ensures View() == Submitted(old(View()), send, deviceId, action)
      ensures begun <==> old(connection) == Online && deviceId !in old(pendingDeviceIds)
    {
      if connection != Online {
        return false;
      }
      if deviceId in pendingDeviceIds {
        return false;
      }
      pendingDeviceIds := pendingDeviceIds + [deviceId];
      sends := sends[send := Send(deviceId, action)];
      return true;
    }

    /** submitRaw after a send that went through. */
    method SendCompleted(ghost send: int, deviceId: string, action: string, messageId: string, timer: int,
                         ghost now: int)
      requires send in sends && sends[send] == Send(deviceId, action)
      requires EventOk(View(), Sent(send, messageId, timer), now)
      modifies this
      ensures View() == Acknowledged(old(View()), send, messageId, timer, now)
    {
      sends := sends - {send};
      pendingByMessage := pendingByMessage[messageId := deviceId];
      actionByMessage := actionByMessage[messageId := action];
      live := live[timer := Timer(messageId, now + TIMEOUT)];
      timeoutByMessage := timeoutByMessage[messageId := timer];
    }

    /** submitRaw after a send that threw. */
    method SendFailed(ghost send: int, deviceId: string, unauthorized: bool)
      requires send in sends && sends[send].deviceId == deviceId
      modifies this
      ensures View() == Step(old(View()), Failed(send, unauthorized), 0)
    {
      sends := sends - {send};
      RemovePendingDevice(deviceId);
      if unauthorized {
        InvalidateSession();
      }
    }

    /** The callback of a command's timer. */
    method TimeoutElapsed(messageId: string, timer: int, ghost now: int)
      requires timer in live && live[timer].messageId == messageId && live[timer].due <= now
      modifies this
      ensures View() == Step(old(View()), Fires(timer), now)
    {
      ClearTimeout(timer);
      if messageId in pendingByMessage {
        FinishPending(messageId);
      }
    }

    method HandleCommandResult(messageId: string, unauthorized: bool)
      modifies this
      ensures View() == Step(old(View()), Answered(messageId, unauthorized), 0)
    {
      FinishPending(messageId);
      if unauthorized {
        InvalidateSession();
      }
    }

    method FinishPending(messageId: string)
      modifies this
      ensures View() == Finished(old(View()), messageId)
    {
      if messageId in timeoutByMessage {
        ClearTimeout(timeoutByMessage[messageId]);
        timeoutByMessage := timeoutByMessage - {messageId};
      }
      if messageId in pendingByMessage {
        RemovePendingDevice(pendingByMessage[messageId]);
      }
      pendingByMessage := pendingByMessage - {messageId};
      actionByMessage := actionByMessage - {messageId};
    }

    method RemovePendingDevice(deviceId: string)
      modifies `pendingDeviceIds
      ensures pendingDeviceIds == Without(old(pendingDeviceIds), deviceId)
    {
      var rest := [];
      for i := 0 to |pendingDeviceIds|
        invariant pendingDeviceIds == old(pendingDeviceIds)
        invariant rest == Without(pendingDeviceIds[..i], deviceId)
      {
        assert pendingDeviceIds[..i + 1] == pendingDeviceIds[..i] + [pendingDeviceIds[i]];
        WithoutJoined(pendingDeviceIds[..i], [pendingDeviceIds[i]], deviceId);
        if pendingDeviceIds[i] != deviceId {
          rest := rest + [pendingDeviceIds[i]];
        }
      }
      assert pendingDeviceIds[..|pendingDeviceIds|] == pendingDeviceIds;
      pendingDeviceIds := rest;
    }

    method ClearAllCommandTimeouts()
      modifies this
      ensures View() == Cleared(old(View()))
    {
      var messages := timeoutByMessage.Keys;
      while messages != {}
        invariant messages <= timeoutByMessage.Keys
        invariant forall t :: t in live <==>
                    t in old(live) && forall m <- timeoutByMessage :: timeoutByMessage[m] == t ==> m in messages
        invariant forall t <- live :: live[t] == old(live)[t]
        invariant View() == old(View()).(live := live)
        decreases messages
      {
        var m :| m in messages;
        ClearTimeout(timeoutByMessage[m]);
        messages := messages - {m};
      }
      forall t | t in live
        ensures t in old(live) && t !in timeoutByMessage.Values
      {
        assert forall m <- timeoutByMessage :: timeoutByMessage[m] != t;
      }
      assert forall t :: t in old(live) && t !in timeoutByMessage.Values ==> t in live;
      ghost var rest := old(live) - timeoutByMessage.Values;
      assert live.Keys == rest.Keys;
      assert forall t <- rest :: rest[t] == old(live)[t] && live[t] == rest[t];
      assert live == rest;
      timeoutByMessage := map[];
      pendingByMessage := map[];
      actionByMessage := map[];
      pendingDeviceIds := [];
    }

    // ----- the connection

    method OnConnectionStateChanged(state: Connection)
      modifies this
      ensures View() == Step(old(View()), Connects(state), 0)
    {
      connection := state;
      if state == Disconnected {
        ClearAllCommandTimeouts();
      }
    }

    method InvalidateSession()
      modifies this
      ensures View() == Invalidated(old(View()))
    {
      connection := Disconnected;
      ClearAllCommandTimeouts();
    }

    /** forgetGateway once the transport is closed and the stores are cleared. */
    method ForgetGateway()
      modifies this
      ensures View() == Step(old(View()), Forget, 0)
    {
      devices := [];
      pendingDeviceIds := [];
      connection := Disconnected;
    }

    // ----- the devices

    method ApplyDevice(incoming: PublicDevice)
      modifies this
      ensures View() == Step(old(View()), Changed(incoming), 0)
    {
      var result: seq<PublicDevice>, found := [], false;
      for index := 0 to |devices|
        invariant View() == old(View())
        invariant |result| == index
        invariant found <==> exists i :: 0 <= i < index && devices[i].id == incoming.id
        invariant forall i :: 0 <= i < index ==>
                    result[i] == if devices[i].id == incoming.id && incoming.stateVersion > devices[i].stateVersion
                                 then incoming else devices[i]
      {
        var current := devices[index];
        if current.id == incoming.id {
          found := true;
          result := result + [if incoming.stateVersion > current.stateVersion then incoming else current];
        } else {
          result := result + [current];
        }
      }
      assert found <==> exists d <- devices :: d.id == incoming.id;
      if !found {
        result := result + [incoming];
      }
      assert result == Messages.Merged(devices, incoming);
      devices := result;
    }

    method InstallSnapshot(snapshot: seq<PublicDevice>)
      modifies this
      ensures View() == Step(old(View()), Snapshot(snapshot), 0)
    {
      devices := snapshot;
    }

    method OnDeviceRemoved(deviceId: string)
      modifies this
      ensures View() == Step(old(View()), Gone(deviceId), 0)
    {
      var rest := [];
      for i := 0 to |devices|
        invariant rest == Messages.WithoutDevice(devices[..i], deviceId)
        invariant View() == old(View())
      {
        assert devices[..i + 1][..i] == devices[..i];
        if devices[i].id != deviceId {
          rest := rest + [devices[i]];
        }
      }
      assert devices[..|devices|] == devices;
      devices := rest;
    }
  }
}
