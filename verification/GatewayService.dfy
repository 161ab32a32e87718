/** The gateway's command handling: two caches in front of the registry, rebuilt and filled as Pipeline says. */
module GatewayService {
  import opened Wrappers
  import opened Devices
  import opened Registry
  import opened Operations
  import opened Pipeline
  import opened DeviceRegistry
  import AuditLog

  function CodeText(code: Code): string {
    match code
    case AuthFailed => "AUTH_FAILED"
    case DeviceOffline => "DEVICE_OFFLINE"
    case InvalidCommand => "INVALID_COMMAND"
    case CommandTimeout => "COMMAND_TIMEOUT"
    case StateConflict => "STATE_CONFLICT"
    case ReplayDetected => "REPLAY_DETECTED"
    case RateLimited => "RATE_LIMITED"
    case InternalError => "INTERNAL_ERROR"
  }

  /** The audit entry of a result; the text of a scene's details is given. */
  function AuditOf(clientId: string, e: Envelope, result: CommandResult, wall: int, details: string): AuditLog.Entry {
    AuditLog.Entry(wall, clientId, e.header.deviceId, e.header.action,
                   if result.success then "success" else "failed",
                   if result.error.Some? then Some(CodeText(result.error.value)) else None,
                   AuditLog.Suffix(e.header.messageId),
                   if result.details.Some? then Some(details) else None)
  }

  /** The row of an answer names the client, the device and the action, says how it ended, and keeps at most the last
      eight characters of the message id. */
  lemma AuditTells(clientId: string, e: Envelope, result: CommandResult, wall: int, details: string)
    ensures var row := AuditOf(clientId, e, result, wall, details);
      && row.timestamp == wall && row.clientId == clientId
      && row.deviceId == e.header.deviceId && row.action == e.header.action
      && row.result == (if result.success then "success" else "failed")
      && (row.errorCode.None? <==> result.error.None?)
      && (row.details.Some? <==> result.details.Some?) && (row.details.Some? ==> row.details.value == details)
      && |row.messageIdSuffix| <= 8
      && (|e.header.messageId| <= 8 ==> row.messageIdSuffix == e.header.messageId)
      && (|e.header.messageId| > 8 ==>
            row.messageIdSuffix == e.header.messageId[|e.header.messageId| - 8..])
  {
  }

  /** The protocol's names of the codes. */
  lemma CodeNames(e: Envelope, result: CommandResult, wall: int)
    requires result.error.Some?
    ensures var name := AuditOf("", e, result, wall, "").errorCode;
      && (result.error.value == AuthFailed <==> name == Some("AUTH_FAILED"))
      && (result.error.value == DeviceOffline <==> name == Some("DEVICE_OFFLINE"))
      && (result.error.value == InvalidCommand <==> name == Some("INVALID_COMMAND"))
      && (result.error.value == CommandTimeout <==> name == Some("COMMAND_TIMEOUT"))
      && (result.error.value == StateConflict <==> name == Some("STATE_CONFLICT"))
      && (result.error.value == ReplayDetected <==> name == Some("REPLAY_DETECTED"))
      && (result.error.value == RateLimited <==> name == Some("RATE_LIMITED"))
      && (result.error.value == InternalError <==> name == Some("INTERNAL_ERROR"))
  {
  }

  class Service {
    var resultCache: map<Tag, Cached>
    var nonceCache: map<Tag, int>
    const devices: Store
    const storage: AuditLog.GatewayStorage

    ghost predicate Valid()
      reads this, devices, storage
    {
      devices.Valid() && AuditLog.Increasing(storage.rows)
    }

    ghost function View(): Gateway
      reads this, devices, devices.devices.Values
    {
      Gateway(resultCache, nonceCache, devices.View())
    }

    lemma Listing()
      requires Valid()
      ensures Listed(View().reg)
    {
      devices.ViewListed();
    }

    constructor (devices: Store, storage: AuditLog.GatewayStorage)
      requires devices.Valid() && AuditLog.Increasing(storage.rows)
      ensures this.devices == devices && this.storage == storage
      ensures Valid() && View() == Pipeline.Fresh(devices.View())
    {
      this.devices := devices;
      this.storage := storage;
      resultCache, nonceCache := map[], map[];
    }

    /** Both dictionaries are rebuilt from the entries that are young enough. */
    method PruneSecurityWindows(mono: int)
      modifies `resultCache, `nonceCache
      ensures View() == Pruned(old(View()), mono)
    {
      var cutoff := mono - IDEMPOTENCY_WINDOW_MS;
      var results: map<Tag, Cached> := map[];
      var keys := resultCache.Keys;
      while keys != {}
        invariant keys <= resultCache.Keys && resultCache == old(resultCache) && nonceCache == old(nonceCache)
        invariant results == map k | k in resultCache && k !in keys && resultCache[k].at >= cutoff :: resultCache[k]
        decreases keys
      {
        var key :| key in keys;
        if resultCache[key].at >= cutoff {
          results := results[key := resultCache[key]];
        }
        keys := keys - {key};
      }
      resultCache := results;
      var nonces: map<Tag, int> := map[];
      keys := nonceCache.Keys;
      while keys != {}
        invariant keys <= nonceCache.Keys && resultCache == results && nonceCache == old(nonceCache)
        invariant nonces == map k | k in nonceCache && k !in keys && nonceCache[k] >= cutoff :: nonceCache[k]
        decreases keys
      {
        var key :| key in keys;
        if nonceCache[key] >= cutoff {
          nonces := nonces[key := nonceCache[key]];
        }
        keys := keys - {key};
      }
      nonceCache := nonces;
    }

    method CacheResult(tag: Tag, result: CommandResult, mono: int)
      modifies `resultCache
      ensures View() == WithResult(old(View()), tag, mono, result)
    {
      resultCache := resultCache[tag := Cached(mono, result)];
    }

    /** The state events of the devices a scene succeeded on. */
    method SceneEvents(details: seq<Detail>, wall: int) returns (events: seq<Event>)
      requires Valid()
      ensures events == StateEvents(SceneViews(devices.View(), details), wall)
    {
      events := [];
      for i := 0 to |details|
        invariant events == StateEvents(SceneViews(devices.View(), details[..i]), wall)
      {
        assert details[..i + 1][..i] == details[..i];
        if details[i].success && details[i].deviceId in devices.devices {
          devices.RecordOf(details[i].deviceId);
          var view := devices.PublicDeviceOf(devices.devices[details[i].deviceId]);
          events := events + [StateChanged(view, wall)];
        }
      }
      assert details[..|details|] == details;
    }

    /** The part of process_command that may raise: decrypting the payload and executing the command. */
    method Carry(s: Session, e: Envelope, wall: int) returns (result: CommandResult, events: seq<Event>)
      requires Valid() && Listed(devices.View())
      modifies devices`alerts, devices.devices.Values
      ensures Valid() && devices.devices == old(devices.devices)
      ensures var outcome := Carried(old(devices.View()), s, e, wall);
              && devices.View() == outcome.happened.reg
              && result == ResultOf(e, outcome.reply, wall)
              && events == StateEvents(outcome.happened.announced, wall)
    {
      hide Execute, Opened;
      events := [];
      var payload := Opened(s.dataKey, e);
      if payload.None? {
        result := ErrorResult(e, ReplayDetected, wall);
        return;
      }
      var reply := devices.Execute(e.header.deviceId, e.header.action, payload.value, e.header.expected, wall);
      match reply
      case Err(code) => result := ErrorResult(e, code, wall);
      case Ok(value) =>
        result := SuccessResult(e, value, wall);
        match value
        case OneDevice(view) => events := [StateChanged(view, wall)];
        case SceneDetails(details) => events := SceneEvents(details, wall);
    }

    method Audit(clientId: string, e: Envelope, result: CommandResult, wall: int, details: string)
      requires Valid()
      modifies storage
      ensures Valid()
      ensures storage.rows == AuditLog.Inserted(old(storage.rows), AuditOf(clientId, e, result, wall, details))
    {
      var errorCode := if result.error.Some? then Some(CodeText(result.error.value)) else None;
      storage.RecordAudit(wall, clientId, e.header.deviceId, e.header.action,
                          if result.success then "success" else "failed", errorCode, e.header.messageId,
                          if result.details.Some? then Some(details) else None);
    }

    /** A result is cached and audited. */
    method Conclude(tag: Tag, clientId: string, e: Envelope, result: CommandResult, c: Clocks, details: string)
      requires Valid()
      modifies `resultCache, storage
      ensures Valid() && View() == WithResult(old(View()), tag, c.stored, result)
      ensures storage.rows == AuditLog.Inserted(old(storage.rows), AuditOf(clientId, e, result, c.wall, details))
    {
      hide AuditOf, AuditLog.Inserted, Store.Records, Store.Valid;
      CacheResult(tag, result, c.stored);
      Audit(clientId, e, result, c.wall, details);
    }

    /** Besides the gateway the audit log: one row for every command that is not answered from the cache. */
    method ProcessCommand(s: Session, clientId: string, e: Envelope, c: Clocks, details: string)
      returns (result: CommandResult, events: seq<Event>)
      requires Valid()
      modifies `resultCache, `nonceCache, devices`alerts, devices.devices.Values, storage
      ensures Valid() && Listed(old(View()).reg)
      ensures Processed(View(), result, events) == Pipeline.ProcessCommand(old(View()), s, e, c)
      ensures storage.rows ==
              if MessageTag(s, e) in Pruned(old(View()), c.pruned).results then old(storage.rows)
              else AuditLog.Inserted(old(storage.rows), AuditOf(clientId, e, result, c.wall, details))
    {
      hide Carried, ErrorResult, ResultOf, Pruned, AuditOf, AuditLog.Inserted, Store.Records, Store.Valid;
      Listing();
      PruneSecurityWindows(c.pruned);
      var tag := MessageTag(s, e);
      if tag in resultCache {
        return resultCache[tag].result, [];
      }
      if c.wall - e.header.timestamp > TIMESTAMP_WINDOW_MS || e.header.timestamp - c.wall > TIMESTAMP_WINDOW_MS {
        result := ErrorResult(e, ReplayDetected, c.wall);
        Conclude(tag, clientId, e, result, c, details);
        return result, [];
      }
      var nonceTag := NonceTag(s, e);
      if nonceTag in nonceCache {
        result := ErrorResult(e, ReplayDetected, c.wall);
        Conclude(tag, clientId, e, result, c, details);
        return result, [];
      }
      nonceCache := nonceCache[nonceTag := c.nonced];
      result, events := Carry(s, e, c.wall);
      var alerts := devices.DrainAlerts();
      events := events + AlertEvents(alerts);
      Conclude(tag, clientId, e, result, c, details);
    }
  }
}
