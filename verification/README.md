# Smart-home gateway and client

A model of the gateway that owns all device state and of the client that keeps a copy of it, with proofs of what
the two promise.

The gateway is a registry of devices under seven families of drivers, behind a pipeline that answers encrypted
commands at most once. `Devices` and `Registry` say what every command, tick, fault, injection, registration and
scene makes of the state; `Drivers`, `DeviceRegistry` and `GatewayService` are the same operations as the program
has them, changing records and dictionaries in place, each proved against its specification. On the
specifications rest the laws about runs: `Structure` (what every operation keeps), `Versions` (what a state version
is worth), `Scenes`, `Provisioning`, the timed rules of lights, doors, curtains and sensors (`LightRules`,
`LightRuns`, `DoorAutoLock`, `CurtainMotion`, `RoomClimate`, by way of `Traces`, which reduces a run of the registry
to the acts on one device), and `Pipeline` with `Replay` (replays, and caches that forget). `Pairing`,
`GuessingBound`, `PairingCodes` and `UsedCodes` treat pairing codes, lockouts and sessions; `AuditLog` the paged log.

What one call does is also stated without the specification's own functions, from the state and the arguments
alone: `CommandLaws` and `SceneLaws` (commands and scenes), `TickLaws` (ticks, faults and readings), `Admissions`
(drivers, rooms, registrations, removals), `Answers` (the pipeline, with `GatewayRuns` for its runs), `PublicViews`,
`PairingLaws`, `ClientLaws` (the client's commands) and `CodecMeaning` (which records the parser reads as which
devices).

On the client, `Messages` and `Replica` treat the merging of reordered messages, `Returns` and `LostRemovals`
devices that are removed and come back, `ClientCommands` and `DeviceManager` the commands in flight, `DeviceCodec`,
`CodecLaws` and `DeviceParser` the device parser and serializer, `Features` the grouping of devices, and `Base64Url`
the text encoding. `WireFormat`, `SnapshotRuns` and `ParsedReplica` join the two sides: what the client's parser
makes of the gateway's views, over every run, and what that does to convergence.

Time is in integer milliseconds. Both clocks, the noise of the sensors, the candidates of the code generator and
the ids of messages, sends and timers are inputs. Numbers that are floating point in the program are reals.
Authenticated encryption is ideal: a ciphertext opens exactly under the key, nonce and header it was sealed with.
A registry operation and a tick are atomic and read the wall clock once. Exceptions are error values.

Five places where the code does less than its design suggests are stated as such, each with a run that shows it and
the exact condition under which the design holds: an air conditioner keeps an argument its adapter refuses, a silent
write that changes its view and not its version (`Versions.VersionsNameViewsExactly`, and `SnapshotRuns.ReadExactly`
for what that does to clients), a driver that needs no categories can store an unregistered one
(`Provisioning.CategoryGap`), an event that clears the client's pending list while a command is under way lets a
second one start (`ClientCommands.OneEachExactly`), a pairing code that cannot be replaced stays usable
(`UsedCodes.OneSessionExactly`), and a late update or a lost removal leaves the client wrong about a removed device
(`Returns.GoneExactly`, `Returns.ReturnedExactly`, with the runs in `LostRemovals`). Three more bounds are shown
exact by runs on either side: the clock drift and the timestamps of `Replay`, and the stall of
`UsedCodes.FiveGuessesThreshold`.

## Model

| member | source | states |
|---|---|---|
| GatewayService.Service.PruneSecurityWindows | VirtualGateway/devcontrol_gateway/service.py:210-221 | both caches keep exactly the entries at most 300 s old |
| GatewayService.Service.Carry | VirtualGateway/devcontrol_gateway/service.py:252-298 | decrypting and executing one admitted command: its result, the views to broadcast and the registry after it, with the error results in place of exceptions |
| GatewayService.Service.ProcessCommand | VirtualGateway/devcontrol_gateway/service.py:223-302 | one command through cache, timestamp window, nonce cache, decryption, registry and alerts: the whole new gateway, the result, the events, and the audit row of every answer that is not a cached one |
| GatewayService.AuditTells | VirtualGateway/devcontrol_gateway/service.py:329-350 | the audit row of an answer names the client, the device and the action, says how it ended, and keeps at most the last eight characters of the message id |
| GatewayService.CodeNames | VirtualGateway/devcontrol_gateway/errors.py:26-34 | the protocol's names of the eight codes |
| Answers.RememberedAnswer | VirtualGateway/devcontrol_gateway/service.py:210-230 | a message answered within the last 300 s gets that answer again, no events and no change but the forgetting of older entries |
| Answers.NewAnswerRemembered | VirtualGateway/devcontrol_gateway/service.py:232-302 | any other message is remembered with its answer under its credential and id, and its nonce exactly if it was let in |
| Answers.NotRun | VirtualGateway/devcontrol_gateway/service.py:232-254 | a new message more than 30 s off, with a nonce seen in the last 300 s, or not sealed under the session's key with its own nonce and header, is refused as a replay and leaves every device alone |
| Answers.RunsInRegistry | VirtualGateway/devcontrol_gateway/service.py:252-298 | every other one is executed with its own action, arguments and expected version; its views and the pending alerts are broadcast |
| Answers.DeviceAnswer | VirtualGateway/devcontrol_gateway/service.py:252-298 | to a device: a refusal carries the device's reason and no state event, a success the device's new version and its stored view |
| Answers.UnknownDeviceAnswer | VirtualGateway/devcontrol_gateway/registry.py:136-140 | to no device: an invalid command that changes nothing |
| Answers.SuccessMeans | VirtualGateway/devcontrol_gateway/service.py:252-298 | a success to a device means it was let in and opened, ran on the expected version if it carried one, raised the version by one, and answers and broadcasts what is stored |
| Answers.DeviceRefuses | VirtualGateway/devcontrol_gateway/registry.py:217-231 | offline, behind, too slow and told to fail each give their code, in this order, no state event, and no change but the used-up failure |
| Answers.StaleAnswer | VirtualGateway/devcontrol_gateway/registry.py:217-226 | a stale expected version to a device that is online is answered with a conflict and changes nothing |
| Answers.SceneAnswer | VirtualGateway/devcontrol_gateway/registry.py:238-252 | a scene takes its one action and answers with its details and no version; any other action is refused |
| GatewayRuns.GatewayIsRegistry | VirtualGateway/devcontrol_gateway/service.py:223-302 | a run of the gateway does to its registry what the commands let in and opened, each followed by handing over the alerts, and the other operations do in their order |
| GatewayRuns.RunsOnSeenView | VirtualGateway/devcontrol_gateway/service.py:252-298 | in a run of the gateway a command answered with success under the version of a view its sender saw runs on that very view, if nothing was written silently since |
| GatewayRuns.OneSuccess | VirtualGateway/devcontrol_gateway/service.py:252-298 | in a run of the gateway at most one command for a version of a device succeeds; a later one fails, changes no device, and conflicts when it is let in and the device online |
| Replay.AtMostOnce | VirtualGateway/devcontrol_gateway/service.py:226-264 | over every run, no envelope (same credential, nonce and timestamp) reaches the registry twice, as long as the wall clock loses at most 240 s against the monotonic clock |
| Replay.AtMostOnceThreshold | VirtualGateway/devcontrol_gateway/service.py:226-264 | that holds over all runs exactly when the clocks drift apart by at most 240 s: for every larger drift there is a run that executes an envelope twice |
| Replay.RepeatGetsFirstAnswer | VirtualGateway/devcontrol_gateway/service.py:226-230 | within 300 s a repeated message id gets the first result, no events and no change of the registry |
| Replay.PruningIsInvisible | VirtualGateway/devcontrol_gateway/service.py:210-302 | with unreused names, clocks that advance together and timestamps at most 270 s ahead, the registry always equals that of a gateway that never prunes |
| Replay.PruningThreshold | VirtualGateway/devcontrol_gateway/service.py:210-302 | pruning is invisible over all such runs exactly when timestamps are at most 270 s ahead; beyond that a run shows the difference |
| Announcements.AnnouncedAreCurrent | VirtualGateway/devcontrol_gateway/service.py:265-298 | every broadcast view is the view of the stored device after the operation |
| Announcements.ChangesAreAnnounced | VirtualGateway/devcontrol_gateway/service.py:265-298 | a served operation broadcasts every change clients may see of a device, as the device then is, exactly unless it is a command that stores an argument the adapter refuses |
| PublicViews.ViewShows | VirtualGateway/devcontrol_gateway/registry.py:126-134 | a public view has the device's own public fields and its category, and no private field |
| PublicViews.SameViewExactly | VirtualGateway/devcontrol_gateway/registry.py:126-134 | two devices look the same exactly when they agree in everything that is not private |
| Versions.ActFaithful | VirtualGateway/devcontrol_gateway/registry.py:217-266 | a command, tick, fault or reading never lowers the version, and leaves it while changing the public view exactly when an air conditioner stores an argument its adapter then refuses |
| Versions.StepFaithful | VirtualGateway/devcontrol_gateway/registry.py:217-412 | for any operation on the registry: a version that stays means a view that stays, exactly unless the operation is such a command to that device |
| Versions.VersionNamesView | VirtualGateway/devcontrol_gateway/registry.py:217-266 | over any stretch of a run without a silent write to the device two of its views with equal version are equal |
| Versions.VersionsNameViewsExactly | VirtualGateway/devcontrol_gateway/registry.py:217-266 | equal versions mean equal views throughout a stretch of a run exactly when no operation of it writes silently to the device |
| Versions.CommandRunsOnSeenView | VirtualGateway/devcontrol_gateway/registry.py:217-226 | a command that succeeds with the version of a view runs on that view, if nothing was written silently to the device since |
| Versions.OneSuccessPerVersion | VirtualGateway/devcontrol_gateway/registry.py:217-266 | in every run, after one success for a version a later command for it fails, changes nothing, and conflicts when the device is online |
| Versions.SilentWriteExample | VirtualGateway/devcontrol_gateway/drivers.py:470-505 | the code does not keep faithfulness without the restriction: a refused mode stays in the device with the old version |
| DeviceRegistry.NewRegistry | VirtualGateway/devcontrol_gateway/registry.py:34-48 | the registry after the constructor, or the failure of the first refused driver |
| DeviceRegistry.Store.RegisterDriver | VirtualGateway/devcontrol_gateway/registry.py:50-85 | a driver is either refused with nothing changed or registered with all its categories and devices |
| DeviceRegistry.Store.ValidateCategories | VirtualGateway/devcontrol_gateway/registry.py:87-109 | the declared categories by id, or a refusal, exactly when one is malformed, known or repeated |
| DeviceRegistry.Store.ValidateDevices | VirtualGateway/devcontrol_gateway/registry.py:59-81 | accepted exactly when every created device has a new id of its own, the driver's type and, where required, a registered category |
| DeviceRegistry.Store.CreateRoom | VirtualGateway/devcontrol_gateway/registry.py:117-124 | refused for a used id or name, otherwise the room is stored as selectable |
| DeviceRegistry.Store.RegisterProvisioned | VirtualGateway/devcontrol_gateway/registry.py:142-191 | every refusal, the repeated identical registration and the new device |
| DeviceRegistry.Store.RemoveProvisioned | VirtualGateway/devcontrol_gateway/registry.py:193-199 | only a removable device is deleted; its last view is returned |
| DeviceRegistry.Store.FindFirst | VirtualGateway/devcontrol_gateway/registry.py:201-209 | the first device of the type, and of the room when one is given, in insertion order |
| DeviceRegistry.Store.EnsureCommandable | VirtualGateway/devcontrol_gateway/registry.py:217-231 | offline, version conflict, delay over 5 s and the injected failure, in that order; the failure flag is used up |
| DeviceRegistry.Store.ExecuteDevice | VirtualGateway/devcontrol_gateway/registry.py:255-266 | one device command in place: the result or the error, the new device and the jam alert; no other device changes |
| DeviceRegistry.Store.ExecuteSceneActions | VirtualGateway/devcontrol_gateway/registry.py:299-322 | the devices and the details after all planned actions, each device stopping at its first error |
| DeviceRegistry.Store.ExecuteAway | VirtualGateway/devcontrol_gateway/registry.py:268-282 | the away scene over the devices in insertion order |
| DeviceRegistry.Store.ExecuteHome | VirtualGateway/devcontrol_gateway/registry.py:284-297 | the home scene over its three devices |
| DeviceRegistry.Store.Execute | VirtualGateway/devcontrol_gateway/registry.py:238-253 | the two scene ids with their one action each, and device commands |
| DeviceRegistry.Store.Tick | VirtualGateway/devcontrol_gateway/registry.py:324-335 | every device ticked once, in priority order, and the views of those that report a change |
| DeviceRegistry.Store.InjectFault | VirtualGateway/devcontrol_gateway/registry.py:337-363 | the named fields the device has are written, the version rises if there is one, and a battery at 20 or less raises an alert |
| DeviceRegistry.Store.InjectEnvironment | VirtualGateway/devcontrol_gateway/registry.py:397-412 | the first sensor takes the given readings and holds them for 30 s |
| DeviceRegistry.Store.DrainAlerts | VirtualGateway/devcontrol_gateway/registry.py:392-395 | the pending alerts are handed over and forgotten |
| Admissions.RegistrationExactly | VirtualGateway/devcontrol_gateway/registry.py:142-191 | accepted exactly for an existing selectable room, a type with a driver, one of the four combinations of type, category and capabilities, and an id that is unused or registered the same way |
| Admissions.RegistrableTypes | VirtualGateway/devcontrol_gateway/drivers.py:143-163 | with the default drivers those are the types light, environment, air conditioner and humidifier |
| Admissions.RegistrationStores | VirtualGateway/devcontrol_gateway/registry.py:175-191 | a new device is stored last, online, removable, at version 1, with the first fields of its family, and nothing else changes |
| Admissions.RoomExactly | VirtualGateway/devcontrol_gateway/registry.py:117-124 | a room is accepted exactly when its id and its name are new, and can then be chosen |
| Admissions.RemovalExactly | VirtualGateway/devcontrol_gateway/registry.py:193-199 | a removal is accepted exactly for a device that was registered; the others stay, in their order |
| Admissions.DriverExactly | VirtualGateway/devcontrol_gateway/registry.py:50-109 | a driver is accepted exactly when its type is new and everything it declares is complete, new and named once |
| Admissions.DriverStores | VirtualGateway/devcontrol_gateway/registry.py:50-85 | it stores itself, its categories and its devices in the declared order, and changes nothing that was there |
| Scenes.AwayScene | VirtualGateway/devcontrol_gateway/registry.py:268-322 | one detail for each device of a listed type, in registry order, never a version conflict; success exactly for ready devices, which end in the away state one version on; failures leave the device but for the used-up failure flag; other devices stay |
| Scenes.HomeScene | VirtualGateway/devcontrol_gateway/registry.py:284-322 | the same for the home scene: each of the three devices gets all of its actions with one version each, or none |
| Scenes.ObeyPrefix | VirtualGateway/devcontrol_gateway/registry.py:299-322 | a device executes exactly the successful prefix of its actions, the version rising by its length |
| Scenes.SceneByPlan | VirtualGateway/devcontrol_gateway/registry.py:299-322 | what a scene does to a planned device depends on that device and its actions alone |
| SceneLaws.AwayExactly | VirtualGateway/devcontrol_gateway/registry.py:268-322 | the away scene lists exactly the devices of six types, in registry order, each with its first obstacle as the code; a follower's fields are as written out, another device is as it was but for the used-up failure |
| SceneLaws.HomeExactly | VirtualGateway/devcontrol_gateway/registry.py:284-322 | the same for the home scene: the light at 70, the air conditioner on auto at 24 and on after three versions, the door locked; each scene raises one alert for every jammed door it would have locked |
| Announcements.ScenesApply | VirtualGateway/devcontrol_gateway/registry.py:268-322 | what the scene laws ask of the registry holds at every moment of every run |
| Structure.StepOk | VirtualGateway/devcontrol_gateway/registry.py:50-412 | every operation keeps the registry's structure: keys equal ids, types have drivers, categories are registered, room names differ, every device is within its family's ranges |
| Structure.RunOk | VirtualGateway/devcontrol_gateway/registry.py:50-412 | so does every run |
| Structure.DoOk | VirtualGateway/devcontrol_gateway/drivers.py:165-879 | every command, tick, fault and reading keeps a device within its family: among others a light's brightness is 0 or the last non-zero one and power means at least 1 |
| Boot.BootOk | VirtualGateway/devcontrol_gateway/composition.py:15-26 | the default drivers are all accepted and give a registry with that structure |
| Traces.Projection | VirtualGateway/devcontrol_gateway/registry.py:238-412 | what an operation does to one device is a list of commands, ticks, faults and readings applied to that device |
| Traces.TraceOfRun | VirtualGateway/devcontrol_gateway/registry.py:238-412 | over any run a device is what its own list of acts makes of it |
| Provisioning.RefusalsChangeNothing | VirtualGateway/devcontrol_gateway/registry.py:50-199 | each call leaves the registry as it was exactly when it is refused or repeats a registration, and otherwise changes its own entry only |
| Provisioning.RegisterThenRemove | VirtualGateway/devcontrol_gateway/registry.py:142-199 | registering a fresh id and removing it restores the registry |
| Provisioning.ReRegistration | VirtualGateway/devcontrol_gateway/registry.py:175-191 | while a registered device stays, the same registration is accepted again at any time and changes nothing |
| Provisioning.BuiltinsStayInRun | VirtualGateway/devcontrol_gateway/registry.py:193-199 | a device that is not removable is there with its identity at every moment of every run |
| Provisioning.CategoryGap | VirtualGateway/devcontrol_gateway/registry.py:70-85 | registering a driver keeps every stored category registered exactly when the driver requires categories or names only registered ones |
| Provisioning.CategoryGapExample | VirtualGateway/devcontrol_gateway/registry.py:70-85 | a driver that does not require categories can store a device with an unregistered one, and that device then has no public view |
| Provisioning.ViewsExistInRun | VirtualGateway/devcontrol_gateway/registry.py:111-134 | at every moment of a run whose drivers declare the categories they name every device has its view, so every snapshot can be built |
| Drivers.LightExecute | VirtualGateway/devcontrol_gateway/drivers.py:165-226 | the fields a light command writes, in order, and its errors |
| CommandLaws.LightCommand | VirtualGateway/devcontrol_gateway/drivers.py:165-226 | which payloads each light action accepts, the fields an accepted one leaves, and the code of each refusal |
| CommandLaws.AirConditionerSwitch | VirtualGateway/devcontrol_gateway/drivers.py:456-505 | the same for power, dehumidifying and brand of an air conditioner |
| CommandLaws.AirConditionerSetting | VirtualGateway/devcontrol_gateway/drivers.py:456-505 | the same for mode, temperature and fan speed; an argument the adapter refuses stays written |
| CommandLaws.BathHeaterCommand | VirtualGateway/devcontrol_gateway/drivers.py:550-570 | the same for a bath heater |
| CommandLaws.HumidifierCommand | VirtualGateway/devcontrol_gateway/drivers.py:638-663 | the same for a humidifier, with its target rounded half to even |
| CommandLaws.DoorLockCommand | VirtualGateway/devcontrol_gateway/drivers.py:685-726 | the same for a door, with its deadline and the alert of a jam |
| CommandLaws.CurtainCommand | VirtualGateway/devcontrol_gateway/drivers.py:823-856 | the same for a curtain: open goes to 100, close to 0, stop to where it is |
| CommandLaws.OtherCommand | VirtualGateway/devcontrol_gateway/drivers.py:74-81 | a sensor takes no command |
| CommandLaws.TakesNoCommand | VirtualGateway/devcontrol_gateway/registry.py:217-231 | why a device takes no command whatever it is, and what that leaves |
| CommandLaws.DirectCommand | VirtualGateway/devcontrol_gateway/registry.py:255-266 | a command in the registry: its device becomes what the family's law says, no other device changes, and the answer and the broadcast are its view |
| CommandLaws.SceneCommand | VirtualGateway/devcontrol_gateway/registry.py:238-252 | the id of a scene takes its one action and nothing else |
| Drivers.LightDriverTick | VirtualGateway/devcontrol_gateway/drivers.py:228-259 | the light automation in one tick |
| TickLaws.LightTicked | VirtualGateway/devcontrol_gateway/drivers.py:228-259 | what one tick makes of a light, case by case, from the room's sensor, the override and the absence |
| TickLaws.SensorTicked | VirtualGateway/devcontrol_gateway/drivers.py:333-387 | the readings after a tick within a rounding of eight and six hundredths of the way to the room's target, and their validity |
| TickLaws.DoorTicked | VirtualGateway/devcontrol_gateway/drivers.py:728-749 | a tick locks a door exactly when auto-lock is on, the door online, unlocked and past its deadline |
| TickLaws.CurtainTicked | VirtualGateway/devcontrol_gateway/drivers.py:858-879 | a tick moves a curtain by at most 10 toward its target and tells when it has arrived |
| TickLaws.OtherTicked | VirtualGateway/devcontrol_gateway/drivers.py:93-94 | a tick leaves the devices of the other families alone |
| TickLaws.SurroundingsMean | VirtualGateway/devcontrol_gateway/registry.py:201-209 | a device sees the first sensor and the first air conditioner of its room |
| TickLaws.TickOrderMeans | VirtualGateway/devcontrol_gateway/registry.py:324-331 | a tick takes every device once, by rank, and within a rank in the order of registration |
| TickLaws.TickReportsMoved | VirtualGateway/devcontrol_gateway/registry.py:324-335 | the views a tick hands out are those of the devices whose version it raised, as they are after it |
| TickLaws.TickAnnouncesMoved | VirtualGateway/devcontrol_gateway/registry.py:324-335 | the same for what the gateway broadcasts |
| TickLaws.FaultWrites | VirtualGateway/devcontrol_gateway/registry.py:337-363 | the fields a fault writes, jam and battery on doors only, under one version more if there was one |
| TickLaws.FaultInRegistry | VirtualGateway/devcontrol_gateway/registry.py:337-363 | the same in the registry, with the alert of a battery at 20 or less |
| TickLaws.ReadingsWrite | VirtualGateway/devcontrol_gateway/registry.py:397-412 | the readings an injection writes, held for 30 s |
| TickLaws.ReadingsInRegistry | VirtualGateway/devcontrol_gateway/registry.py:397-412 | the first sensor takes them, and without a sensor the injection is refused |
| Drivers.EnvironmentDriverTick | VirtualGateway/devcontrol_gateway/drivers.py:333-387 | one measurement of a sensor and its plausibility flag |
| Drivers.AirConditionerExecute | VirtualGateway/devcontrol_gateway/drivers.py:456-505 | the fields an air-conditioner command writes before the adapter accepts or refuses it |
| Drivers.BathHeaterExecute | VirtualGateway/devcontrol_gateway/drivers.py:550-570 | power and mode of a bath heater, or an error |
| Drivers.HumidifierExecute | VirtualGateway/devcontrol_gateway/drivers.py:638-663 | power and target of a humidifier, or an error; the target is rounded half to even |
| Drivers.DoorLockExecute | VirtualGateway/devcontrol_gateway/drivers.py:685-726 | locking, unlocking with its deadline, configuring, and the refusal of a jammed door |
| Drivers.DoorLockDriverTick | VirtualGateway/devcontrol_gateway/drivers.py:728-749 | the auto-lock in one tick |
| Drivers.CurtainExecute | VirtualGateway/devcontrol_gateway/drivers.py:823-856 | the target and the movement toward it |
| Drivers.CurtainDriverTick | VirtualGateway/devcontrol_gateway/drivers.py:858-879 | one step of at most ten percent |
| Drivers.DriverExecute | VirtualGateway/devcontrol_gateway/drivers.py:74-81 | the command of the family's own driver; sensors and plain devices refuse |
| Drivers.DriverTick | VirtualGateway/devcontrol_gateway/drivers.py:93-94 | the tick of the family's own driver |
| LightRules.ManualCommandRules | VirtualGateway/devcontrol_gateway/drivers.py:165-259 | no tick touches a light within 300 s of a successful manual command unless automation is reconfigured |
| LightRules.TicksRespectManualCommand | VirtualGateway/devcontrol_gateway/drivers.py:165-259 | the same for runs of the whole registry, the manual command coming from a client or from a scene |
| LightRules.SwitchedOffAfterAbsence | VirtualGateway/devcontrol_gateway/drivers.py:238-258 | for any acts on a light and any clock, a tick that switches it off sees absence, as did an earlier tick at least the delay before |
| LightRules.SwitchedOffIff | VirtualGateway/devcontrol_gateway/drivers.py:238-258 | with a clock that does not go back, a tick switches a lit light off exactly when it sees absence and some earlier tick, with no dark presence or reconfiguration since, saw absence at least the delay before; bright presence does not count |
| LightRuns.SeesFreshSensor | VirtualGateway/devcontrol_gateway/registry.py:324-335 | in a tick of the registry a light sees the sensor of its room as the whole tick leaves it |
| LightRuns.SwitchedOffOnlyAfterAbsence | VirtualGateway/devcontrol_gateway/drivers.py:228-259 | in every run of the registry, whatever its clock does, an automatic switch-off follows an absence that the room's own sensor reported at least the delay before |
| LightRuns.SwitchedOffExactly | VirtualGateway/devcontrol_gateway/drivers.py:228-259 | with ticks in time order a tick of the registry switches a lit light off exactly then |
| DoorAutoLock.AutoLocks | VirtualGateway/devcontrol_gateway/drivers.py:685-749 | after an unlock and no further command the door is locked again at a later moment exactly when a tick found it online at or after the deadline |
| DoorAutoLock.ArmedMeansOpen | VirtualGateway/devcontrol_gateway/drivers.py:702-749 | in every run a set deadline means auto-lock is on and the door unlocked |
| CurtainMotion.CurtainAfterTicks | VirtualGateway/devcontrol_gateway/drivers.py:858-879 | after k online ticks the distance is max(0, d - 10k), never past the target, and the ticks that report a change are the first ⌈d/10⌉ of them |
| CurtainMotion.CurtainInRegistry | VirtualGateway/devcontrol_gateway/drivers.py:858-879 | the same for a curtain left alone in a run of the registry |
| CurtainMotion.SentCurtainArrives | VirtualGateway/devcontrol_gateway/drivers.py:823-879 | in a run of the registry an accepted "open" with no command after it has the curtain at 100 after ⌈(100 - position)/10⌉ online ticks, and so for every target |
| CurtainMotion.AtTargetMeansStopped | VirtualGateway/devcontrol_gateway/drivers.py:863-868 | after any acts position and target are in 0..100 and a curtain at its target is stopped, so the branch for "arrived but not stopped" is never taken |
| RoomClimate.TemperatureContracts | VirtualGateway/devcontrol_gateway/drivers.py:333-370 | n measurements against a held target leave the temperature within 0.92^n of the first distance plus 0.875, and a temperature within 0.875 stays there, for every noise and rounding |
| RoomClimate.RoomApproachesTarget | VirtualGateway/devcontrol_gateway/drivers.py:333-370 | the same for a sensor in a run of the registry while the room's first air conditioner holds the target |
| RoomClimate.CoolingInTick | VirtualGateway/devcontrol_gateway/registry.py:324-335 | within one tick a sensor sees the air conditioner as it was before the tick |
| Pairing.NewPairingCode | VirtualGateway/devcontrol_gateway/security.py:304-309 | the first of sixteen candidates that differs from the previous code, or one of the two failures |
| Pairing.DrawFromMeans | VirtualGateway/devcontrol_gateway/security.py:299-309 | a new code is six digits and differs from the previous one; no code comes exactly when all candidates repeat it |
| Pairing.SessionRegistry.constructor | VirtualGateway/devcontrol_gateway/security.py:261-283 | the first code lives 300 s from construction |
| Pairing.NewSessionRegistry | VirtualGateway/devcontrol_gateway/security.py:261-283 | the first code is the configured one or is drawn; construction fails exactly for a lifetime that is not positive, a malformed code or a failed draw |
| Pairing.SessionRegistry.RotatePairingCode | VirtualGateway/devcontrol_gateway/security.py:315-318 | a new code and a new life, or a failure that changes nothing |
| Pairing.SessionRegistry.Show | VirtualGateway/devcontrol_gateway/security.py:285-288 | the code, replaced first when it has expired |
| Pairing.SessionRegistry.Pair | VirtualGateway/devcontrol_gateway/security.py:320-370 | one attempt: locked, wrong, locked from now on, or a session and then a new code |
| Pairing.SessionRegistry.Authenticate | VirtualGateway/devcontrol_gateway/security.py:372-384 | a known session before its expiry is returned, an expired one is dropped |
| Pairing.SessionRegistry.Revoke | VirtualGateway/devcontrol_gateway/security.py:389-390 | the session is dropped |
| PairingLaws.PairAnswer | VirtualGateway/devcontrol_gateway/security.py:320-370 | an attempt, told from the registry before it: the wait of a locked source, the count and the lock of a wrong code, the session, its expiry and the next code of a right one |
| PairingLaws.StuckAnswer | VirtualGateway/devcontrol_gateway/security.py:304-318 | a call fails before the attempt exactly when the code has expired and no candidate can replace it |
| PairingLaws.ShowAnswer | VirtualGateway/devcontrol_gateway/security.py:285-288 | the code shown is the current one or, if that has expired, the first usable candidate with a life of 300 s |
| PairingLaws.DrawnFrom | VirtualGateway/devcontrol_gateway/security.py:304-309 | the new code is the first of the sixteen candidates that differs from the previous one |
| GuessingBound.GuessRate | VirtualGateway/devcontrol_gateway/security.py:320-344 | in every run, wrong guesses compared from one source with no success between them number at most 5(⌊D/600 s⌋ + 1) in any D |
| GuessingBound.SixWrongGuesses | VirtualGateway/devcontrol_gateway/security.py:320-344 | six of them take at least 600 s |
| GuessingBound.AlwaysTracked | VirtualGateway/devcontrol_gateway/security.py:324-344 | in every run a source's failure count is its misses since the last success modulo five, and its lock dates from the last fifth of them |
| PairingCodes.FiveGuessesPerCode | VirtualGateway/devcontrol_gateway/security.py:311-344 | one source compares at most five wrong guesses with one issued code, if codes are replaced after use and no call stalls five minutes before comparing |
| UsedCodes.FiveGuessesThreshold | VirtualGateway/devcontrol_gateway/security.py:311-344 | where codes are replaced after use that bound holds over all runs exactly when no call stalls longer than 300 s |
| UsedCodes.SixGuessesOnOneCode | VirtualGateway/devcontrol_gateway/security.py:311-344 | the run for a stall of one millisecond more: six wrong guesses at one code |
| UsedCodes.SixGuessesAroundAUse | VirtualGateway/devcontrol_gateway/security.py:311-363 | where a used code is not replaced six wrong guesses at it need no time at all |
| PairingCodes.OneSessionPerCode | VirtualGateway/devcontrol_gateway/security.py:346-363 | a second session on one issued code means that replacing the code failed after the first |
| UsedCodes.StuckExactly | VirtualGateway/devcontrol_gateway/security.py:304-363 | a call opens a session exactly when its guess is right and its source not locked, and fails to replace the code exactly when besides its sixteen candidates hold no fresh one |
| UsedCodes.OneSessionExactly | VirtualGateway/devcontrol_gateway/security.py:304-363 | after a call that opened a session no continuation opens another on that code exactly when the call got a fresh candidate or the code's lifetime was over when it ended |
| UsedCodes.TwoSessionsOneCode | VirtualGateway/devcontrol_gateway/security.py:304-363 | a run in which one code opens two sessions |
| PairingCodes.StuckMeansRepeats | VirtualGateway/devcontrol_gateway/security.py:304-318 | with well-formed candidates that failure means all sixteen repeated the code |
| PairingCodes.WithinLifetime | VirtualGateway/devcontrol_gateway/security.py:311-346 | a session opens only with the current six-digit code and only by a call less than 300 s after its issue |
| PairingCodes.LiveExactly | VirtualGateway/devcontrol_gateway/security.py:346-390 | a credential is known exactly when a call opened it and since then it was neither revoked nor presented after its expiry |
| PairingCodes.WelcomeExactly | VirtualGateway/devcontrol_gateway/security.py:346-390 | in every run a presented credential is welcomed as a session exactly when an earlier call opened that session under it, it is before the call's time plus the lifetime, and it was neither revoked nor presented too late between |
| PairingCodes.RefusedIsGone | VirtualGateway/devcontrol_gateway/security.py:380-390 | a credential that was refused is not known afterwards |
| DeviceManager.Manager.SubmitRaw | DevControl/entry/src/main/ets/model/DeviceManager.ets:862-876 | a command is begun only online and for a device that is not pending, which it then is |
| DeviceManager.Manager.SendCompleted | DevControl/entry/src/main/ets/model/DeviceManager.ets:877-885 | a send that went through is recorded in the three tables with a timer due in 5 s |
| DeviceManager.Manager.SendFailed | DevControl/entry/src/main/ets/model/DeviceManager.ets:886-892 | a send that threw frees the device, and an authentication failure clears everything |
| DeviceManager.Manager.TimeoutElapsed | DevControl/entry/src/main/ets/model/DeviceManager.ets:879-884 | a timer that fires finishes its message if it is still pending |
| DeviceManager.Manager.HandleCommandResult | DevControl/entry/src/main/ets/model/DeviceManager.ets:932-961 | a result finishes its message |
| DeviceManager.Manager.FinishPending | DevControl/entry/src/main/ets/model/DeviceManager.ets:1010-1022 | the message leaves the three tables, its timer is cancelled and its device is no longer pending |
| DeviceManager.Manager.ClearAllCommandTimeouts | DevControl/entry/src/main/ets/model/DeviceManager.ets:1028-1034 | all recorded timers are cancelled, and the tables and the pending list are empty |
| DeviceManager.Manager.OnConnectionStateChanged | DevControl/entry/src/main/ets/model/DeviceManager.ets:229-241 | a disconnection clears the commands, other states do not |
| DeviceManager.Manager.InvalidateSession | DevControl/entry/src/main/ets/model/DeviceManager.ets:1040-1053 | disconnected, and the commands cleared |
| DeviceManager.Manager.ForgetGateway | DevControl/entry/src/main/ets/model/DeviceManager.ets:209-221 | the devices and the pending list are emptied; the message tables and timers are not |
| DeviceManager.Manager.ApplyDevice | DevControl/entry/src/main/ets/model/DeviceManager.ets:895-913 | the newer of two copies stays in its place, an unknown device goes to the end |
| DeviceManager.Manager.InstallSnapshot | DevControl/entry/src/main/ets/model/DeviceManager.ets:301-305 | a snapshot replaces the devices whatever their versions |
| DeviceManager.Manager.OnDeviceRemoved | DevControl/entry/src/main/ets/model/DeviceManager.ets:260-266 | all entries of the removed device leave the list |
| ClientLaws.Submission | DevControl/entry/src/main/ets/model/DeviceManager.ets:862-876 | a submission goes out exactly online and for a device that waits for nothing; otherwise nothing happens |
| ClientLaws.SendWentThrough | DevControl/entry/src/main/ets/model/DeviceManager.ets:877-885 | a send that went through becomes a message of its device and action with a timer due 5 s on |
| ClientLaws.SendThrew | DevControl/entry/src/main/ets/model/DeviceManager.ets:886-892 | a send that threw frees exactly its device |
| ClientLaws.Answer | DevControl/entry/src/main/ets/model/DeviceManager.ets:932-938 | the first answer or the timer removes the message and its timer and frees its device; a later answer finds nothing to do |
| ClientLaws.GivingUp | DevControl/entry/src/main/ets/model/DeviceManager.ets:1028-1053 | a lost session or connection and a shutdown end every wait and every timer; sends under way go on |
| ClientLaws.OtherEvent | DevControl/entry/src/main/ets/model/DeviceManager.ets:201-241 | the other events leave the waits alone, but for the pending list on forgetting the gateway |
| ClientLaws.TimersSet | DevControl/entry/src/main/ets/model/DeviceManager.ets:877-885 | in every run a timer was set when its message's send went through, five seconds before it is due |
| ClientLaws.UpdateInPlace | DevControl/entry/src/main/ets/model/DeviceManager.ets:895-913 | an update finds its device in place and puts an unknown one last |
| ClientLaws.RemovalInOrder | DevControl/entry/src/main/ets/model/DeviceManager.ets:260-266 | a removal takes out every entry of the device and leaves the others in order |
| ClientLaws.OneEntryEach | DevControl/entry/src/main/ets/model/DeviceManager.ets:243-266 | without a double entry at first there is none after any messages |
| ClientCommands.AlwaysSound | DevControl/entry/src/main/ets/model/DeviceManager.ets:856-1053 | under any interleaving: no duplicates in the pending list, one key set for the three tables, recorded timers and running timers match, and every pending device has a send or a message |
| ClientCommands.PendingExplained | DevControl/entry/src/main/ets/model/DeviceManager.ets:856-893 | a pending device has a send under way or a message whose timer is due within 5 s |
| ClientCommands.NothingStaysPending | DevControl/entry/src/main/ets/model/DeviceManager.ets:856-893 | 5 s after the sends have ended and none begins, once due timers have fired, nothing is pending and the tables are empty |
| ClientCommands.OneEachStep | DevControl/entry/src/main/ets/model/DeviceManager.ets:201-241 | one event keeps "one command under way per device, pending exactly then" exactly when it is calm: it does not clear the list, or it finds no other send under way and, when the gateway is forgotten, no message waiting |
| ClientCommands.OneEachExactly | DevControl/entry/src/main/ets/model/DeviceManager.ets:856-1053 | so that holds throughout a run exactly when every event of the run is calm |
| ClientCommands.UncalmLetsTwo | DevControl/entry/src/main/ets/model/DeviceManager.ets:201-241 | after any event that is not calm, reconnecting and one new command put two commands for one device under way |
| ClientCommands.ForgetLetsTwoUnderWay | DevControl/entry/src/main/ets/model/DeviceManager.ets:201-222 | a whole run of it: the gateway is forgotten with a command waiting, and the old timer frees the device while a new command for it is being sent |
| Messages.CopyIsNewestHeard | DevControl/entry/src/main/ets/model/DeviceManager.ets:243-266 | after any updates and removals in any order the client's copy of a device is the first newest view it heard of it since the last removal it was told of, and there is none exactly when it heard nothing |
| Messages.AbsentExactly | DevControl/entry/src/main/ets/model/DeviceManager.ets:260-266 | after any messages there is no copy of a device exactly when the last message about it was its removal, or there was none and no copy before |
| Messages.ReceivedNewest | DevControl/entry/src/main/ets/model/DeviceManager.ets:895-913 | without a removal of the device its copy is the newest of its old copy and the updates |
| Messages.OrderDoesNotMatter | DevControl/entry/src/main/ets/model/DeviceManager.ets:895-913 | two deliveries with the same updates of a device and no removal of it leave the same copy, whatever the order, the repetitions and the other messages |
| Replica.GenuineCoherent | DevControl/entry/src/main/ets/model/DeviceManager.ets:895-913 | views of one device with equal version are the same view, if that device is never removed and nothing is written silently to it, which is what order independence asks for |
| Replica.ReplicaSafe | DevControl/entry/src/main/ets/model/DeviceManager.ets:243-305 | with messages delayed, lost, repeated and reordered, every client copy is a view the gateway had, and for a device never removed nor silently written to, whatever happens to others, it is the gateway's view at that version and not newer than the gateway |
| Replica.VersionsRise | DevControl/entry/src/main/ets/model/DeviceManager.ets:895-913 | between snapshot installs and removals the version of a copy never falls |
| Replica.Converges | DevControl/entry/src/main/ets/model/DeviceManager.ets:895-913 | a client whose copy of such a device is as new as some moment, and that has every message about it since, in whatever order, has exactly the gateway's view of it |
| Replica.HistoryConverges | DevControl/entry/src/main/ets/model/DeviceManager.ets:296-305 | in any history of gateway, channel and client: if every message about such a device that was sent since the last installed snapshot was read has arrived since its installation, the client agrees with the gateway about it |
| Returns.AgreesExactly | DevControl/entry/src/main/ets/model/DeviceManager.ets:243-305 | about a device the gateway has, in any history, the client agrees exactly when the current view is the first newest of those it heard since the last removal it was told of |
| Returns.CurrentExactly | DevControl/entry/src/main/ets/model/DeviceManager.ets:243-305 | about such a device the client agrees exactly when a message or a snapshot brought it the current view |
| Returns.GoneExactly | VirtualGateway/devcontrol_gateway/app.py:352-365 | about a device the gateway does not have the client agrees exactly when the last message delivered about it is its removal, or none was and it had no copy |
| Returns.GoneSinceSnapshot | DevControl/entry/src/main/ets/model/DeviceManager.ets:260-305 | the same from the last snapshot on, in terms of the moment it was read |
| Returns.ReturnedExactly | DevControl/entry/src/main/ets/model/DeviceManager.ets:895-913 | about a device that may have been removed and registered again the client agrees exactly when the current view reached it after the last removal it was told of, behind no view of an earlier incarnation with a version as high and before none with a higher one |
| Returns.OldCopyShutsOut | DevControl/entry/src/main/ets/model/DeviceManager.ets:895-913 | a client with a copy from before the removal, told of no removal and given the new incarnation's views, keeps the old copy exactly until the new version passes it |
| LostRemovals.LateUpdateReturns | VirtualGateway/devcontrol_gateway/app.py:338-365 | a run from the start in which a late update brings a removed device back |
| LostRemovals.LostRemovalShutsOut | VirtualGateway/devcontrol_gateway/app.py:338-365 | a run from the start in which a lost removal keeps the client on version 2 of a device that was registered again |
| Base64Url.Encode | DevControl/entry/src/main/cpp/src/protocol_core.cpp:68-96 | the letters of the sextets of the bytes (RFC 4648, section 5, without padding) |
| Base64Url.Decode | DevControl/entry/src/main/cpp/src/protocol_core.cpp:98-116 | the bytes of the letters' sextets in spite of the wrapping 32-bit buffer; None for a letter outside the alphabet |
| Base64Url.DecodeEncode | DevControl/entry/src/main/cpp/src/protocol_core.cpp:68-116 | decoding the encoding of any bytes gives them back; the length is (4n + 2)/3 rounded down |
| Base64Url.EncodeDecode | DevControl/entry/src/main/cpp/src/protocol_core.cpp:68-116 | encoding what was decoded gives the text back exactly for canonical text (RFC 4648, section 3.5): length not 1 modulo 4 and unused bits zero |
| Base64Url.DecodeDomain | DevControl/entry/src/main/cpp/src/protocol_core.cpp:98-116 | what decodes, and its length |
| Base64Url.EncodedLetter | DevControl/entry/src/main/cpp/src/protocol_core.cpp:68-96 | each letter stands, by table 2 of RFC 4648, for six bits of its block of three bytes, highest first, with zeros beyond the last byte |
| Base64Url.DecodedByte | DevControl/entry/src/main/cpp/src/protocol_core.cpp:98-116 | each decoded byte is eight bits of its block of four letters, highest first |
| Base64Url.DecodesExactly | DevControl/entry/src/main/cpp/src/protocol_core.cpp:98-116 | a text decodes exactly when it is made of A-Z, a-z, 0-9, - and _ |
| DeviceParser.ParseOptions | DevControl/entry/src/main/ets/model/GenericDeviceModel.ets:142-163 | 1 to 20 well-formed options with distinct values, in order, or an error |
| DeviceParser.ValidateControlState | DevControl/entry/src/main/ets/model/GenericDeviceModel.ets:165-207 | whether the state has a value the control can show |
| DeviceParser.ValidateState | DevControl/entry/src/main/ets/model/GenericDeviceModel.ets:273-298 | at most 32 keys, all identifiers, with primitive, finite and short values |
| DeviceParser.ParseControls | DevControl/entry/src/main/ets/model/GenericDeviceModel.ets:309-332 | well-formed controls with distinct ids, in order, or an error |
| DeviceParser.ParseGenericDevice | DevControl/entry/src/main/ets/model/GenericDeviceModel.ets:257-334 | the generic device of a record, or an error |
| DeviceParser.SerializeControl | DevControl/entry/src/main/ets/model/GenericDeviceModel.ets:348-380 | the fields of a control, the optional ones only when they say something |
| DeviceParser.SerializeGenericDevice | DevControl/entry/src/main/ets/model/GenericDeviceModel.ets:336-391 | the record of a generic device |
| DeviceParser.ParseDevices | DevControl/entry/src/main/ets/model/DeviceModel.ets:362-392 | throws exactly when an entry is no record or a malformed built-in device; otherwise the devices of the well-formed entries |
| DeviceParser.SnapshotInOrder | DevControl/entry/src/main/ets/model/DeviceModel.ets:362-392 | one device for each well-formed entry, in the entries' order, and no other |
| DeviceParser.SnapshotRoundTrip | DevControl/entry/src/main/ets/model/DeviceModel.ets:362-478 | the devices of any snapshot survive serializing and parsing, all of them and in order |
| WireFormat.ViewParses | DevControl/entry/src/main/ets/model/DeviceModel.ets:276-360 | the client reads the record of a gateway view of any default driver exactly when its names, version, category and the fields the gateway does not bound are in the client's ranges, and then gets the gateway's fields back |
| SnapshotRuns.ThrowsExactly | DevControl/entry/src/main/ets/model/DeviceModel.ets:362-392 | the client throws away a whole snapshot of a reachable registry exactly when some device of a built-in type is out of those ranges |
| SnapshotRuns.ActReadable | VirtualGateway/devcontrol_gateway/drivers.py:165-749 | every command, tick, fault and reading that passed validation keeps a readable device readable, exactly unless it stores a refused argument |
| SnapshotRuns.ReadExactly | VirtualGateway/devcontrol_gateway/registry.py:111-134 | over every run of validated requests the client can read every snapshot exactly when no command of the run leaves a refused argument in an air conditioner |
| SnapshotRuns.ReadFromStart | VirtualGateway/devcontrol_gateway/composition.py:15-26 | the same for every run of the gateway from its start |
| SnapshotRuns.OneRefusalSpoilsSnapshot | VirtualGateway/devcontrol_gateway/drivers.py:470-505 | from the start one command that is answered with an error makes the snapshot unreadable |
| ParsedReplica.ReadCurrentExactly | DevControl/entry/src/main/ets/model/DeviceManager.ets:243-258 | with the parser in front, about a device never removed nor silently written to the client agrees exactly when an update that parsed or a snapshot that was taken brought the current view |
| ParsedReplica.ReadConverges | DevControl/entry/src/main/ets/model/DeviceManager.ets:296-305 | after a taken snapshot and every message about the device since, the client holds the current view exactly when it parses |
| ParsedReplica.ParsesWhenReadable | DevControl/entry/src/main/ets/model/DeviceModel.ets:276-360 | a view of a default driver parses exactly when it is in the client's ranges |
| ParsedReplica.ValidatedConverges | DevControl/entry/src/main/ets/model/DeviceManager.ets:243-305 | over every run of validated requests in which no air conditioner keeps a refused argument every snapshot is taken and the client converges to the gateway's devices of the built-in types |
| CodecLaws.RoundTripExactly | DevControl/entry/src/main/ets/model/DeviceModel.ets:276-478 | a device comes out of its own serialization, not removable, exactly when it is well formed |
| CodecLaws.ParsedOk | DevControl/entry/src/main/ets/model/DeviceModel.ets:276-360 | every device the parser returns is well formed |
| CodecLaws.ParsedRoundTrip | DevControl/entry/src/main/ets/model/GenericDeviceModel.ets:209-391 | so every device the parser returns survives the round trip |
| CodecMeaning.ReadExactly | DevControl/entry/src/main/ets/model/DeviceModel.ets:276-360 | a record is read as a device exactly when it describes that device: each key, type, range, list and default written out |
| CodecMeaning.ControlRead | DevControl/entry/src/main/ets/model/GenericDeviceModel.ets:165-255 | the same for one control, with the state it can show |
| CodecMeaning.WrittenExactly | DevControl/entry/src/main/ets/model/DeviceModel.ets:418-478 | what is serialized describes the device, not removable, exactly when the device is well formed |
| CodecMeaning.SpoilsExactly | DevControl/entry/src/main/ets/model/DeviceModel.ets:362-392 | an entry throws a snapshot away exactly when it is no record or has a built-in type and describes no device |
| AuditLog.GatewayStorage.RecordAudit | VirtualGateway/devcontrol_gateway/storage.py:67-97 | a row is appended with the last eight characters of the message id and an id above all others |
| AuditLog.GatewayStorage.GetLogs | VirtualGateway/devcontrol_gateway/storage.py:146-185 | the newest rows below the cursor, at most 1 to 100 of them, and the cursor of the next page if there is one |
| AuditLog.PageShows | VirtualGateway/devcontrol_gateway/storage.py:146-185 | a page shows the newest rows below the cursor, the smaller of their number and the limit between 1 and 100, and names a next cursor exactly when more are below |
| AuditLog.RecordedRow | VirtualGateway/devcontrol_gateway/storage.py:67-97 | the new row is the newest, under a higher id, with at most the last eight characters of the message id |
| AuditLog.PagesCoverLog | VirtualGateway/devcontrol_gateway/storage.py:146-185 | following the cursors, with any limits and any insertions between pages, ends and gives the rows of the first moment, each once, newest first |
| Features.GetCapability | DevControl/entry/src/main/ets/model/DeviceRegistry.ets:99-107 | the entry of a built-in type, none for other types |
| Features.GetHomeFeatures | DevControl/entry/src/main/ets/model/DeviceRegistry.ets:128-156 | the three built-in features, then one for each further category as its first device describes it |
| Features.GetFeature | DevControl/entry/src/main/ets/model/DeviceRegistry.ets:158-170 | the feature with the id, if there is one |
| Features.GetDevicesByFeature | DevControl/entry/src/main/ets/model/DeviceRegistry.ets:172-189 | the devices whose feature it is, in order; none for an unknown id |
| Features.GetRoomDevices | DevControl/entry/src/main/ets/model/DeviceRegistry.ets:191-207 | the devices of the room that are not home-only, in order |
| Features.GetRoomIds | DevControl/entry/src/main/ets/model/DeviceRegistry.ets:209-218 | the named rooms of the devices, each once |
| Features.FeaturesPartition | DevControl/entry/src/main/ets/model/DeviceRegistry.ets:128-189 | feature ids are distinct and the lists over them hold each device as often as it occurs |
| Features.ListKeepsOrder | DevControl/entry/src/main/ets/model/DeviceRegistry.ets:172-189 | each list keeps the order of the devices |
| Features.RoomsPartition | DevControl/entry/src/main/ets/model/DeviceRegistry.ets:191-218 | the room lists hold each device of a named room that is not home-only as often as it occurs, and no other |
| Features.ListedUnderFeature | DevControl/entry/src/main/ets/model/DeviceRegistry.ets:172-189 | a device is listed under the feature of its type, or of its category, and nowhere else |
| Features.ListedInRoom | DevControl/entry/src/main/ets/model/DeviceRegistry.ets:191-207 | a room lists its devices except locks and devices of home-only categories |
| Features.FirstFeatures | DevControl/entry/src/main/ets/model/DeviceRegistry.ets:128-156 | the first three features are lighting, environment and locks, of these types |
| Features.FurtherFeature | DevControl/entry/src/main/ets/model/DeviceRegistry.ets:128-156 | every further feature is made from the category of a device |
| Features.FeatureOfDevice | DevControl/entry/src/main/ets/model/DeviceRegistry.ets:128-156 | no device is without a feature |

## Left out

- Encryption, certificates, TLS and key storage: foreign calls; a command opens or does not, and the proof of a registration request has been checked before the registry sees it.
- HTTP routes, WebSocket, SSE and MQTT plumbing, the dashboard, pages, components, preference stores and QR images: input and output.
- The text of adapter frames, error messages and time stamps: a frame is its brand and its command, times are numbers.
- SQLite: the audit table is a growing list of rows; alerts and the environment history in storage are not kept, pending alerts are.
- The audit rows written by registrations and pairing: `GatewayService` writes those of commands only.
- Drivers.DoorLockDriverTick: does not record the audit row of an automatic lock.
- Drivers.EnvironmentDriverTick: does not record the history row of an online sensor.
- Pairing.SessionRegistry.Authenticate: takes the digest of the presented credential; decoding and hashing it, and the failure of that, are outside.
- DeviceManager.Manager.HandleCommandResult: results of scenes, the log entry and the refresh that follow are not modelled.
- DeviceManager.Manager.OnConnectionStateChanged: the refresh started on going online is not modelled; its snapshot arrives as an event of its own.
- Fields of devices of other drivers: abstract in `WireFormat`; the client skips a record of an unknown type that it cannot read.
- The driver look-up: a device's driver is that of its family; `Structure` shows that every stored type has a driver of that family.
- The built-in sort behind the tick order is the function `ByPriority`, a stable sort by priority.
- The sleep of an injected command delay of at most 5 s: the command goes on at the same reading of the clock.
- Floating-point rounding of reals other than the explicit rounding to tenths.
- Non-ASCII digits in pairing codes and guesses.
- Names every JavaScript object inherits: a record has the keys it was given.
- Replica.Converges: for histories in which no driver is added while serving.
- Returns.ReturnedExactly: for incarnations to which nothing is written silently; `Returns.AgreesExactly` has no such condition.
- The client's rooms, logs, alerts, history, pairing dialogue and scene configuration: lists that are only replaced or prefixed.
- SnapshotRuns.ReadExactly: for versions below 2^53, the largest integer the client reads.
