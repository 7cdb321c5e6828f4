# yarp robot-interface Device, modelled in Dafny

This project models the `Device` of YARP's robot interface
(`src/libYARP_robotinterface/src/yarp/robotinterface/Device.cpp`). A device is a
named, typed handle onto a `PolyDriver`. It is configured by a parameter list, and
every copy of a device shares one driver holder. The model covers four parts:

- **Shared driver holder** (`Device::Private::Driver`, class `Devices.Holder`).
  It counts references. A copy increments the count. Destroying a handle decrements it.
  The last owner signals the registered threads, closes the driver if it is valid, and
  then deletes the driver and the holder. A ghost set `owners` holds the live handles,
  and the invariant `ref == |owners|` ties the count to them.
- **Thread registry** on the holder (`registerThread`, `joinThreads`, `stopThreads`).
  `runningThreads` is a sequence that the methods reassign. Starting, stopping, joining
  and deleting a thread are effects of code that is not modelled here. They go, in
  order, into a ghost log `trace` on the holder. `StopLog` and `JoinLog` give the exact
  log each operation produces. Lemmas show that draining the registry joins and deletes
  every registered thread exactly once, joining each one before deleting it.
- **Lifecycle** (`open`, `close`, `paramsAsProperty`).
  - The configuration record is the sequence of steps that build it: `put` of `device`
    and `id`, then one `fromString` group per merged parameter.
  - The parenthesis scan is the counter loop of the source, proved against a
    `Balanced` predicate.
  - The driver's own `open`/`close` results are parameters.
- **Action orchestration**.
  - `calibrate` and `park` are methods. They register a fresh calibrator thread and
    then start it. Whether the start succeeds is a parameter.
  - `attach` and `detach` are pure decision functions over the capability set of the
    driver. A function `succeeds` says which wrapper calls the driver accepts. Each
    function is proved equal to a reference policy, `TryInOrder`: try the candidates
    in a fixed priority order and stop at the first success.
    `Devices.Device.AttachTargets` and `DetachTargets` apply them to the interfaces
    that `view` finds on the device's own driver.

Files:

- `params.dfy`: parameters, configuration steps, and the balance scan with its lemmas.
- `threads.dfy`: thread handles, the effect log, and the stop/join logs with their
  exactly-once lemmas.
- `drivers.dfy`: capabilities and the abstract `PolyDriver`.
- `wrapping.dfy`: the attach/detach decisions.
- `device.dfy`: the holder, its registry, and the `Device` class.
- `scenarios.dfy`: client code that relies only on the contracts.

Points of the code's behaviour that the model keeps as written:

- `joinThreads` joins a thread first. Only after the join does it take the list lock,
  erase the entry and delete the thread.
- When the last owner destroys the holder, the registered threads are signalled
  (`stopThreads`) but never joined or deleted. `Devices.Device.Destroy` states this:
  the log gains the stop signals and no join or delete.
- "Last wins" merging of duplicate parameters is the job of `mergeDuplicateGroups`,
  and its code is not part of this model. The model takes the merge as a
  function-typed parameter and makes no claim about it.

## Model

| member | source | states |
|---|---|---|
| `Params.ParenBalance` | src/libYARP_robotinterface/src/yarp/robotinterface/Device.cpp:163-175 | The counter is zero exactly when the value is a balanced parenthesis string, which is when no warning is issued. It is negative (then exactly -1, because the loop stops at once) exactly when some prefix closes more than it opened. Otherwise it is the net depth. |
| `Params.BalancedValueGivesBalancedGroup` | src/libYARP_robotinterface/src/yarp/robotinterface/Device.cpp:163-178 | When the scan does not warn and the name has no parentheses, the `(name value)` group handed to the parser is itself balanced. |
| `Threads.StopLogAt` | src/libYARP_robotinterface/src/yarp/robotinterface/Device.cpp:143-150 | Stopping produces one stop signal per list entry, in list order. |
| `Threads.JoinLogAt` | src/libYARP_robotinterface/src/yarp/robotinterface/Device.cpp:121-141 | Draining joins the i-th entry and deletes it immediately after, entry by entry in list order. |
| `Threads.JoinLogOnce` | src/libYARP_robotinterface/src/yarp/robotinterface/Device.cpp:121-141 | For a list without duplicates, draining joins each listed thread exactly once and deletes it exactly once. It joins or deletes no other thread and stops none. |
| `Threads.StopLogOnce` | src/libYARP_robotinterface/src/yarp/robotinterface/Device.cpp:143-150 | Stopping signals each listed thread exactly once and never joins or deletes one. |
| `Threads.StopThenJoinOnce` | src/libYARP_robotinterface/src/yarp/robotinterface/Device.cpp:121-150 | Stop then drain: each registered thread is signalled, joined and deleted exactly once, and every stop comes before the first join. |
| `Wrapping.TryInOrder` | src/libYARP_robotinterface/src/yarp/robotinterface/Device.cpp:419-490 | The fallback policy shared by attach and detach. The calls made are a prefix of the candidates, and every call before the last one failed. The result is true exactly when some candidate succeeds, and then the last call is the one that succeeded. On failure every candidate was tried. |
| `Wrapping.Attach` | src/libYARP_robotinterface/src/yarp/robotinterface/Device.cpp:419-454 | Attach equals trying IWrapper (only with exactly one target) and then IMultipleWrapper::attachAll. It succeeds exactly when one of those is present and accepts. IWrapper is tried exactly when there is one target and it is present. attachAll is tried exactly when IMultipleWrapper is present and IWrapper did not already succeed. |
| `Wrapping.Detach` | src/libYARP_robotinterface/src/yarp/robotinterface/Device.cpp:456-490 | Detach equals trying IMultipleWrapper::detachAll and then IWrapper::detach. It fails when neither is present. detachAll is tried exactly when IMultipleWrapper is present. IWrapper::detach is tried exactly when it is present and detachAll did not succeed. |
| `Wrapping.AttachDetachPriorityAsymmetry` | src/libYARP_robotinterface/src/yarp/robotinterface/Device.cpp:429-476 | On a driver with both interfaces and one target, attach tries IWrapper first and detach tries IMultipleWrapper first. |
| `Devices.Holder.constructor` | src/libYARP_robotinterface/src/yarp/robotinterface/Device.cpp:34-38 | A fresh holder owns a fresh, closed PolyDriver, has an empty registry, and has reference count 1. |
| `Devices.Holder.RegisterThread` | src/libYARP_robotinterface/src/yarp/robotinterface/Device.cpp:112-119 | Appends exactly the given thread at the end of the list and changes nothing else. The registry stays duplicate-free and holds no deleted thread. |
| `Devices.Holder.JoinThreads` | src/libYARP_robotinterface/src/yarp/robotinterface/Device.cpp:121-141 | Ends with an empty list. The log gains exactly a join and then a delete for each old entry, in list order. |
| `Devices.Holder.StopThreads` | src/libYARP_robotinterface/src/yarp/robotinterface/Device.cpp:143-150 | Leaves the list unchanged. The log gains exactly one stop per entry, in list order. |
| `Devices.Device.Default` | src/libYARP_robotinterface/src/yarp/robotinterface/Device.cpp:208-212 | An unnamed device on a fresh holder with count 1. Its driver is closed once right away, and the driver stays invalid. |
| `Devices.Device.constructor` | src/libYARP_robotinterface/src/yarp/robotinterface/Device.cpp:214-224 | A device with the given name, type, parameters and actions, on a fresh holder with count 1, whose driver is not open. |
| `Devices.Device.Copy` | src/libYARP_robotinterface/src/yarp/robotinterface/Device.cpp:51-55 | The copy shares the same holder, and the shared count goes up by one. Name, type, parameters and actions are duplicated. Both handles remain valid owners. |
| `Devices.Device.Destroy` | src/libYARP_robotinterface/src/yarp/robotinterface/Device.cpp:64-78 | The count goes down by one, and the holder is deleted exactly when it reaches zero. Then the log gains, in order: a stop for every registered thread, a driver close only if the driver was valid, the driver deletion and the holder deletion. Otherwise the holder stays valid and neither the driver nor the log changes. |
| `Devices.Device.ParamsAsProperty` | src/libYARP_robotinterface/src/yarp/robotinterface/Device.cpp:152-182 | The configuration is `device = type` and `id = name`, followed by one `(name value)` group per merged parameter in order, warned or not. For each parameter, a warning is issued exactly when its value is not balanced. |
| `Devices.Device.Open` | src/libYARP_robotinterface/src/yarp/robotinterface/Device.cpp:298-311 | If the driver is already valid, returns false and neither calls the driver nor changes it. Otherwise it calls the driver's open once, on the configuration built from the parameters, and returns exactly the driver's result. |
| `Devices.Device.Close` | src/libYARP_robotinterface/src/yarp/robotinterface/Device.cpp:313-327 | If the driver is not valid, returns true without calling the driver. Otherwise it calls the driver's close once and returns exactly its result. |
| `Devices.Device.AttachTargets` | src/libYARP_robotinterface/src/yarp/robotinterface/Device.cpp:419-454 | Attach on this device's own driver: with the driver not open, every `view` fails, so no wrapper call is made and attach fails. With the driver open, it is exactly `Wrapping.Attach` over the interfaces the driver exposes. |
| `Devices.Device.DetachTargets` | src/libYARP_robotinterface/src/yarp/robotinterface/Device.cpp:456-490 | Detach on this device's own driver: with the driver not open, no wrapper call is made and detach fails. With the driver open, it is exactly `Wrapping.Detach` over the interfaces the driver exposes. |
| `Devices.Device.SpawnCalibratorThread` | src/libYARP_robotinterface/src/yarp/robotinterface/Device.cpp:403-416 | Registers one fresh thread for the given action and target, then starts it. The result is the start result, and a thread that fails to start stays registered. |
| `Devices.Device.Calibrate` | src/libYARP_robotinterface/src/yarp/robotinterface/Device.cpp:359-417 | Without ICalibrator on the device or IControlCalibration on the target, returns false and changes neither the registry nor the log. Otherwise it sets the calibrator on the target and makes the remote-calibrator link only if both sides implement IRemoteCalibrator. It then registers one fresh calibrate thread and starts it. The result is the start result. |
| `Devices.Device.Park` | src/libYARP_robotinterface/src/yarp/robotinterface/Device.cpp:492-531 | Returns false with no change when the driver is not valid or a capability is missing. Otherwise it sets the calibrator, registers one fresh park thread and starts it, and returns the start result. It makes no remote link. |
| `Scenarios.LeftArmScenario` | src/libYARP_robotinterface/src/yarp/robotinterface/Device.cpp:298-376 | Open a device, calibrate a target without IControlCalibration, then close. Open and close succeed, calibration fails, and no thread is registered. |
| `Scenarios.SharedDriverScenario` | src/libYARP_robotinterface/src/yarp/robotinterface/Device.cpp:51-78 | With two handles on one driver, destroying one leaves the driver open for the other. The driver is closed exactly once. |
| `Scenarios.TeardownScenario` | src/libYARP_robotinterface/src/yarp/robotinterface/Device.cpp:112-150 | Register two threads, stop them, then drain. The registry ends empty, and both the calibrate thread and the park thread are joined exactly once and deleted exactly once. |

## Left out

- Concurrency: the two semaphores (`registerThreadSemaphore`, `threadListSemaphore`) are not modelled. Each registry operation is one atomic sequential step, so "a registration attempted during a join waits until the list is empty" is not captured.
- Thread bodies: the calibrator thread's calibrate/park routines, the real effect of `join` and `stop`, and `start` all live in code that is not part of this model. They are recorded as log effects, and the start result is a parameter.
- PolyDriver behaviour: the driver's own `open`, `close` and `view` are external. The model assumes an open that reports success leaves a valid driver exposing the given capabilities, a failed open leaves it invalid, a close always leaves it invalid, and `view` succeeds only on a driver that holds an opened device.
- `mergeDuplicateGroups` is a function-typed parameter. `Property::put` and `Property::fromString` are recorded as configuration steps and not interpreted. `hasParam` and `findParam` forward to code that is not part of this model.
- `Private::operator=` is explicitly not implemented in the source. `Device::operator=` copies the holder struct without any ownership rule. Neither is modelled.
- The copy constructor's `*mPriv->driver = *other.mPriv->driver` assigns the shared holder to itself, which is a no-op, so it is not modelled.
- Logging: the warnings, errors and `operator<<` are diagnostics only. The parenthesis warning is returned as a per-parameter flag.
- The `if (!driver())` guards in calibrate, attach, detach and park cannot fail, because every holder owns a PolyDriver from construction. They are not modelled.
- Accessors (`name()`, `type()`, `params()`, `actions()`, `driver()`) are field reads of `Devices.Device`. `Device::registerThread`, `joinThreads` and `stopThreads` forward to the holder's methods, which are modelled.
- `Devices.Holder.RegisterThread` requires a thread that is not already listed and not yet deleted. The source does not check this, but a second registration would make `joinThreads` delete that thread twice. Within this file its only callers, calibrate and park, always pass a newly allocated thread. `Device::registerThread` is public, though, and a client that registers the same thread twice makes `joinThreads` join and delete it twice; that case is not modelled.
- The reference count is an unbounded integer. Overflow of the C++ `int` is not modelled.
- Wrapping.Attach: takes only the number of target drivers. Which driver is passed to `IWrapper::attach` and which list is passed to `attachAll` are not modelled.
- Devices.Device.SpawnCalibratorThread: the thread records its action, device name and target key. It does not record the calibrator interface or the target driver it is bound to.
- Devices.Device.Calibrate: the calls to `setCalibrator` and `setCalibratorDevice` are logged against the target's key. Their return values are ignored, as in the source.
- Action descriptors are carried as opaque values. The device only stores and copies them.
