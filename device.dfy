/**
  The robot-interface Device: a named, typed, configured handle onto a
  PolyDriver that several Device copies share through a reference-counted
  holder. The holder also keeps the registry of the calibrator threads that
  calibrate and park spawn.

  The source splits a Device into a handle and a private implementation
  object owned one-to-one by it; here both are the class `Device`. The shared
  holder (Device::Private::Driver) is the class `Holder`.
 */
module Devices {
  import opened Params
  import opened Threads
  import opened Drivers
  import opened Wrapping

  /** An action descriptor of the device's description. The device only
      stores and copies its actions. */
  datatype Action = Action(description: string)

  /** Device::Private::Driver: the PolyDriver shared by all copies of a
      device, the registry of running threads, and the reference count. */
  class Holder {
    const driver: PolyDriver
    var runningThreads: seq<Thread>
    var ref: int
    /** The live Device handles that share this holder. */
    ghost var owners: set<Device>
    /** Every effect on threads and drivers made through this holder, in order. */
    ghost var trace: seq<Effect>
    /** The holder (and its driver) has been deleted. */
    ghost var released: bool

    /** No thread is listed twice, and no listed thread has been deleted. */
    ghost predicate RegistryValid()
      reads this
    {
      && Distinct(runningThreads)
      && forall i | 0 <= i < |runningThreads| :: ThreadDelete(runningThreads[i]) !in trace
    }

    /** A live holder counts exactly the handles that share it. */
    ghost predicate Valid()
      reads this
    {
      RegistryValid() && !released && ref >= 1 && ref == |owners|
    }

    /** Driver(new PolyDriver()): the count starts at one, for the handle
        that is being built (which adds itself to `owners`). */
    constructor ()
      ensures fresh(driver) && !driver.valid && driver.caps == {}
      ensures runningThreads == [] && ref == 1
      ensures owners == {} && trace == [] && !released
    {
      driver := new PolyDriver();
      runningThreads := [];
      ref := 1;
      owners := {};
      trace := [];
      released := false;
    }

    /** registerThread: append the thread at the end of the list. */
    method RegisterThread(thread: Thread)
      requires RegistryValid()
      requires thread !in runningThreads && ThreadDelete(thread) !in trace
      modifies this`runningThreads
      ensures runningThreads == old(runningThreads) + [thread]
      ensures RegistryValid()
    {
      runningThreads := runningThreads + [thread];
    }

    /** joinThreads: take the entries in list order; join each, erase it from
        the list and delete it. Ends with an empty list. */
    method JoinThreads()
      requires RegistryValid()
      modifies this`runningThreads, this`trace
      ensures runningThreads == []
      ensures trace == old(trace) + JoinLog(old(runningThreads))
      ensures RegistryValid()
    {
      ghost var done: seq<Thread> := [];
      while runningThreads != []
        invariant old(runningThreads) == done + runningThreads
        invariant trace == old(trace) + JoinLog(done)
        decreases |runningThreads|
      {
        var thread := runningThreads[0];
        trace := trace + [ThreadJoin(thread)];
        runningThreads := runningThreads[1..];
        trace := trace + [ThreadDelete(thread)];
        assert (done + [thread])[..|done|] == done;
        done := done + [thread];
      }
      assert done + [] == done;
    }

    /** stopThreads: signal every entry, in list order; the list is unchanged. */
    method StopThreads()
      requires RegistryValid()
      modifies this`trace
      ensures trace == old(trace) + StopLog(runningThreads)
      ensures RegistryValid()
    {
      for i := 0 to |runningThreads|
        invariant trace == old(trace) + StopLog(runningThreads[..i])
      {
        assert runningThreads[..i + 1][..i] == runningThreads[..i];
        trace := trace + [ThreadStop(runningThreads[i])];
      }
      assert runningThreads[..|runningThreads|] == runningThreads;
      StopLogAt(runningThreads);
    }
  }

  class Device {
    var name: string
    var deviceType: string
    var params: seq<Param>
    var actions: seq<Action>
    const holder: Holder

    /** This handle is one of the live owners of a live holder. */
    ghost predicate Valid()
      reads this, holder
    {
      holder.Valid() && this in holder.owners
    }

    /** Device(): an unnamed device on a fresh holder; the constructor closes
        the fresh driver straight away (its result is discarded). */
    constructor Default()
      ensures Valid() && fresh(holder) && fresh(holder.driver)
      ensures name == "" && deviceType == "" && params == [] && actions == []
      ensures holder.owners == {this} && holder.ref == 1 && holder.runningThreads == []
      ensures !holder.driver.valid && holder.trace == [DriverClose]
    {
      name, deviceType, params, actions := "", "", [], [];
      holder := new Holder();
      new;
      holder.owners := {this};
      var discarded := holder.driver.Close(false);
      holder.trace := holder.trace + [DriverClose];
    }

    /** Device(name, type, params, actions): a closed device on a fresh holder. */
    constructor (name: string, deviceType: string, params: seq<Param>, actions: seq<Action>)
      ensures Valid() && fresh(holder) && fresh(holder.driver)
      ensures this.name == name && this.deviceType == deviceType
      ensures this.params == params && this.actions == actions
      ensures holder.owners == {this} && holder.ref == 1 && holder.runningThreads == []
      ensures !holder.driver.valid && holder.trace == []
    {
      this.name, this.deviceType, this.params, this.actions := name, deviceType, params, actions;
      holder := new Holder();
      new;
      holder.owners := {this};
    }

    /** Copy construction: the copy duplicates name, type, parameters and
        actions and shares the holder, whose count goes up by one. */
    constructor Copy(other: Device)
      requires other.Valid()
      modifies other.holder`ref, other.holder`owners
      ensures Valid() && other.Valid()
      ensures holder == other.holder
      ensures name == other.name && deviceType == other.deviceType
      ensures params == other.params && actions == other.actions
      ensures holder.ref == old(other.holder.ref) + 1
      ensures holder.owners == old(other.holder.owners) + {this}
    {
      name, deviceType, params, actions := other.name, other.deviceType, other.params, other.actions;
      holder := other.holder;
      new;
      assert this !in holder.owners;
      holder.ref := holder.ref + 1;
      holder.owners := holder.owners + {this};
    }

    /** Destruction of a handle: the count goes down by one. Only the last
        owner tears down: it signals every registered thread, closes the
        driver if it is valid (a failure is only reported), then deletes the
        driver and the holder. Registered threads are signalled, not joined. */
    method Destroy(closeReported: bool)
      requires Valid()
      modifies holder`ref, holder`owners, holder`trace, holder`released, holder.driver
      ensures holder.ref == old(holder.ref) - 1
      ensures holder.owners == old(holder.owners) - {this}
      ensures holder.released <==> old(holder.ref) == 1
      ensures !holder.released ==>
        holder.Valid() && holder.trace == old(holder.trace) && unchanged(holder.driver)
      ensures holder.released ==>
        && !holder.driver.valid
        && holder.trace == old(holder.trace) + StopLog(holder.runningThreads)
             + (if old(holder.driver.valid) then [DriverClose] else [])
             + [DriverDelete, HolderDelete]
    {
      holder.ref := holder.ref - 1;
      holder.owners := holder.owners - {this};
      if holder.ref == 0 {
        holder.StopThreads();
        if holder.driver.valid {
          var closed := holder.driver.Close(closeReported);
          holder.trace := holder.trace + [DriverClose];
        }
        holder.trace := holder.trace + [DriverDelete, HolderDelete];
        holder.released := true;
      }
    }

    /** paramsAsProperty: the driver configuration built from the merged
        parameters, and for each merged parameter whether the balance scan
        warns about it. Every parameter is passed through either way. */
    method ParamsAsProperty(merge: seq<Param> -> seq<Param>) returns (prop: Property, warned: seq<bool>)
      ensures ConfigFor(prop, deviceType, name, merge(params))
      ensures |warned| == |merge(params)|
      ensures forall i | 0 <= i < |warned| :: warned[i] <==> !Balanced(merge(params)[i].value)
    {
      var p := merge(params);
      prop := [Put("device", deviceType), Put("id", name)];
      warned := [];
      for i := 0 to |p|
        invariant ConfigFor(prop, deviceType, name, p[..i])
        invariant |warned| == i
        invariant forall j | 0 <= j < i :: warned[j] <==> !Balanced(p[j].value)
      {
        var counter := ParenBalance(p[i].value);
        warned := warned + [counter != 0];
        prop := prop + [FromString(GroupText(p[i]))];
      }
      assert p[..|p|] == p;
    }

    /** open: refused when the driver is already valid (its open is not
        called); otherwise the driver is opened on the configuration built
        from the parameters and its result is returned. */
    method Open(merge: seq<Param> -> seq<Param>, reported: bool, exposed: set<Capability>) returns (ok: bool)
      requires Valid()
      modifies holder`trace, holder.driver
      ensures Valid()
      ensures old(holder.driver.valid) ==>
        !ok && unchanged(holder.driver) && holder.trace == old(holder.trace)
      ensures !old(holder.driver.valid) ==>
        && ok == reported && holder.driver.valid == reported
        && holder.driver.caps == (if reported then exposed else {})
        && |holder.trace| == |old(holder.trace)| + 1
        && holder.trace[..|old(holder.trace)|] == old(holder.trace)
        && holder.trace[|old(holder.trace)|].DriverOpen?
        && ConfigFor(holder.trace[|old(holder.trace)|].config, deviceType, name, merge(params))
    {
      if holder.driver.valid {
        return false;
      }
      var prop, warned := ParamsAsProperty(merge);
      ok := holder.driver.Open(prop, reported, exposed);
      holder.trace := holder.trace + [DriverOpen(prop)];
    }

    /** close: success without calling the driver when it is not valid;
        otherwise the driver is closed and its result returned. */
    method Close(reported: bool) returns (ok: bool)
      requires Valid()
      modifies holder`trace, holder.driver
      ensures Valid()
      ensures !old(holder.driver.valid) ==>
        ok && unchanged(holder.driver) && holder.trace == old(holder.trace)
      ensures old(holder.driver.valid) ==>
        ok == reported && !holder.driver.valid && holder.trace == old(holder.trace) + [DriverClose]
    {
      if !holder.driver.valid {
        return true;
      }
      ok := holder.driver.Close(reported);
      holder.trace := holder.trace + [DriverClose];
    }

    /** attach on this device: the wrapper interfaces probed are those `view`
        finds on the driver. An unopened driver exposes none, so attach then
        makes no call and fails. */
    function AttachTargets(targets: nat, succeeds: WrapperCall -> bool): (r: ActionOutcome)
      reads this, holder, holder.driver
      ensures !holder.driver.valid ==> r.calls == [] && !r.ok
      ensures holder.driver.valid ==> r == Attach(holder.driver.caps, targets, succeeds)
    {
      var views := set c | c in holder.driver.caps && holder.driver.View(c);
      Attach(views, targets, succeeds)
    }

    /** detach on this device, over the interfaces `view` finds on the
        driver; on an unopened driver it makes no call and fails. */
    function DetachTargets(succeeds: WrapperCall -> bool): (r: ActionOutcome)
      reads this, holder, holder.driver
      ensures !holder.driver.valid ==> r.calls == [] && !r.ok
      ensures holder.driver.valid ==> r == Detach(holder.driver.caps, succeeds)
    {
      var views := set c | c in holder.driver.caps && holder.driver.View(c);
      Detach(views, succeeds)
    }

    /** Create a calibrator thread for `action` on the target, register it,
        then start it. A thread that fails to start stays registered. */
    method SpawnCalibratorThread(action: CalibratorAction, targetKey: string, startReported: bool)
      returns (ok: bool)
      requires Valid()
      modifies holder`runningThreads, holder`trace
      ensures Valid()
      ensures ok == startReported
      ensures |holder.runningThreads| == |old(holder.runningThreads)| + 1
      ensures holder.runningThreads[..|old(holder.runningThreads)|] == old(holder.runningThreads)
      ensures var t := holder.runningThreads[|old(holder.runningThreads)|];
        && fresh(t) && t.action == action && t.deviceName == name && t.targetKey == targetKey
        && holder.trace == old(holder.trace) + [ThreadStart(t)]
    {
      var thread := new Thread(action, name, targetKey);
      holder.RegisterThread(thread);
      holder.trace := holder.trace + [ThreadStart(thread)];
      ok := startReported;
    }

    /** calibrate: needs ICalibrator on this device and IControlCalibration on
        the target, otherwise it fails and registers nothing. The remote
        calibrator link is made only when both sides implement
        IRemoteCalibrator; its absence never fails the action. The result is
        whether the registered calibrator thread starts. */
    method Calibrate(target: Descriptor, startReported: bool) returns (ok: bool)
      requires Valid()
      modifies holder`runningThreads, holder`trace
      ensures Valid()
      ensures !(holder.driver.View(Calibrator) && target.poly.View(ControlCalibration)) ==>
        !ok && holder.runningThreads == old(holder.runningThreads) && holder.trace == old(holder.trace)
      ensures holder.driver.View(Calibrator) && target.poly.View(ControlCalibration) ==>
        && ok == startReported
        && |holder.runningThreads| == |old(holder.runningThreads)| + 1
        && holder.runningThreads[..|old(holder.runningThreads)|] == old(holder.runningThreads)
        && var t := holder.runningThreads[|old(holder.runningThreads)|];
          && fresh(t) && t.action == ActionCalibrate && t.deviceName == name && t.targetKey == target.key
          && holder.trace == old(holder.trace) + [SetCalibrator(target.key)]
               + (if target.poly.View(RemoteCalibrator) && holder.driver.View(RemoteCalibrator)
                  then [LinkRemoteCalibrator(target.key)] else [])
               + [ThreadStart(t)]
    {
      if !holder.driver.View(Calibrator) {
        return false;
      }
      if !target.poly.View(ControlCalibration) {
        return false;
      }
      holder.trace := holder.trace + [SetCalibrator(target.key)];
      var remoteAvailable := true;
      if !target.poly.View(RemoteCalibrator) {
        remoteAvailable := false;
      }
      if remoteAvailable && !holder.driver.View(RemoteCalibrator) {
        remoteAvailable := false;
      }
      if remoteAvailable {
        holder.trace := holder.trace + [LinkRemoteCalibrator(target.key)];
      }
      ok := SpawnCalibratorThread(ActionCalibrate, target.key, startReported);
    }

    /** park: fails early when the driver is not valid; otherwise the same
        capability checks as calibrate, no remote link, and a parking thread. */
    method Park(target: Descriptor, startReported: bool) returns (ok: bool)
      requires Valid()
      modifies holder`runningThreads, holder`trace
      ensures Valid()
      ensures !(holder.driver.valid && holder.driver.View(Calibrator) && target.poly.View(ControlCalibration)) ==>
        !ok && holder.runningThreads == old(holder.runningThreads) && holder.trace == old(holder.trace)
      ensures holder.driver.valid && holder.driver.View(Calibrator) && target.poly.View(ControlCalibration) ==>
        && ok == startReported
        && |holder.runningThreads| == |old(holder.runningThreads)| + 1
        && holder.runningThreads[..|old(holder.runningThreads)|] == old(holder.runningThreads)
        && var t := holder.runningThreads[|old(holder.runningThreads)|];
          && fresh(t) && t.action == ActionPark && t.deviceName == name && t.targetKey == target.key
          && holder.trace == old(holder.trace) + [SetCalibrator(target.key), ThreadStart(t)]
    {
      if !holder.driver.valid {
        return false;
      }
      if !holder.driver.View(Calibrator) {
        return false;
      }
      if !target.poly.View(ControlCalibration) {
        return false;
      }
      holder.trace := holder.trace + [SetCalibrator(target.key)];
      ok := SpawnCalibratorThread(ActionPark, target.key, startReported);
    }
  }
}
