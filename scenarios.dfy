/**
  Client code that uses only the contracts of the device layer, in the
  manner of a robot interface that opens devices, runs actions on them and
  tears them down.
 */
module Scenarios {
  import opened Params
  import opened Threads
  import opened Drivers
  import opened Devices

  /** A motion-control device is opened, asked to calibrate a target that is
      not calibratable, and closed: the open and close succeed as the driver
      reports, the calibration fails and no thread is registered. */
  method LeftArmScenario() returns (openOk: bool, calibrated: bool, registered: nat, closed: bool)
    ensures openOk && !calibrated && registered == 0 && closed
  {
    var d := new Device("leftArm", "fakeMotionControl", [Param("period", "0.01")], []);
    openOk := d.Open(ps => ps, true, {Calibrator});
    var target := new PolyDriver();
    calibrated := d.Calibrate(Descriptor("leftArmTarget", target), true);
    registered := |d.holder.runningThreads|;
    closed := d.Close(true);
  }

  /** Two handles share one driver: destroying the first leaves the driver
      open for the second, and the driver is closed once, when the second
      goes. */
  method SharedDriverScenario() returns (openAfterFirst: bool, ghost closes: nat)
    ensures openAfterFirst && closes == 1
  {
    var first := new Device("head", "fakeMotionControl", [], []);
    var ok := first.Open(ps => ps, true, {});
    var second := new Device.Copy(first);
    first.Destroy(true);
    assert second.Valid();
    openAfterFirst := second.holder.driver.valid;
    ghost var before := second.holder.trace;
    assert multiset(before)[DriverClose] == 0 by {
      assert |before| == 1 && before[0].DriverOpen?;
      assert before == [before[0]];
    }
    second.Destroy(true);
    assert second.holder.trace == before + [DriverClose, DriverDelete, HolderDelete];
    closes := multiset(second.holder.trace)[DriverClose];
  }

  /** A calibration and a parking thread are registered; stopping and then
      draining the registry empties it and signals, joins and deletes each of
      them exactly once; each thread's counts are (joins, deletes). */
  method TeardownScenario() returns (remaining: nat, ghost calibratorCounts: (nat, nat), ghost parkerCounts: (nat, nat))
    ensures remaining == 0 && calibratorCounts == (1, 1) && parkerCounts == (1, 1)
  {
    var d := new Device("torso", "fakeCalibrator", [], []);
    var calibrator := new Thread(ActionCalibrate, "torso", "torsoTarget");
    d.holder.RegisterThread(calibrator);
    var parker := new Thread(ActionPark, "torso", "torsoTarget");
    d.holder.RegisterThread(parker);
    ghost var ts := d.holder.runningThreads;
    d.holder.StopThreads();
    d.holder.JoinThreads();
    remaining := |d.holder.runningThreads|;
    assert d.holder.trace == StopLog(ts) + JoinLog(ts);
    StopThenJoinOnce(ts, calibrator);
    StopThenJoinOnce(ts, parker);
    calibratorCounts := (multiset(d.holder.trace)[ThreadJoin(calibrator)], multiset(d.holder.trace)[ThreadDelete(calibrator)]);
    parkerCounts := (multiset(d.holder.trace)[ThreadJoin(parker)], multiset(d.holder.trace)[ThreadDelete(parker)]);
  }
}
