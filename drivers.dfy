/**
  The polymorphic driver the device layer owns and probes. Its own open and
  close are external: their reported outcomes are parameters, and the
  capabilities an opened device answers `view` for are given when it opens.
 */
module Drivers {
  import opened Params

  /** The optional interfaces the device layer probes with `view`. */
  datatype Capability =
    | Calibrator          // ICalibrator, on the calibrating device
    | ControlCalibration  // IControlCalibration, on the target of calibrate/park
    | RemoteCalibrator    // IRemoteCalibrator, on both sides of the remote-calibration link
    | Wrapper             // IWrapper: attach/detach one target
    | MultipleWrapper     // IMultipleWrapper: attachAll/detachAll over a list

  /** A PolyDriver: valid while it holds an opened device, which exposes `caps`. */
  class PolyDriver {
    var valid: bool
    var caps: set<Capability>

    /** A fresh PolyDriver holds no device. */
    constructor ()
      ensures !valid && caps == {}
    {
      valid := false;
      caps := {};
    }

    /** `view<C>()` succeeds only on an opened device that implements C. */
    function View(c: Capability): (r: bool)
      reads this
      ensures r ==> valid
    {
      valid && c in caps
    }

    /** PolyDriver::open. The driver reports `reported`; a successful open
        leaves a device exposing `exposed`, a failed one leaves none. */
    method Open(config: Property, reported: bool, exposed: set<Capability>) returns (ok: bool)
      modifies this
      ensures ok == reported && valid == reported
      ensures caps == if reported then exposed else {}
    {
      ok := reported;
      valid := reported;
      caps := if reported then exposed else {};
    }

    /** PolyDriver::close. The driver reports `reported`; either way no device
        is held afterwards. */
    method Close(reported: bool) returns (ok: bool)
      modifies this
      ensures ok == reported && !valid && caps == {}
    {
      ok := reported;
      valid := false;
      caps := {};
    }
  }

  /** A PolyDriverDescriptor: a target driver and the key it is known by. */
  datatype Descriptor = Descriptor(key: string, poly: PolyDriver)
}
