/**
  Background action threads (the calibrator threads that calibrate and park
  run) and the log of the effects the device layer has on threads and
  drivers. Thread bodies are not modelled: starting, stopping, joining and
  deleting a thread are recorded as effects, in the order they happen.
 */
module Threads {
  import opened Params

  /** What a calibrator thread is asked to do with its target. */
  datatype CalibratorAction = ActionCalibrate | ActionPark

  /** A background thread spawned by calibrate or park. */
  class Thread {
    const action: CalibratorAction
    const deviceName: string
    const targetKey: string

    constructor (action: CalibratorAction, deviceName: string, targetKey: string)
      ensures this.action == action
      ensures this.deviceName == deviceName && this.targetKey == targetKey
    {
      this.action := action;
      this.deviceName := deviceName;
      this.targetKey := targetKey;
    }
  }

  /** One externally visible effect, as it is recorded in a holder's log. */
  datatype Effect =
    | ThreadStop(t: Thread)          // Thread::stop, a cooperative signal
    | ThreadJoin(t: Thread)          // Thread::join
    | ThreadDelete(t: Thread)        // delete of the thread object
    | ThreadStart(t: Thread)         // Thread::start
    | SetCalibrator(target: string)  // IControlCalibration::setCalibrator on the target
    | LinkRemoteCalibrator(target: string) // IRemoteCalibrator::setCalibratorDevice on the target
    | DriverOpen(config: Property)   // PolyDriver::open
    | DriverClose                    // PolyDriver::close
    | DriverDelete                   // delete of the PolyDriver
    | HolderDelete                   // delete of the shared holder itself

  /** No thread appears twice in the list. */
  predicate Distinct(ts: seq<Thread>)
  {
    forall i, j | 0 <= i < j < |ts| :: ts[i] != ts[j]
  }

  /** The effects of signalling every thread of `ts`, in list order. */
  function StopLog(ts: seq<Thread>): seq<Effect>
  {
    if ts == [] then [] else StopLog(ts[..|ts| - 1]) + [ThreadStop(ts[|ts| - 1])]
  }

  /** The effects of draining `ts`: each thread in list order is joined and
      then deleted. */
  function JoinLog(ts: seq<Thread>): seq<Effect>
  {
    if ts == [] then []
    else JoinLog(ts[..|ts| - 1]) + [ThreadJoin(ts[|ts| - 1]), ThreadDelete(ts[|ts| - 1])]
  }

  /** Stopping is one signal per entry, at the entry's position. */
  lemma {:induction false} StopLogAt(ts: seq<Thread>)
    ensures |StopLog(ts)| == |ts|
    ensures forall i | 0 <= i < |ts| :: StopLog(ts)[i] == ThreadStop(ts[i])
  {
    if ts != [] {
      StopLogAt(ts[..|ts| - 1]);
    }
  }

  /** Draining joins the i-th entry at position 2i and deletes it right after,
      at 2i + 1. */
  lemma {:induction false} JoinLogAt(ts: seq<Thread>)
    ensures |JoinLog(ts)| == 2 * |ts|
    ensures forall i | 0 <= i < |ts| ::
      JoinLog(ts)[2 * i] == ThreadJoin(ts[i]) && JoinLog(ts)[2 * i + 1] == ThreadDelete(ts[i])
  {
    if ts != [] {
      JoinLogAt(ts[..|ts| - 1]);
    }
  }

  /** Draining a list without duplicates joins every listed thread exactly
      once, deletes it exactly once, and touches no other thread. */
  lemma {:induction false} JoinLogOnce(ts: seq<Thread>, t: Thread)
    requires Distinct(ts)
    ensures multiset(JoinLog(ts))[ThreadJoin(t)] == (if t in ts then 1 else 0)
    ensures multiset(JoinLog(ts))[ThreadDelete(t)] == (if t in ts then 1 else 0)
    ensures multiset(JoinLog(ts))[ThreadStop(t)] == 0
  {
    if ts != [] {
      var front, last := ts[..|ts| - 1], ts[|ts| - 1];
      JoinLogOnce(front, t);
      assert ts == front + [last];
      assert t in ts <==> t in front || t == last;
      assert last !in front;
      assert multiset(JoinLog(ts))
        == multiset(JoinLog(front)) + multiset{ThreadJoin(last), ThreadDelete(last)};
    }
  }

  /** Signalling touches every listed thread exactly once and nothing else. */
  lemma {:induction false} StopLogOnce(ts: seq<Thread>, t: Thread)
    requires Distinct(ts)
    ensures multiset(StopLog(ts))[ThreadStop(t)] == (if t in ts then 1 else 0)
    ensures multiset(StopLog(ts))[ThreadJoin(t)] == 0
    ensures multiset(StopLog(ts))[ThreadDelete(t)] == 0
  {
    if ts != [] {
      var front, last := ts[..|ts| - 1], ts[|ts| - 1];
      StopLogOnce(front, t);
      assert ts == front + [last];
      assert t in ts <==> t in front || t == last;
      assert last !in front;
      assert multiset(StopLog(ts)) == multiset(StopLog(front)) + multiset{ThreadStop(last)};
    }
  }

  /** The teardown sequence "stop every thread, then drain the registry"
      signals, joins and deletes each registered thread exactly once, and the
      signal of every thread comes before the first join. */
  lemma StopThenJoinOnce(ts: seq<Thread>, t: Thread)
    requires Distinct(ts)
    ensures |StopLog(ts) + JoinLog(ts)| == 3 * |ts|
    ensures var log := StopLog(ts) + JoinLog(ts);
      && multiset(log)[ThreadStop(t)] == (if t in ts then 1 else 0)
      && multiset(log)[ThreadJoin(t)] == (if t in ts then 1 else 0)
      && multiset(log)[ThreadDelete(t)] == (if t in ts then 1 else 0)
    ensures forall i | 0 <= i < |ts| :: (StopLog(ts) + JoinLog(ts))[i] == ThreadStop(ts[i])
    ensures forall i | 0 <= i < |ts| :: (StopLog(ts) + JoinLog(ts))[|ts| + 2 * i] == ThreadJoin(ts[i])
  {
    StopLogOnce(ts, t);
    JoinLogOnce(ts, t);
    StopLogAt(ts);
    JoinLogAt(ts);
  }
}
