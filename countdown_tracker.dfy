/** `AdSessionCountdownTracker`: one iteration of the polling loop (publish
    the three remaining quantities, call the per-tick callback, then call the
    fire callback when the rule holds) and the `start`/`stop` replacement of
    the loop's job. */
module CountdownTracker {
  import opened JvmInt
  import opened TriggerPolicy
  import opened SessionManager

  datatype JobStatus = Active | Cancelled

  /** A callback invoked during one iteration. */
  datatype TickCall = TrackerCallback | TriggerCallback

  class AdSessionCountdownTracker {
    const adSessionManager: AdMobSessionManager
    const hasAdTriggerCallback: bool
    const hasAdTrackerCallback: bool

    /** The last values published to observers. */
    var minTimeFlow: Long
    var maxTimeFlow: Long
    var remainingEventFlow: Int

    /** Every job `start` has launched, oldest first, and the one the `job`
        field holds (none before the first `start`). */
    var jobs: seq<JobStatus>
    var job: int

    /** Only the job in the `job` field can still be running. */
    predicate Valid()
      reads this
    {
      && -1 <= job < |jobs|
      && forall i :: 0 <= i < |jobs| && i != job ==> jobs[i] == Cancelled
    }

    predicate Running()
      reads this
    {
      0 <= job < |jobs| && jobs[job] == Active
    }

    constructor (manager: AdMobSessionManager, hasTrigger: bool, hasTracker: bool)
      ensures Valid() && !Running()
      ensures adSessionManager == manager
      ensures hasAdTriggerCallback == hasTrigger && hasAdTrackerCallback == hasTracker
      ensures minTimeFlow == 0 && maxTimeFlow == 0 && remainingEventFlow == 0
      ensures jobs == []
    {
      adSessionManager := manager;
      hasAdTriggerCallback := hasTrigger;
      hasAdTrackerCallback := hasTracker;
      minTimeFlow, maxTimeFlow, remainingEventFlow := 0, 0, 0;
      jobs, job := [], -1;
    }

    /** `stop`: cancels the job in the `job` field, if any. */
    method Stop()
      requires Valid()
      modifies this`jobs
      ensures Valid() && !Running()
      ensures |jobs| == |old(jobs)|
      ensures forall i :: 0 <= i < |jobs| ==> jobs[i] == Cancelled
    {
      if job >= 0 {
        jobs := jobs[job := Cancelled];
      }
    }

    /** `start`: stops the current job first, then launches a new loop. */
    method Start()
      requires Valid()
      modifies this`jobs, this`job
      ensures Valid() && Running()
      ensures |jobs| == |old(jobs)| + 1 && job == |jobs| - 1
      ensures forall i :: 0 <= i < job ==> jobs[i] == Cancelled
    {
      Stop();
      jobs := jobs + [Active];
      job := |jobs| - 1;
    }

    /** One iteration of the running loop at clock `now` (iterations are
        1000 ms apart; the wait is not modelled). It reads the
        manager's state but changes none of it: any reset is up to the fire
        callback. */
    method Tick(now: Long) returns (calls: seq<TickCall>)
      requires Valid() && Running()
      requires adSessionManager.Configured()
      modifies this`minTimeFlow, this`maxTimeFlow, this`remainingEventFlow
      ensures minTimeFlow >= 0 && maxTimeFlow >= 0 && remainingEventFlow >= 0
      ensures minTimeFlow == adSessionManager.GetRemainingMinTime(now)
      ensures maxTimeFlow == adSessionManager.GetRemainingMaxTime(now)
      ensures remainingEventFlow == adSessionManager.GetRemainingEventCount()
      ensures calls ==
                (if hasAdTrackerCallback then [TrackerCallback] else [])
                + (if hasAdTriggerCallback && ShouldFire(adSessionManager.Record(), now)
                   then [TriggerCallback] else [])
    {
      var minLeft := AtLeastZero(adSessionManager.GetRemainingMinTime(now));
      var maxLeft := AtLeastZero(adSessionManager.GetRemainingMaxTime(now));
      var eventLeft := AtLeastZero(adSessionManager.GetRemainingEventCount());
      minTimeFlow := minLeft;
      maxTimeFlow := maxLeft;
      remainingEventFlow := eventLeft;

      calls := [];
      if hasAdTrackerCallback {
        calls := calls + [TrackerCallback];
      }

      var sessionConfigure := adSessionManager.sessionConfigure;
      var isMaxTime := sessionConfigure.IsMaxTimePassed(now);
      var isMinTimeAndEvent := sessionConfigure.IsMinTimePassed(now) && sessionConfigure.IsMinEventCountReached();
      DecideMatchesTrackerCondition(adSessionManager.Record(), now);
      if (isMaxTime || isMinTimeAndEvent) && hasAdTriggerCallback {
        calls := calls + [TriggerCallback];
      }
    }
  }
}
