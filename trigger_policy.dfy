/** The decision rule of `processEventTrigger` and the countdown queries,
    as functions of a session record and the clock. */
module TriggerPolicy {
  import opened JvmInt
  import opened SessionRecord

  datatype Decision = FireOnMaxTime | FireOnMinTimeAndEvents | NoFire

  /** The two cases in the order the manager tests them: the maximum time
      forces a fire; otherwise minimum time and minimum events together do. */
  function Decide(s: Session, now: Long): (d: Decision)
    ensures d == FireOnMaxTime <==> MaxTimePassed(s, now)
    ensures d == FireOnMinTimeAndEvents <==>
              !MaxTimePassed(s, now) && MinTimePassed(s, now) && MinEventCountReached(s)
  {
    if MaxTimePassed(s, now) then FireOnMaxTime
    else if MinTimePassed(s, now) && MinEventCountReached(s) then FireOnMinTimeAndEvents
    else NoFire
  }

  /** Without overflow of the elapsed time: fire when the maximum time has
      elapsed, or the minimum time has elapsed and the minimum count is met. */
  predicate ShouldFire(s: Session, now: Long)
    ensures InLong(now - s.lastRunTime) ==>
              (ShouldFire(s, now) <==>
                 now - s.lastRunTime >= s.maxTime
                 || (now - s.lastRunTime >= s.minTime && s.totalEventCount >= s.minEventCount))
  {
    Decide(s, now) != NoFire
  }

  /** The manager's two-step rule and the tracker's one-line condition
      `isMaxTime || (isMinTime && isMinEvents)` agree. */
  lemma DecideMatchesTrackerCondition(s: Session, now: Long)
    ensures ShouldFire(s, now) <==>
              MaxTimePassed(s, now) || (MinTimePassed(s, now) && MinEventCountReached(s))
  {
  }

  /** Once the maximum time has passed the rule fires, whatever the count. */
  lemma MaxTimeOverridesEvents(s: Session, now: Long, count: Int)
    requires MaxTimePassed(s, now)
    ensures Decide(s.(totalEventCount := count), now) == FireOnMaxTime
  {
  }

  /** Before the maximum time, the minimum time alone does not fire. */
  lemma MinTimeAloneNeverFires(s: Session, now: Long)
    requires !MaxTimePassed(s, now) && !MinEventCountReached(s)
    ensures !ShouldFire(s, now)
  {
  }

  /** Before the minimum time (and the maximum), no count fires. */
  lemma EventsAloneNeverFire(s: Session, now: Long, count: Int)
    requires !MaxTimePassed(s, now) && !MinTimePassed(s, now)
    ensures !ShouldFire(s.(totalEventCount := count), now)
  {
  }

  /** With the minimum time passed and the maximum not, the rule fires
      exactly when the count reaches the minimum. */
  lemma JointConditionDecides(s: Session, now: Long)
    requires MinTimePassed(s, now) && !MaxTimePassed(s, now)
    ensures ShouldFire(s, now) <==> s.totalEventCount >= s.minEventCount
    ensures ShouldFire(s, now) ==> Decide(s, now) == FireOnMinTimeAndEvents
  {
  }

  /** A fire stays due as the clock advances, as long as the elapsed time
      does not overflow `Long`. */
  lemma FireStaysDueLater(s: Session, t1: Long, t2: Long)
    requires t1 <= t2
    requires InLong(t1 - s.lastRunTime) && InLong(t2 - s.lastRunTime)
    requires ShouldFire(s, t1)
    ensures ShouldFire(s, t2)
  {
    assert MinTimePassed(s, t1) ==> MinTimePassed(s, t2);
    assert MaxTimePassed(s, t1) ==> MaxTimePassed(s, t2);
  }

  /** A fire stays due as events accumulate. */
  lemma FireStaysDueWithMoreEvents(s: Session, now: Long, count: Int)
    requires count >= s.totalEventCount
    requires ShouldFire(s, now)
    ensures ShouldFire(s.(totalEventCount := count), now)
  {
  }

  /** Nothing in the code keeps the drawn `minTime` below `maxTime`; when it
      is not below, only the maximum time can fire. */
  lemma MinTimeAtOrAboveMaxTime(s: Session, now: Long)
    requires s.minTime >= s.maxTime
    ensures ShouldFire(s, now) <==> MaxTimePassed(s, now)
  {
  }

  /** `max(0, (lastRunTime + threshold) - now)`, with `Long` arithmetic. */
  function RemainingTime(lastRunTime: Long, threshold: Long, now: Long): (r: Long)
    ensures r >= 0
    ensures InLong(lastRunTime + threshold) && InLong(lastRunTime + threshold - now) ==>
              r == AtLeastZero(lastRunTime + threshold - now)
  {
    AtLeastZero(LongSub(LongAdd(lastRunTime, threshold), now))
  }

  /** `max(0, minEventCount - totalEventCount)`, with `Int` arithmetic. */
  function RemainingEvents(minEventCount: Int, totalEventCount: Int): (r: Int)
    ensures r >= 0
    ensures InInt(minEventCount - totalEventCount) ==>
              r == AtLeastZero(minEventCount - totalEventCount)
  {
    AtLeastZero(IntSub(minEventCount, totalEventCount))
  }

  /** Without overflow, the remaining minimum time is zero exactly when the
      minimum time has passed, and likewise for the maximum time. */
  lemma RemainingTimeZeroIffPassed(s: Session, now: Long)
    requires InLong(now - s.lastRunTime)
    requires InLong(s.lastRunTime + s.minTime) && InLong(s.lastRunTime + s.maxTime)
    requires InLong(s.lastRunTime + s.minTime - now) && InLong(s.lastRunTime + s.maxTime - now)
    ensures RemainingTime(s.lastRunTime, s.minTime, now) == 0 <==> MinTimePassed(s, now)
    ensures RemainingTime(s.lastRunTime, s.maxTime, now) == 0 <==> MaxTimePassed(s, now)
  {
  }

  /** Without overflow, no events remain exactly when the minimum is reached. */
  lemma RemainingEventsZeroIffReached(s: Session)
    requires InInt(s.minEventCount - s.totalEventCount)
    ensures RemainingEvents(s.minEventCount, s.totalEventCount) == 0 <==> MinEventCountReached(s)
  {
  }
}
