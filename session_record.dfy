/** The persisted session record (the five fields of `AdSessionModel`) as a
    value, and the three trigger conditions evaluated on it. */
module SessionRecord {
  import opened JvmInt

  /** The single key under which the record is stored. */
  const KEY_PREF: string := "ad_mob_session"

  datatype Session = Session(
    minTime: Long,
    maxTime: Long,
    minEventCount: Int,
    totalEventCount: Int,
    lastRunTime: Long)

  /** Time elapsed since the last run, computed with Kotlin `Long` subtraction. */
  function Elapsed(s: Session, now: Long): (r: Long)
  {
    LongSub(now, s.lastRunTime)
  }

  /** `isMinTimePassed`: at least `minTime` has elapsed since `lastRunTime`. */
  predicate MinTimePassed(s: Session, now: Long)
    ensures InLong(now - s.lastRunTime) ==>
              (MinTimePassed(s, now) <==> now - s.lastRunTime >= s.minTime)
  {
    Elapsed(s, now) >= s.minTime
  }

  /** `isMaxTimePassed`: at least `maxTime` has elapsed since `lastRunTime`. */
  predicate MaxTimePassed(s: Session, now: Long)
    ensures InLong(now - s.lastRunTime) ==>
              (MaxTimePassed(s, now) <==> now - s.lastRunTime >= s.maxTime)
  {
    Elapsed(s, now) >= s.maxTime
  }

  /** `isMinEventCountReached`: the accumulated count has reached the minimum. */
  predicate MinEventCountReached(s: Session)
    ensures MinEventCountReached(s) <==> s.minEventCount - s.totalEventCount <= 0
  {
    s.totalEventCount >= s.minEventCount
  }

  /** A clock far enough from `lastRunTime` for the `Long` difference to wrap
      reports the opposite of the mathematical comparison. */
  lemma ElapsedWrapsWhenClockFarAhead(s: Session, now: Long)
    requires now - s.lastRunTime > LONG_MAX
    requires s.minTime >= 0
    ensures !MinTimePassed(s, now)
  {
  }

  /** The record's fields after `updateTotalEventCount(count)`: the count is
      increased with `Int` addition, everything else is kept. */
  function WithAddedEvents(s: Session, count: Int): (r: Session)
    ensures r.totalEventCount == IntAdd(s.totalEventCount, count)
    ensures InInt(s.totalEventCount + count) ==> r.totalEventCount == s.totalEventCount + count
    ensures r.minTime == s.minTime && r.maxTime == s.maxTime
    ensures r.minEventCount == s.minEventCount && r.lastRunTime == s.lastRunTime
  {
    s.(totalEventCount := IntAdd(s.totalEventCount, count))
  }
}
