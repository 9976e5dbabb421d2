/** `AdSessionConfigure`: eight immutable calibration bounds, the thresholds
    drawn from them, the configure's own count and run time, and the inner
    session record that the trigger predicates read. */
module SessionConfigure {
  import opened Wrappers
  import opened JvmInt
  import opened SessionRecord
  import opened Preferences
  import opened SessionModel

  /** The four calibration ranges, each given as a pair of bounds. */
  datatype Ranges = Ranges(
    minTime1: Long, minTime2: Long,
    maxTime1: Long, maxTime2: Long,
    minEventCount1: Int, minEventCount2: Int,
    maxEventCount1: Int, maxEventCount2: Int)

  /** One set of active thresholds. */
  datatype Thresholds = Thresholds(minTime: Long, maxTime: Long, minEventCount: Int, maxEventCount: Int)

  /** The random source's output for one `recalc`: one sample per draw. */
  datatype Samples = Samples(minTime: nat, maxTime: nat, minEventCount: nat, maxEventCount: nat)

  /** Why construction throws: one of the four `require`s, or an empty
      draw interval because `high + 1` wrapped around. */
  datatype ConfigError =
    | MinTimeRangeInvalid
    | MaxTimeRangeInvalid
    | MinEventCountRangeInvalid
    | MaxEventCountRangeInvalid
    | EmptyDrawRange

  /** `Random.nextLong(from, until)`: a value in `[from, until)` chosen by
      `sample`; an empty interval throws, modelled as `None`. */
  function NextLong(from: Long, until: Long, sample: nat): (r: Option<Long>)
    ensures r.Some? <==> from < until
    ensures r.Some? ==> from <= r.value < until
  {
    if from < until then Some(from + sample % (until - from)) else None
  }

  /** `Random.nextInt(from, until)`, as `NextLong` on `Int`. */
  function NextInt(from: Int, until: Int, sample: nat): (r: Option<Int>)
    ensures r.Some? <==> from < until
    ensures r.Some? ==> from <= r.value < until
  {
    if from < until then Some(from + sample % (until - from)) else None
  }

  /** The sample model restricts nothing: every value of the interval is drawn
      by some sample. */
  lemma NextLongReachesEvery(from: Long, until: Long, v: Long)
    requires from <= v < until
    ensures exists sample: nat :: NextLong(from, until, sample) == Some(v)
  {
    SmallRemainder(v - from, until - from);
    assert NextLong(from, until, v - from) == Some(v);
  }

  lemma NextIntReachesEvery(from: Int, until: Int, v: Int)
    requires from <= v < until
    ensures exists sample: nat :: NextInt(from, until, sample) == Some(v)
  {
    SmallRemainder(v - from, until - from);
    assert NextInt(from, until, v - from) == Some(v);
  }

  lemma SmallRemainder(a: int, n: int)
    requires 0 <= a < n
    ensures a % n == a
  {
  }

  /** The ranges for which construction succeeds: the four strict
      inequalities, and no upper bound at its type's maximum. */
  predicate RangesAccepted(r: Ranges)
  {
    && r.minTime1 < r.minTime2 && r.maxTime1 < r.maxTime2
    && r.minEventCount1 < r.minEventCount2 && r.maxEventCount1 < r.maxEventCount2
    && r.minTime2 < LONG_MAX && r.maxTime2 < LONG_MAX
    && r.minEventCount2 < INT_MAX && r.maxEventCount2 < INT_MAX
  }

  /** The exception construction throws, if any, in the order the source
      meets them: the four `require`s, then the four draws of `recalc`. */
  function ConstructionError(r: Ranges): (e: Option<ConfigError>)
    ensures e.None? <==> RangesAccepted(r)
    ensures e == Some(MinTimeRangeInvalid) <==> r.minTime1 >= r.minTime2
    ensures e == Some(MaxTimeRangeInvalid) <==> r.minTime1 < r.minTime2 && r.maxTime1 >= r.maxTime2
    ensures e == Some(MinEventCountRangeInvalid) <==>
              r.minTime1 < r.minTime2 && r.maxTime1 < r.maxTime2 && r.minEventCount1 >= r.minEventCount2
    ensures e == Some(MaxEventCountRangeInvalid) <==>
              && r.minTime1 < r.minTime2 && r.maxTime1 < r.maxTime2
              && r.minEventCount1 < r.minEventCount2 && r.maxEventCount1 >= r.maxEventCount2
    ensures e == Some(EmptyDrawRange) <==>
              && r.minTime1 < r.minTime2 && r.maxTime1 < r.maxTime2
              && r.minEventCount1 < r.minEventCount2 && r.maxEventCount1 < r.maxEventCount2
              && (r.minTime2 == LONG_MAX || r.maxTime2 == LONG_MAX
                  || r.minEventCount2 == INT_MAX || r.maxEventCount2 == INT_MAX)
  {
    if !(r.minTime1 < r.minTime2) then Some(MinTimeRangeInvalid)
    else if !(r.maxTime1 < r.maxTime2) then Some(MaxTimeRangeInvalid)
    else if !(r.minEventCount1 < r.minEventCount2) then Some(MinEventCountRangeInvalid)
    else if !(r.maxEventCount1 < r.maxEventCount2) then Some(MaxEventCountRangeInvalid)
    else if NextLong(r.minTime1, LongAdd(r.minTime2, 1), 0).None? then Some(EmptyDrawRange)
    else if NextLong(r.maxTime1, LongAdd(r.maxTime2, 1), 0).None? then Some(EmptyDrawRange)
    else if NextInt(r.minEventCount1, IntAdd(r.minEventCount2, 1), 0).None? then Some(EmptyDrawRange)
    else if NextInt(r.maxEventCount1, IntAdd(r.maxEventCount2, 1), 0).None? then Some(EmptyDrawRange)
    else None
  }

  /** Every threshold lies in the closed interval of its range. */
  predicate InRanges(t: Thresholds, r: Ranges)
  {
    && r.minTime1 <= t.minTime <= r.minTime2
    && r.maxTime1 <= t.maxTime <= r.maxTime2
    && r.minEventCount1 <= t.minEventCount <= r.minEventCount2
    && r.maxEventCount1 <= t.maxEventCount <= r.maxEventCount2
  }

  /** `randomMinTime()`: `nextLong(minTime1, minTime2 + 1)`. */
  function RandomMinTime(r: Ranges, sample: nat): (v: Long)
    requires RangesAccepted(r)
    ensures r.minTime1 <= v <= r.minTime2
  {
    NextLong(r.minTime1, LongAdd(r.minTime2, 1), sample).value
  }

  /** `randomMaxTime()`: `nextLong(maxTime1, maxTime2 + 1)`. */
  function RandomMaxTime(r: Ranges, sample: nat): (v: Long)
    requires RangesAccepted(r)
    ensures r.maxTime1 <= v <= r.maxTime2
  {
    NextLong(r.maxTime1, LongAdd(r.maxTime2, 1), sample).value
  }

  /** `randomMinEventCount()`: `nextInt(minEventCount1, minEventCount2 + 1)`. */
  function RandomMinEventCount(r: Ranges, sample: nat): (v: Int)
    requires RangesAccepted(r)
    ensures r.minEventCount1 <= v <= r.minEventCount2
  {
    NextInt(r.minEventCount1, IntAdd(r.minEventCount2, 1), sample).value
  }

  /** `randomMaxEventCount()`: `nextInt(maxEventCount1, maxEventCount2 + 1)`. */
  function RandomMaxEventCount(r: Ranges, sample: nat): (v: Int)
    requires RangesAccepted(r)
    ensures r.maxEventCount1 <= v <= r.maxEventCount2
  {
    NextInt(r.maxEventCount1, IntAdd(r.maxEventCount2, 1), sample).value
  }

  /** The four draws of one `recalc`. */
  function Draw(r: Ranges, d: Samples): (t: Thresholds)
    requires RangesAccepted(r)
    ensures InRanges(t, r)
  {
    Thresholds(RandomMinTime(r, d.minTime), RandomMaxTime(r, d.maxTime),
               RandomMinEventCount(r, d.minEventCount), RandomMaxEventCount(r, d.maxEventCount))
  }

  /** Every in-range set of thresholds is the outcome of some draw. */
  lemma DrawReachesEvery(r: Ranges, t: Thresholds)
    requires RangesAccepted(r) && InRanges(t, r)
    ensures exists d: Samples :: Draw(r, d) == t
  {
    var d := Samples(t.minTime - r.minTime1, t.maxTime - r.maxTime1,
                     t.minEventCount - r.minEventCount1, t.maxEventCount - r.maxEventCount1);
    SmallRemainder(d.minTime, r.minTime2 + 1 - r.minTime1);
    SmallRemainder(d.maxTime, r.maxTime2 + 1 - r.maxTime1);
    SmallRemainder(d.minEventCount, r.minEventCount2 + 1 - r.minEventCount1);
    SmallRemainder(d.maxEventCount, r.maxEventCount2 + 1 - r.maxEventCount1);
    assert Draw(r, d) == t;
  }

  /** The record `recalc` stores: the drawn thresholds with the given count
      and run time (the record has no `maxEventCount` field). */
  function RecordOf(t: Thresholds, totalEventCount: Int, lastRunTime: Long): (s: Session)
  {
    Session(t.minTime, t.maxTime, t.minEventCount, totalEventCount, lastRunTime)
  }

  class AdSessionConfigure {
    const ranges: Ranges

    var minTime: Long
    var maxTime: Long
    var minEventCount: Int
    var maxEventCount: Int
    var totalEventCount: Int
    var lastRunTime: Long

    var sessionModel: AdSessionModel

    /** The configure was built from accepted ranges; the ranges are `const`,
        so this never changes. */
    predicate Valid()
    {
      RangesAccepted(ranges)
    }

    function Active(): (t: Thresholds)
      reads this
    {
      Thresholds(minTime, maxTime, minEventCount, maxEventCount)
    }

    /** Construction after the `require`s have passed: `init` runs
        `resetSession`, which draws thresholds, copies them with the given
        count and run time into a new record, then zeroes the configure's own
        count and stamps its own run time with `now`. */
    constructor (ranges: Ranges, totalEventCount: Int, lastRunTime: Long, now: Long, d: Samples)
      requires RangesAccepted(ranges)
      ensures Valid() && this.ranges == ranges
      ensures Active() == Draw(ranges, d)
      ensures this.totalEventCount == 0 && this.lastRunTime == now
      ensures fresh(sessionModel)
      ensures sessionModel.Value() == RecordOf(Draw(ranges, d), totalEventCount, lastRunTime)
    {
      this.ranges := ranges;
      this.totalEventCount := totalEventCount;
      this.lastRunTime := lastRunTime;
      minTime, maxTime, minEventCount, maxEventCount := 0, 0, 0, 0;
      sessionModel := new AdSessionModel(Session(0, 0, 0, 0, now));
      new;
      ResetSession(now, d);
    }

    /** `recalc`: redraws the thresholds and replaces the record by a copy
        holding them together with the configure's own count and run time. */
    method Recalc(d: Samples)
      requires Valid()
      modifies this
      ensures Active() == Draw(ranges, d)
      ensures totalEventCount == old(totalEventCount) && lastRunTime == old(lastRunTime)
      ensures fresh(sessionModel)
      ensures sessionModel.Value() == RecordOf(Active(), totalEventCount, lastRunTime)
    {
      minTime := RandomMinTime(ranges, d.minTime);
      maxTime := RandomMaxTime(ranges, d.maxTime);
      minEventCount := RandomMinEventCount(ranges, d.minEventCount);
      maxEventCount := RandomMaxEventCount(ranges, d.maxEventCount);
      sessionModel := new AdSessionModel(RecordOf(Active(), totalEventCount, lastRunTime));
    }

    /** `resetSession`: `recalc`, then zero the configure's count and stamp
        its run time. The new record keeps the count and run time from
        before the reset. */
    method ResetSession(now: Long, d: Samples)
      requires Valid()
      modifies this
      ensures Active() == Draw(ranges, d)
      ensures totalEventCount == 0 && lastRunTime == now
      ensures fresh(sessionModel)
      ensures sessionModel.Value() == RecordOf(Active(), old(totalEventCount), old(lastRunTime))
    {
      Recalc(d);
      totalEventCount := 0;
      lastRunTime := now;
    }

    /** `updateLastRunTime(time)`: forwards to the record. */
    method UpdateLastRunTime(time: Long)
      modifies sessionModel
      ensures sessionModel.Value() == old(sessionModel.Value()).(lastRunTime := time)
    {
      sessionModel.UpdateLastRunTime(time);
    }

    /** `updateTotalEventCount(count)`: forwards to the record, which adds
        and saves. */
    method UpdateTotalEventCount(count: Int, prefs: AppAdPreferences)
      modifies sessionModel, prefs
      ensures sessionModel.Value() == WithAddedEvents(old(sessionModel.Value()), count)
      ensures prefs.entries == old(prefs.entries)[KEY_PREF := Encoded(sessionModel.Value())]
    {
      sessionModel.UpdateTotalEventCount(count, prefs);
    }

    /** `incrementEventCount(count)`: OVERWRITES the configure's own count
        with `count`, while the record's count grows by `count`. */
    method IncrementEventCount(count: Int, prefs: AppAdPreferences)
      modifies this, sessionModel, prefs
      ensures totalEventCount == count
      ensures Active() == old(Active()) && lastRunTime == old(lastRunTime)
      ensures sessionModel == old(sessionModel)
      ensures sessionModel.Value() == WithAddedEvents(old(sessionModel.Value()), count)
      ensures prefs.entries == old(prefs.entries)[KEY_PREF := Encoded(sessionModel.Value())]
    {
      totalEventCount := count;
      sessionModel.UpdateTotalEventCount(count, prefs);
    }

    /** `isMinTimePassed`, read from the inner record, not the configure's
        own `minTime` and `lastRunTime`. */
    predicate IsMinTimePassed(currentTime: Long)
      reads this, sessionModel
      ensures InLong(currentTime - sessionModel.lastRunTime) ==>
                (IsMinTimePassed(currentTime) <==>
                   currentTime - sessionModel.lastRunTime >= sessionModel.minTime)
    {
      sessionModel.IsMinTimePassed(currentTime)
    }

    /** `isMaxTimePassed`, read from the inner record. */
    predicate IsMaxTimePassed(currentTime: Long)
      reads this, sessionModel
      ensures InLong(currentTime - sessionModel.lastRunTime) ==>
                (IsMaxTimePassed(currentTime) <==>
                   currentTime - sessionModel.lastRunTime >= sessionModel.maxTime)
    {
      sessionModel.IsMaxTimePassed(currentTime)
    }

    /** `isMinEventCountReached`, read from the inner record. */
    predicate IsMinEventCountReached()
      reads this, sessionModel
      ensures IsMinEventCountReached() <==> sessionModel.totalEventCount >= sessionModel.minEventCount
    {
      sessionModel.IsMinEventCountReached()
    }

    /** `isMaxEventCountReached`: the record has no `maxEventCount`, so the
        record's count is compared with the configure's own one. */
    predicate IsMaxEventCountReached()
      reads this, sessionModel
    {
      sessionModel.totalEventCount >= maxEventCount
    }

    /** `loadPreferencesJson`: the raw stored entry. */
    function LoadPreferencesJson(prefs: AppAdPreferences): (v: Stored)
      reads prefs
    {
      prefs.Get(KEY_PREF)
    }

    /** `savePreferences`: writes the inner record. */
    method SavePreferences(prefs: AppAdPreferences)
      modifies prefs
      ensures prefs.entries == old(prefs.entries)[KEY_PREF := Encoded(sessionModel.Value())]
    {
      sessionModel.SavePreferences(prefs);
    }

    /** `loadPreferences`: loads the record from the store, copies its
        thresholds, count and run time onto the configure (which keeps its
        own `maxEventCount`), and returns this same object. */
    method LoadPreferences(prefs: AppAdPreferences) returns (r: AdSessionConfigure)
      modifies this, sessionModel
      ensures r == this
      ensures sessionModel == old(sessionModel)
      ensures sessionModel.Value() == Restored(old(sessionModel.Value()), prefs.Get(KEY_PREF))
      ensures minTime == sessionModel.minTime && maxTime == sessionModel.maxTime
      ensures minEventCount == sessionModel.minEventCount && maxEventCount == old(maxEventCount)
      ensures totalEventCount == sessionModel.totalEventCount
      ensures lastRunTime == sessionModel.lastRunTime
    {
      var data := sessionModel.LoadPreferences(prefs);
      minTime := data.minTime;
      maxTime := data.maxTime;
      minEventCount := data.minEventCount;
      totalEventCount := data.totalEventCount;
      lastRunTime := data.lastRunTime;
      r := this;
    }
  }
}
