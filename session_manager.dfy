/** `AdMobSessionManager`: owns one configure, applies event updates,
    evaluates the trigger rule, fires and resets, and answers the
    remaining-time and remaining-event queries. */
module SessionManager {
  import opened Wrappers
  import opened JvmInt
  import opened SessionRecord
  import opened Preferences
  import opened SessionModel
  import opened SessionConfigure
  import opened TriggerPolicy

  /** The manager's own default ranges (2-3 min, 5-7 min, 10-14 events),
      with 12-14 for the maximum-event range the manager never supplies. */
  const DEFAULT_RANGES: Ranges :=
    Ranges(2 * 60 * 1000, 3 * 60 * 1000, 5 * 60 * 1000, 7 * 60 * 1000, 10, 14, 12, 14)

  lemma DefaultRangesAccepted()
    ensures ConstructionError(DEFAULT_RANGES) == None
  {
  }

  /** The countdown queries read the configure's own vars and the trigger
      reads the record; where the two agree (after every evaluation, by
      `SettledAligns`), a zero countdown means exactly that the corresponding
      condition holds. */
  lemma CountdownMatchesTrigger(m: AdMobSessionManager, now: Long)
    requires m.Configured()
    requires var c, s := m.sessionConfigure, m.Record();
             && c.lastRunTime == s.lastRunTime && c.minTime == s.minTime && c.maxTime == s.maxTime
             && c.minEventCount == s.minEventCount && c.totalEventCount == s.totalEventCount
    requires var s := m.Record();
             && InLong(now - s.lastRunTime)
             && InLong(s.lastRunTime + s.minTime) && InLong(s.lastRunTime + s.maxTime)
             && InLong(s.lastRunTime + s.minTime - now) && InLong(s.lastRunTime + s.maxTime - now)
             && InInt(s.minEventCount - s.totalEventCount)
    ensures m.GetRemainingMinTime(now) == 0 <==> MinTimePassed(m.Record(), now)
    ensures m.GetRemainingMaxTime(now) == 0 <==> MaxTimePassed(m.Record(), now)
    ensures m.GetRemainingEventCount() == 0 <==> MinEventCountReached(m.Record())
  {
    RemainingTimeZeroIffPassed(m.Record(), now);
    RemainingEventsZeroIffReached(m.Record());
  }

  /** After any evaluation, fired or not, the configure's own vars agree
      with its record. */
  lemma SettledAligns(m: AdMobSessionManager, loaded: Session, keptMax: Int, now: Long, d: Samples, fired: bool)
    requires m.Configured() && m.Settled(loaded, keptMax, now, d, fired)
    ensures var c, s := m.sessionConfigure, m.Record();
            && c.lastRunTime == s.lastRunTime && c.minTime == s.minTime && c.maxTime == s.maxTime
            && c.minEventCount == s.minEventCount && c.totalEventCount == s.totalEventCount
  {
  }

  /** So after any evaluation, and without overflow, each countdown is zero
      exactly when its trigger condition holds. */
  lemma CountdownMatchesTriggerAfterEvaluation(m: AdMobSessionManager, loaded: Session, keptMax: Int,
                                               evalTime: Long, d: Samples, fired: bool, now: Long)
    requires m.Configured() && m.Settled(loaded, keptMax, evalTime, d, fired)
    requires var s := m.Record();
             && InLong(now - s.lastRunTime)
             && InLong(s.lastRunTime + s.minTime) && InLong(s.lastRunTime + s.maxTime)
             && InLong(s.lastRunTime + s.minTime - now) && InLong(s.lastRunTime + s.maxTime - now)
             && InInt(s.minEventCount - s.totalEventCount)
    ensures m.GetRemainingMinTime(now) == 0 <==> MinTimePassed(m.Record(), now)
    ensures m.GetRemainingMaxTime(now) == 0 <==> MaxTimePassed(m.Record(), now)
    ensures m.GetRemainingEventCount() == 0 <==> MinEventCountReached(m.Record())
  {
    SettledAligns(m, loaded, keptMax, evalTime, d, fired);
    CountdownMatchesTrigger(m, now);
  }

  class AdMobSessionManager {
    var isCallConfig: bool
    var sessionConfigure: AdSessionConfigure?
    var totalEventCount: Int
    var lastRunTime: Long
    var hasAdCallback: bool

    /** A configure exists exactly when `configureSession` has succeeded. */
    predicate Valid()
      reads this
    {
      && (isCallConfig <==> sessionConfigure != null)
      && (sessionConfigure != null ==> sessionConfigure.Valid())
    }

    predicate Configured()
      reads this
    {
      Valid() && isCallConfig
    }

    /** The inner record of the current configure. */
    function Record(): (s: Session)
      requires Configured()
      reads this, sessionConfigure, sessionConfigure.sessionModel
    {
      sessionConfigure.sessionModel.Value()
    }

    /** The in-memory state after an evaluation that started from record
        `loaded`: reset with thresholds drawn by `d` at `now` if it fired,
        otherwise the loaded record with the configure's vars copied from it. */
    predicate Settled(loaded: Session, keptMaxEventCount: Int, now: Long, d: Samples, fired: bool)
      requires Configured()
      reads this, sessionConfigure, sessionConfigure.sessionModel
    {
      var c := sessionConfigure;
      if fired then
        && c.Active() == Draw(c.ranges, d)
        && c.totalEventCount == 0 && c.lastRunTime == now
        && c.sessionModel.Value() == RecordOf(Draw(c.ranges, d), 0, now)
      else
        && c.sessionModel.Value() == loaded
        && c.Active() == Thresholds(loaded.minTime, loaded.maxTime, loaded.minEventCount, keptMaxEventCount)
        && c.totalEventCount == loaded.totalEventCount
        && c.lastRunTime == loaded.lastRunTime
    }

    /** A new manager is unconfigured: the source's all-zero default configure
        would fail its own range check. */
    constructor (now: Long)
      ensures Valid() && !isCallConfig
      ensures totalEventCount == 0 && lastRunTime == now && !hasAdCallback
    {
      isCallConfig := false;
      sessionConfigure := null;
      totalEventCount := 0;
      lastRunTime := now;
      hasAdCallback := false;
    }

    /** `setAdCallback`. */
    method SetAdCallback()
      modifies this
      ensures hasAdCallback
      ensures isCallConfig == old(isCallConfig) && sessionConfigure == old(sessionConfigure)
      ensures totalEventCount == old(totalEventCount) && lastRunTime == old(lastRunTime)
    {
      hasAdCallback := true;
    }

    /** `configureSession`: builds a new configure from the ranges; its
        `init` redraws the thresholds from the NEW ranges, gives the record
        the passed count and run time, and gives the configure count 0 and
        run time `now`. On a construction error nothing changes. */
    method ConfigureSession(ranges: Ranges, eventCount: Int, runTime: Long, now: Long, d: Samples)
      returns (err: Option<ConfigError>)
      requires Valid()
      modifies this
      ensures Valid()
      ensures err == ConstructionError(ranges)
      ensures err.Some? ==> isCallConfig == old(isCallConfig) && sessionConfigure == old(sessionConfigure)
      ensures err.None? ==>
                && isCallConfig && fresh(sessionConfigure) && fresh(sessionConfigure.sessionModel)
                && sessionConfigure.ranges == ranges
                && sessionConfigure.Active() == Draw(ranges, d)
                && sessionConfigure.totalEventCount == 0 && sessionConfigure.lastRunTime == now
                && Record() == RecordOf(Draw(ranges, d), eventCount, runTime)
      ensures totalEventCount == old(totalEventCount) && lastRunTime == old(lastRunTime)
      ensures hasAdCallback == old(hasAdCallback)
    {
      err := ConstructionError(ranges);
      if err.None? {
        sessionConfigure := new AdSessionConfigure(ranges, eventCount, runTime, now, d);
        isCallConfig := true;
      }
    }

    /** `runAdAndReset`: invokes the callback (if set) once, seeing the record
        as it was before the reset; then zeroes the count and stamps the run
        time in both the configure and the record, redraws the thresholds,
        and saves. */
    method RunAdAndReset(now: Long, d: Samples, prefs: AppAdPreferences)
      returns (callbackSaw: Option<Session>)
      requires Configured()
      modifies sessionConfigure, sessionConfigure.sessionModel, prefs
      ensures Configured() && sessionConfigure == old(sessionConfigure)
      ensures fresh(sessionConfigure.sessionModel)
      ensures callbackSaw == if hasAdCallback then Some(old(Record())) else None
      ensures Settled(old(Record()), 0, now, d, true)
      ensures prefs.entries == old(prefs.entries)[KEY_PREF := Encoded(Record())]
    {
      var c := sessionConfigure;
      callbackSaw := if hasAdCallback then Some(c.sessionModel.Value()) else None;
      c.lastRunTime := now;
      c.totalEventCount := 0;
      c.UpdateLastRunTime(now);
      c.UpdateTotalEventCount(0, prefs);
      c.ResetSession(now, d);
      SaveSession(prefs);
    }

    /** `processEventTrigger`: reloads the record from the store, then fires
        when the maximum time has passed, or else when the minimum time has
        passed and the minimum count is reached; at most one fire. */
    method ProcessEventTrigger(now: Long, d: Samples, prefs: AppAdPreferences)
      returns (fired: bool, callbackSaw: Option<Session>)
      requires Configured()
      modifies sessionConfigure, sessionConfigure.sessionModel, prefs
      ensures Configured() && sessionConfigure == old(sessionConfigure)
      ensures if fired then fresh(sessionConfigure.sessionModel)
              else sessionConfigure.sessionModel == old(sessionConfigure.sessionModel)
      ensures var loaded := Restored(old(Record()), old(prefs.Get(KEY_PREF)));
              && fired == ShouldFire(loaded, now)
              && callbackSaw == (if fired && hasAdCallback then Some(loaded) else None)
              && Settled(loaded, old(sessionConfigure.maxEventCount), now, d, fired)
      ensures fired ==> prefs.entries == old(prefs.entries)[KEY_PREF := Encoded(Record())]
      ensures !fired ==> prefs.entries == old(prefs.entries)
    {
      var adSessionConfigure := sessionConfigure.LoadPreferences(prefs);
      var minTimePassed := sessionConfigure.IsMinTimePassed(now);
      var maxTimePassed := sessionConfigure.IsMaxTimePassed(now);
      var minEventReached := sessionConfigure.IsMinEventCountReached();
      fired, callbackSaw := false, None;
      if maxTimePassed {
        fired := true;
        callbackSaw := RunAdAndReset(now, d, prefs);
        return;
      }
      if minTimePassed && minEventReached {
        fired := true;
        callbackSaw := RunAdAndReset(now, d, prefs);
        return;
      }
    }

    /** `saveSession`: writes the current configure's record. */
    method SaveSession(prefs: AppAdPreferences)
      requires Configured()
      modifies prefs
      ensures prefs.entries == old(prefs.entries)[KEY_PREF := Encoded(Record())]
    {
      sessionConfigure.SavePreferences(prefs);
    }

    /** `setTotalEventCount(count)`: stores `count` in the manager's own
        field, but the record ADDS it (the configure forwards to the record's
        cumulative update, which saves); then evaluates the trigger and saves. */
    method SetTotalEventCount(count: Int, now: Long, d: Samples, prefs: AppAdPreferences)
      returns (fired: bool, callbackSaw: Option<Session>)
      requires Configured()
      modifies this, sessionConfigure, sessionConfigure.sessionModel, prefs
      ensures Configured() && sessionConfigure == old(sessionConfigure)
      ensures totalEventCount == count && lastRunTime == old(lastRunTime)
      ensures hasAdCallback == old(hasAdCallback)
      ensures if fired then fresh(sessionConfigure.sessionModel)
              else sessionConfigure.sessionModel == old(sessionConfigure.sessionModel)
      ensures var bumped := WithAddedEvents(old(Record()), count);
              && fired == ShouldFire(bumped, now)
              && callbackSaw == (if fired && hasAdCallback then Some(bumped) else None)
              && Settled(bumped, old(sessionConfigure.maxEventCount), now, d, fired)
      ensures prefs.entries == old(prefs.entries)[KEY_PREF := Encoded(Record())]
    {
      totalEventCount := count;
      sessionConfigure.UpdateTotalEventCount(count, prefs);
      fired, callbackSaw := ProcessEventTrigger(now, d, prefs);
      SaveSession(prefs);
    }

    /** `addEvent(count)`: stores `count` in the manager's own field and
        OVERWRITES the configure's count with it, while the record's count
        grows by `count` and is saved; the evaluation then reloads that saved
        record, so the configure's count becomes the cumulative one again;
        finally the record is saved. */
    method AddEvent(count: Int, now: Long, d: Samples, prefs: AppAdPreferences)
      returns (fired: bool, callbackSaw: Option<Session>)
      requires Configured()
      modifies this, sessionConfigure, sessionConfigure.sessionModel, prefs
      ensures Configured() && sessionConfigure == old(sessionConfigure)
      ensures totalEventCount == count && lastRunTime == old(lastRunTime)
      ensures hasAdCallback == old(hasAdCallback)
      ensures if fired then fresh(sessionConfigure.sessionModel)
              else sessionConfigure.sessionModel == old(sessionConfigure.sessionModel)
      ensures var bumped := WithAddedEvents(old(Record()), count);
              && fired == ShouldFire(bumped, now)
              && callbackSaw == (if fired && hasAdCallback then Some(bumped) else None)
              && Settled(bumped, old(sessionConfigure.maxEventCount), now, d, fired)
      ensures prefs.entries == old(prefs.entries)[KEY_PREF := Encoded(Record())]
    {
      totalEventCount := count;
      sessionConfigure.IncrementEventCount(count, prefs);
      fired, callbackSaw := ProcessEventTrigger(now, d, prefs);
      SaveSession(prefs);
    }

    /** `initSession`: applies the default ranges only when no configuration
        has succeeded yet (with the manager's own count and run time); then
        seeds the store with the record when the stored entry is blank, and
        otherwise evaluates the trigger against the stored one. */
    method InitSession(now: Long, configDraw: Samples, resetDraw: Samples, prefs: AppAdPreferences)
      returns (fired: bool, callbackSaw: Option<Session>)
      requires Valid()
      modifies this, prefs
      modifies if sessionConfigure == null then {} else {sessionConfigure, sessionConfigure.sessionModel}
      ensures Configured()
      ensures totalEventCount == old(totalEventCount) && lastRunTime == old(lastRunTime)
      ensures hasAdCallback == old(hasAdCallback)
      ensures old(isCallConfig) ==> sessionConfigure == old(sessionConfigure)
      ensures !old(isCallConfig) ==>
                && fresh(sessionConfigure) && fresh(sessionConfigure.sessionModel)
                && sessionConfigure.ranges == DEFAULT_RANGES
      ensures old(isCallConfig) ==>
                if fired then fresh(sessionConfigure.sessionModel)
                else sessionConfigure.sessionModel == old(sessionConfigure.sessionModel)
      ensures old(prefs.Get(KEY_PREF)) == Blank && old(isCallConfig) ==>
                unchanged(sessionConfigure) && unchanged(sessionConfigure.sessionModel)
      ensures old(prefs.Get(KEY_PREF)) == Blank && !old(isCallConfig) ==>
                && sessionConfigure.Active() == Draw(DEFAULT_RANGES, configDraw)
                && sessionConfigure.totalEventCount == 0 && sessionConfigure.lastRunTime == now
      ensures var begin :=
                if old(isCallConfig) then old(Record())
                else RecordOf(Draw(DEFAULT_RANGES, configDraw), old(totalEventCount), old(lastRunTime));
              var keptMax :=
                if old(isCallConfig) then old(sessionConfigure.maxEventCount)
                else Draw(DEFAULT_RANGES, configDraw).maxEventCount;
              if old(prefs.Get(KEY_PREF)) == Blank then
                && !fired && callbackSaw == None
                && Record() == begin
                && prefs.entries == old(prefs.entries)[KEY_PREF := Encoded(begin)]
              else
                var loaded := Restored(begin, old(prefs.Get(KEY_PREF)));
                && fired == ShouldFire(loaded, now)
                && callbackSaw == (if fired && hasAdCallback then Some(loaded) else None)
                && Settled(loaded, keptMax, now, resetDraw, fired)
                && prefs.entries == (if fired then old(prefs.entries)[KEY_PREF := Encoded(Record())]
                                     else old(prefs.entries))
    {
      if !isCallConfig {
        DefaultRangesAccepted();
        var _ := ConfigureSession(DEFAULT_RANGES, totalEventCount, lastRunTime, now, configDraw);
      }
      var json := sessionConfigure.LoadPreferencesJson(prefs);
      fired, callbackSaw := false, None;
      if json == Blank {
        sessionConfigure.SavePreferences(prefs);
      } else {
        fired, callbackSaw := ProcessEventTrigger(now, resetDraw, prefs);
      }
    }

    /** `getRemainingMinTime`: read from the configure's OWN `lastRunTime`
        and `minTime`, never negative. */
    function GetRemainingMinTime(now: Long): (r: Long)
      requires Configured()
      reads this, sessionConfigure
      ensures r >= 0
      ensures var due := sessionConfigure.lastRunTime + sessionConfigure.minTime;
              InLong(due) && InLong(due - now) ==> r == AtLeastZero(due - now)
    {
      RemainingTime(sessionConfigure.lastRunTime, sessionConfigure.minTime, now)
    }

    /** `getRemainingMaxTime`: read from the configure's own fields, never negative. */
    function GetRemainingMaxTime(now: Long): (r: Long)
      requires Configured()
      reads this, sessionConfigure
      ensures r >= 0
      ensures var due := sessionConfigure.lastRunTime + sessionConfigure.maxTime;
              InLong(due) && InLong(due - now) ==> r == AtLeastZero(due - now)
    {
      RemainingTime(sessionConfigure.lastRunTime, sessionConfigure.maxTime, now)
    }

    /** `getRemainingEventCount`: read from the configure's own fields, never negative. */
    function GetRemainingEventCount(): (r: Int)
      requires Configured()
      reads this, sessionConfigure
      ensures r >= 0
      ensures var left := sessionConfigure.minEventCount - sessionConfigure.totalEventCount;
              InInt(left) ==> r == AtLeastZero(left)
    {
      RemainingEvents(sessionConfigure.minEventCount, sessionConfigure.totalEventCount)
    }
  }
}
