/** Client runs of the manager and the tracker, proved from their contracts
    alone: ranges of 120-150 s, 240-270 s, 8-10 and 12-14 events, with the
    lowest value drawn for every threshold. */
module Scenarios {
  import opened JvmInt
  import opened SessionRecord
  import opened Preferences
  import opened SessionModel
  import opened SessionConfigure
  import opened SessionManager
  import opened CountdownTracker

  const START: Long := 1_700_000_000_000
  const RANGES: Ranges := Ranges(120000, 150000, 240000, 270000, 8, 10, 12, 14)
  const LOWEST: Samples := Samples(0, 0, 0, 0)

  /** A configured manager with a fresh store, seeded by `initSession`. */
  method Setup() returns (m: AdMobSessionManager, prefs: AppAdPreferences)
    ensures fresh(m) && fresh(prefs) && m.Configured() && fresh(m.sessionConfigure)
    ensures fresh(m.sessionConfigure.sessionModel)
    ensures m.Record() == Session(120000, 240000, 8, 0, START)
    ensures m.sessionConfigure.Active() == Thresholds(120000, 240000, 8, 12)
    ensures m.sessionConfigure.ranges == RANGES
    ensures prefs.Get(KEY_PREF) == Encoded(m.Record())
  {
    prefs := new AppAdPreferences();
    m := new AdMobSessionManager(START);
    var err := m.ConfigureSession(RANGES, 0, START, START, LOWEST);
    assert Draw(RANGES, LOWEST) == Thresholds(120000, 240000, 8, 12);
    var fired, saw := m.InitSession(START, LOWEST, LOWEST, prefs);
  }

  /** Nine events, then a tick 125 s later: minimum time and minimum events
      are both met, so the fire callback is called. */
  method MinTimeAndEventsFire() returns (calls: seq<TickCall>)
    ensures calls == [TriggerCallback]
  {
    var m, prefs := Setup();
    var fired, saw := m.AddEvent(9, START, LOWEST, prefs);
    assert !fired;
    var tracker := new AdSessionCountdownTracker(m, true, false);
    tracker.Start();
    calls := tracker.Tick(START + 125000);
  }

  /** No events and a tick 241 s later: the maximum time forces the fire. */
  method MaxTimeForcesFire() returns (calls: seq<TickCall>)
    ensures calls == [TriggerCallback]
  {
    var m, prefs := Setup();
    var tracker := new AdSessionCountdownTracker(m, true, false);
    tracker.Start();
    calls := tracker.Tick(START + 241000);
  }

  /** Twenty events 60 s in: the minimum time has not passed, no fire; the
      countdown shows 60 s to the minimum and 180 s to the maximum. */
  method EventsBeforeMinTimeDoNotFire() returns (fired: bool, minLeft: Long, maxLeft: Long)
    ensures !fired && minLeft == 60000 && maxLeft == 180000
  {
    var m, prefs := Setup();
    var saw;
    fired, saw := m.AddEvent(20, START + 60000, LOWEST, prefs);
    minLeft := m.GetRemainingMinTime(START + 60000);
    maxLeft := m.GetRemainingMaxTime(START + 60000);
  }

  /** A fire by `addEvent` resets the cycle: count 0 in the configure and the
      record, run time the fire time, the redrawn thresholds in the store. */
  method FireResetsCycle() returns (fired: bool, eventsLeft: Int, stored: Stored)
    ensures fired && eventsLeft == 10
    ensures stored == Encoded(Session(150000, 270000, 10, 0, START + 130000))
  {
    var m, prefs := Setup();
    var highest := Samples(30000, 30000, 2, 2);
    assert Draw(RANGES, highest) == Thresholds(150000, 270000, 10, 14);
    var saw;
    fired, saw := m.AddEvent(8, START + 130000, highest, prefs);
    eventsLeft := m.GetRemainingEventCount();
    stored := prefs.Get(KEY_PREF);
  }

  /** Two `addEvent(1)` calls leave a count of 2 in the record (cumulative),
      while the manager's own field holds the last argument, 1. */
  method AddEventAccumulates() returns (recordCount: Int, managerCount: Int, eventsLeft: Int)
    ensures recordCount == 2 && managerCount == 1 && eventsLeft == 6
  {
    var m, prefs := Setup();
    var _, _ := m.AddEvent(1, START + 1000, LOWEST, prefs);
    var _, _ := m.AddEvent(1, START + 2000, LOWEST, prefs);
    recordCount := m.Record().totalEventCount;
    managerCount := m.totalEventCount;
    eventsLeft := m.GetRemainingEventCount();
  }

  /** A save, then a change of the run time, then a load: the load undoes
      the change, so the object again holds what was saved. */
  method SaveThenLoadUndoesUpdate(record: AdSessionModel, prefs: AppAdPreferences, time: Long)
    modifies record, prefs
    ensures record.Value() == old(record.Value())
    ensures prefs.Get(KEY_PREF) == Encoded(old(record.Value()))
  {
    record.SavePreferences(prefs);
    record.UpdateLastRunTime(time);
    var same := record.LoadPreferences(prefs);
  }

  /** `configureSession` with a count of 9 gives the record 9 events but
      the configure 0, so the countdown still shows all 8 events remaining
      although the trigger sees the minimum reached. */
  method ConfiguredCountNotCountedDown() returns (eventsLeft: Int, reached: bool)
    ensures eventsLeft == 8 && reached
  {
    var m := new AdMobSessionManager(START);
    var err := m.ConfigureSession(RANGES, 9, START, START, LOWEST);
    assert Draw(RANGES, LOWEST) == Thresholds(120000, 240000, 8, 12);
    eventsLeft := m.GetRemainingEventCount();
    reached := m.sessionConfigure.IsMinEventCountReached();
  }
}
