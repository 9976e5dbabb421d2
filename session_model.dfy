/** `AdSessionModel`: the mutable session record, its two update operations,
    its trigger predicates, and save/load against the store's one key. */
module SessionModel {
  import opened JvmInt
  import opened SessionRecord
  import opened Preferences

  /** What `loadPreferences` leaves in the record: the stored record when
      one decodes, otherwise the current fields. */
  function Restored(current: Session, stored: Stored): (r: Session)
    ensures stored.Encoded? ==> r == stored.session
    ensures !stored.Encoded? ==> r == current
  {
    if stored.Encoded? then stored.session else current
  }

  /** Saving the record and loading it back restores the same five fields,
      whatever the record held in between. */
  lemma SaveThenLoadRestores(saved: Session, current: Session, entries: map<string, Stored>)
    ensures var written := entries[KEY_PREF := Encoded(saved)];
            Restored(current, written[KEY_PREF]) == saved
  {
  }

  /** A blank or undecodable entry leaves the record as it is. */
  lemma LoadWithoutRecordKeeps(current: Session, stored: Stored)
    requires stored == Blank || stored == Unparsable
    ensures Restored(current, stored) == current
  {
  }

  class AdSessionModel {
    var minTime: Long
    var maxTime: Long
    var minEventCount: Int
    var totalEventCount: Int
    var lastRunTime: Long

    /** The data-class constructor (and `copy`), with every field given. */
    constructor (s: Session)
      ensures Value() == s
    {
      minTime := s.minTime;
      maxTime := s.maxTime;
      minEventCount := s.minEventCount;
      totalEventCount := s.totalEventCount;
      lastRunTime := s.lastRunTime;
    }

    /** The record's five fields as a value. */
    function Value(): (s: Session)
      reads this
    {
      Session(minTime, maxTime, minEventCount, totalEventCount, lastRunTime)
    }

    /** `updateLastRunTime(time)`: sets only `lastRunTime`; does not write the store. */
    method UpdateLastRunTime(time: Long)
      modifies this
      ensures Value() == old(Value()).(lastRunTime := time)
    {
      lastRunTime := time;
    }

    /** `updateTotalEventCount(count)`: adds `count` (with `Int` wrap-around),
        keeps the other four fields, then saves the record. */
    method UpdateTotalEventCount(count: Int, prefs: AppAdPreferences)
      modifies this, prefs
      ensures Value() == WithAddedEvents(old(Value()), count)
      ensures prefs.entries == old(prefs.entries)[KEY_PREF := Encoded(Value())]
    {
      totalEventCount := IntAdd(totalEventCount, count);
      SavePreferences(prefs);
    }

    /** `savePreferences`: overwrites the one key with the record. */
    method SavePreferences(prefs: AppAdPreferences)
      modifies prefs
      ensures prefs.entries == old(prefs.entries)[KEY_PREF := Encoded(Value())]
    {
      prefs.Put(KEY_PREF, Encoded(Value()));
    }

    /** `loadPreferences`: copies the stored record into this one; a blank
        entry or one that does not decode leaves the fields unchanged and
        is not an error. Returns this same object. */
    method LoadPreferences(prefs: AppAdPreferences) returns (r: AdSessionModel)
      modifies this
      ensures r == this
      ensures prefs.Get(KEY_PREF).Encoded? ==> Value() == prefs.Get(KEY_PREF).session
      ensures !prefs.Get(KEY_PREF).Encoded? ==> Value() == old(Value())
    {
      var stored := prefs.Get(KEY_PREF);
      match stored {
        case Blank =>
        case Unparsable =>
        case Encoded(loaded) =>
          minTime := loaded.minTime;
          maxTime := loaded.maxTime;
          minEventCount := loaded.minEventCount;
          totalEventCount := loaded.totalEventCount;
          lastRunTime := loaded.lastRunTime;
      }
      r := this;
    }

    predicate IsMinTimePassed(currentTime: Long)
      reads this
      ensures InLong(currentTime - lastRunTime) ==>
                (IsMinTimePassed(currentTime) <==> currentTime - lastRunTime >= minTime)
    {
      MinTimePassed(Value(), currentTime)
    }

    predicate IsMaxTimePassed(currentTime: Long)
      reads this
      ensures InLong(currentTime - lastRunTime) ==>
                (IsMaxTimePassed(currentTime) <==> currentTime - lastRunTime >= maxTime)
    {
      MaxTimePassed(Value(), currentTime)
    }

    predicate IsMinEventCountReached()
      reads this
      ensures IsMinEventCountReached() <==> totalEventCount >= minEventCount
    {
      MinEventCountReached(Value())
    }
  }
}
