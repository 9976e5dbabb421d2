/** The key-value store the session record is written to. A stored value is
    either blank (the default returned for an absent key), the encoding of a
    record, or text that does not decode to a record. */
module Preferences {
  import opened SessionRecord

  datatype Stored = Blank | Encoded(session: Session) | Unparsable

  class AppAdPreferences {
    var entries: map<string, Stored>

    constructor ()
      ensures entries == map[]
    {
      entries := map[];
    }

    /** `get(key, "")`: an absent key reads as blank. */
    function Get(key: string): (v: Stored)
      reads this
      ensures key !in entries ==> v == Blank
      ensures key in entries ==> v == entries[key]
    {
      if key in entries then entries[key] else Blank
    }

    /** `put(key, value)`: overwrites the one key, last writer wins. */
    method Put(key: string, value: Stored)
      modifies this
      ensures entries == old(entries)[key := value]
      ensures Get(key) == value
      ensures forall k :: k != key ==> Get(k) == old(Get(k))
    {
      entries := entries[key := value];
    }
  }
}
