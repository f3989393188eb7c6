/**
 * The client's two lock-guarded dictionaries: `ConcurrentHashMap` (channel name
 * to subscription id) and `ConcurrentHashMapReversed` (receipt id to the text
 * printed when the receipt arrives).  Each operation runs under the map's mutex,
 * so each is atomic and is modelled as one step on the `entries` field.
 */
module HashMaps {
  import opened Wrappers
  import opened Strings

  class ConcurrentHashMap {
    /** The underlying `std::map<std::string, int>`. */
    var entries: map<string, int>

    constructor()
      ensures entries == map[]
    {
      entries := map[];
    }

    /** `map[key] = value`. */
    method InsertOrUpdate(key: string, value: int)
      modifies this
      ensures entries == old(entries)[key := value]
    {
      entries := entries[key := value];
    }

    /** Copies the value of `key` into the out-parameter when present; otherwise leaves it as it was. */
    method Get(key: string, value: int) returns (found: bool, value': int)
      ensures found <==> key in entries
      ensures found ==> value' == entries[key]
      ensures !found ==> value' == value
    {
      if key in entries {
        return true, entries[key];
      }
      return false, value;
    }

    /** The value of `key`, or the error thrown for a missing key. */
    method GetValue(key: string) returns (r: Result<int>)
      ensures key in entries ==> r == Ok(entries[key])
      ensures key !in entries ==> r == Err("Key not found: " + key)
    {
      if key in entries {
        return Ok(entries[key]);
      }
      return Err("Key not found: " + key);
    }

    /** Erases `key`; reports whether something was erased. */
    method Remove(key: string) returns (removed: bool)
      modifies this
      ensures removed <==> key in old(entries)
      ensures entries == old(entries) - {key}
    {
      removed := key in entries;
      entries := entries - {key};
    }

    method Contains(key: string) returns (present: bool)
      ensures present <==> key in entries
    {
      present := key in entries;
    }

    method Size() returns (n: nat)
      ensures n == |entries.Keys|
    {
      n := |entries.Keys|;
    }

    method Clear()
      modifies this
      ensures entries == map[]
    {
      entries := map[];
    }
  }

  class ConcurrentHashMapReversed {
    /** The underlying `std::map<int, std::string>`. */
    var entries: map<int, string>

    constructor()
      ensures entries == map[]
    {
      entries := map[];
    }

    method InsertOrUpdate(key: int, value: string)
      modifies this
      ensures entries == old(entries)[key := value]
    {
      entries := entries[key := value];
    }

    method Get(key: int, value: string) returns (found: bool, value': string)
      ensures found <==> key in entries
      ensures found ==> value' == entries[key]
      ensures !found ==> value' == value
    {
      if key in entries {
        return true, entries[key];
      }
      return false, value;
    }

    /** The value of `key`, or the error thrown for a missing key (the key written in decimal). */
    method GetValue(key: int) returns (r: Result<string>)
      ensures key in entries ==> r == Ok(entries[key])
      ensures key !in entries ==> r == Err("Key not found: " + IntToString(key))
    {
      if key in entries {
        return Ok(entries[key]);
      }
      return Err("Key not found: " + IntToString(key));
    }

    method Remove(key: int) returns (removed: bool)
      modifies this
      ensures removed <==> key in old(entries)
      ensures entries == old(entries) - {key}
    {
      removed := key in entries;
      entries := entries - {key};
    }

    method Contains(key: int) returns (present: bool)
      ensures present <==> key in entries
    {
      present := key in entries;
    }

    method Size() returns (n: nat)
      ensures n == |entries.Keys|
    {
      n := |entries.Keys|;
    }

    method Clear()
      modifies this
      ensures entries == map[]
    {
      entries := map[];
    }
  }
}
