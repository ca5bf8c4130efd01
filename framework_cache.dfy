/**
 * The application cache the sales-rule plugin and observer share, reduced to a
 * keyed store. An entry keeps the list of attribute codes it was saved with
 * (the serializer's output is taken to unserialize to its input) and the tags
 * it was saved under. The ghost counters record how often the store was read
 * and written, so that callers can state that they did not touch it.
 */
module FrameworkCache {
  import opened Wrappers

  datatype CacheRecord = CacheRecord(payload: seq<string>, tags: seq<string>)

  class Cache {
    var entries: map<string, CacheRecord>
    ghost var loads: nat
    ghost var saves: nat

    constructor (initial: map<string, CacheRecord>)
      ensures entries == initial && loads == 0 && saves == 0
    {
      entries := initial;
      loads, saves := 0, 0;
    }

    /** The payload under `key`, or None where the framework returns false. */
    method Load(key: string) returns (data: Option<seq<string>>)
      modifies this`loads
      ensures data == if key in entries then Some(entries[key].payload) else None
      ensures loads == old(loads) + 1
    {
      loads := loads + 1;
      data := if key in entries then Some(entries[key].payload) else None;
    }

    method Save(data: seq<string>, key: string, tags: seq<string>)
      modifies this`entries, this`saves
      ensures entries == old(entries)[key := CacheRecord(data, tags)]
      ensures saves == old(saves) + 1
    {
      entries := entries[key := CacheRecord(data, tags)];
      saves := saves + 1;
    }

    method Remove(key: string)
      modifies this`entries
      ensures entries == old(entries) - {key}
    {
      entries := entries - {key};
    }
  }
}
