/** The projects table behind the cache, as the log of its writes. */
module ProjectsTable {
  import opened Wrappers
  import opened TieredCache

  /** One statement on the table and when it took effect; `live` is false for a DELETE. */
  datatype Write = Write(key: Key, live: bool, at: Time)

  /** The row a SELECT by key sees: the last write of that key, unless it was a DELETE. */
  function Row(log: seq<Write>, key: Key): Option<nat> {
    if log == [] then None
    else if log[|log| - 1].key == key then
      if log[|log| - 1].live then Some(|log| - 1) else None
    else Row(log[..|log| - 1], key)
  }

  lemma {:induction false} RowIsLatest(log: seq<Write>, key: Key, version: nat)
    requires version < |log| && log[version].key == key
    ensures Row(log, key).Some? ==> version <= Row(log, key).value < |log|
  {
    if log[|log| - 1].key != key {
      RowIsLatest(log[..|log| - 1], key, version);
    }
  }
}
