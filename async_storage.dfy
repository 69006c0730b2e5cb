/**
 * Persistent key-value storage as the app sees it: a map from string keys to
 * string values whose reads and writes may fail. Whether an access fails is
 * decided by the environment and is passed in as a flag.
 */
module AsyncStorage {
  import opened Wrappers

  /** An I/O failure reported by the storage layer. */
  datatype StorageError = StorageError

  class Storage {
    var entries: map<string, string>

    constructor (initial: map<string, string>)
      ensures entries == initial
    {
      entries := initial;
    }

    /** `getItem`: the stored value (`None` when absent), or a failure. */
    method GetItem(key: string, fails: bool) returns (r: Result<Option<string>, StorageError>)
      ensures fails <==> r.Failure?
      ensures r.Success? ==> r.value == Lookup(entries, key)
    {
      if fails {
        r := Failure(StorageError);
      } else {
        r := Success(Lookup(entries, key));
      }
    }

    /** `setItem`: stores `value` under `key`; a failed write stores nothing. */
    method SetItem(key: string, value: string, fails: bool) returns (ok: bool)
      modifies this
      ensures ok <==> !fails
      ensures entries == if ok then old(entries)[key := value] else old(entries)
    {
      ok := !fails;
      if ok {
        entries := entries[key := value];
      }
    }
  }
}
