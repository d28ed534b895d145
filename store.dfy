/**
 * The Tauri store file `credentials.bin`, as x3dh.rs and socket.rs use it:
 * a map from user name to key bundle, set in memory and written out by `save`.
 * The store keeps JSON values; this model keeps the bundles themselves, so
 * reading a value back as a `KeyBundle` (`serde_json::from_value`) always works.
 */
module Store {
  import opened Wrappers
  import opened Util

  class CredentialStore {
    /** What the store holds in memory. */
    var entries: map<string, KeyBundle>
    /** What was on disk after the last `save`. */
    var persisted: map<string, KeyBundle>

    /** Opening the store loads what is on disk. */
    constructor (onDisk: map<string, KeyBundle>)
      ensures entries == onDisk && persisted == onDisk
    {
      entries := onDisk;
      persisted := onDisk;
    }

    /** `store.set(key, value)`: memory only. */
    method Set(key: string, value: KeyBundle)
      modifies this
      ensures entries == old(entries)[key := value]
      ensures persisted == old(persisted)
    {
      entries := entries[key := value];
    }

    /** `store.save()`: the file now holds what memory holds. */
    method Save()
      modifies this
      ensures persisted == entries && entries == old(entries)
    {
      persisted := entries;
    }
  }
}
