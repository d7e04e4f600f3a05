/**
  The in-memory `localStorage` stand-in that the test suite installs
  (jest.setup.ts): a dictionary from keys to strings with `setItem`,
  `getItem`, `removeItem` and `clear`.
 */
module LocalStorageMock {
  import opened Wrappers

  /** What `getItem` answers for `key` over the dictionary `store`.
      The mock returns `store[key] || null`, so an empty string reads as
      absent, exactly like a missing key. */
  function Lookup(store: map<string, string>, key: string): (r: Option<string>)
    ensures r.Some? <==> key in store && store[key] != ""
    ensures r.Some? ==> r.value == store[key]
  {
    if key in store && store[key] != "" then Some(store[key]) else None
  }

  class MemoryStorage {
    /** The `store` dictionary of the mock. */
    var store: map<string, string>

    constructor ()
      ensures store == map[]
    {
      store := map[];
    }

    method SetItem(key: string, value: string)
      modifies this
      ensures store == old(store)[key := value]
      ensures value != "" ==> Lookup(store, key) == Some(value)
      ensures value == "" ==> Lookup(store, key) == None
      ensures forall k :: k != key ==> Lookup(store, k) == Lookup(old(store), k)
    {
      store := store[key := value];
    }

    method GetItem(key: string) returns (r: Option<string>)
      ensures r == Lookup(store, key)
      ensures r.Some? ==> r.value != ""
    {
      if key in store && store[key] != "" {
        r := Some(store[key]);
      } else {
        r := None;
      }
    }

    method RemoveItem(key: string)
      modifies this
      ensures store == old(store) - {key}
      ensures Lookup(store, key) == None
      ensures forall k :: k != key ==> Lookup(store, k) == Lookup(old(store), k)
      ensures key !in old(store) ==> store == old(store)
    {
      store := store - {key};
    }

    method Clear()
      modifies this
      ensures store == map[]
      ensures forall k :: Lookup(store, k) == None
    {
      store := map[];
    }
  }

}
