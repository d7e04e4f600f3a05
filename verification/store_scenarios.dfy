/**
  Clients of the store that exercise it the way test/store.test.ts does,
  plus the persistence round trip: a store opened after another one wrote
  its state starts from that state's persisted projection.
 */
module StoreScenarios {
  import opened Wrappers
  import opened StoreSpec
  import opened LocalStorageMock
  import opened EasyStore

  /** Field values of the test suite's `{ count: number; name?: string }`. */
  datatype Field = Num(n: int) | Text(s: string)

  /** Listeners that never throw. */
  function NeverRaises<V>(l: ListenerId, s: State<V>): bool
  {
    false
  }

  /** A store that updates and persists, then a second store opened on the
      same key and storage area: the second starts from the filtered state
      of the first, whatever initial state it is given. */
  method ReopenAfterUpdate<V(!new)>(initialState: State<V>, patch: State<V>, otherInitial: State<V>,
                                    key: string, whitelist: seq<string>, blacklist: seq<string>,
                                    codec: Codec<V>)
    returns (reopened: State<V>)
    requires Faithful(codec)
    ensures reopened == PersistFilter(Merge(initialState, patch), set k | k in whitelist, set k | k in blacklist)
  {
    var storage := new MemoryStorage();
    var first := new Store(initialState, key, storage, whitelist, blacklist, codec, NeverRaises);
    var outcome := first.SetStateSync(Patch(patch));
    var second := new Store(otherInitial, key, storage, whitelist, blacklist, codec, NeverRaises);
    reopened := second.GetState();
  }

  /** A fresh store starts from its initial state; a sync update of `count`
      is visible through `GetState` and is what gets persisted. */
  method SyncUpdateScenario(codec: Codec<Field>) returns (before: State<Field>, after: State<Field>, stored: Option<string>)
    requires Faithful(codec)
    ensures before == map["count" := Num(0)]
    ensures after == map["count" := Num(1)]
    ensures stored == Some(codec.encode(map["count" := Num(1)]))
  {
    var storage := new MemoryStorage();
    var store := new Store(map["count" := Num(0)], DefaultStorageKey, storage, [], [], codec, NeverRaises);
    before := store.GetState();
    assert Merge(before, map["count" := Num(1)]) == map["count" := Num(1)];
    var outcome := store.SetStateSync(Patch(map["count" := Num(1)]));
    after := store.GetState();
    assert PersistFilter(after, {}, {}) == after;
    stored := storage.GetItem(DefaultStorageKey);
  }

  /** With whitelist `["count"]`, only `count` is persisted. */
  method WhitelistScenario(codec: Codec<Field>) returns (stored: Option<string>)
    requires Faithful(codec)
    ensures stored == Some(codec.encode(map["count" := Num(2)]))
  {
    var storage := new MemoryStorage();
    var store := new Store(map["count" := Num(1), "name" := Text("Test")], DefaultStorageKey, storage,
                           ["count"], [], codec, NeverRaises);
    assert store.whitelist == {"count"} && store.blacklist == {};
    var patch := map["count" := Num(2), "name" := Text("Updated")];
    assert Merge(store.state, patch) == patch;
    var outcome := store.SetStateSync(Patch(patch));
    assert PersistFilter(patch, {"count"}, {}) == map["count" := Num(2)];
    stored := storage.GetItem(DefaultStorageKey);
  }

  /** With blacklist `["name"]`, `name` is not persisted. */
  method BlacklistScenario(codec: Codec<Field>) returns (stored: Option<string>)
    requires Faithful(codec)
    ensures stored == Some(codec.encode(map["count" := Num(2)]))
  {
    var storage := new MemoryStorage();
    var store := new Store(map["count" := Num(1), "name" := Text("Test")], DefaultStorageKey, storage,
                           [], ["name"], codec, NeverRaises);
    assert store.whitelist == {} && store.blacklist == {"name"};
    var patch := map["count" := Num(2), "name" := Text("Updated")];
    assert Merge(store.state, patch) == patch;
    var outcome := store.SetStateSync(Patch(patch));
    assert PersistFilter(patch, {}, {"name"}) == map["count" := Num(2)];
    stored := storage.GetItem(DefaultStorageKey);
  }

  /** A subscribed listener is called once with the new state; after
      unsubscribing, a further update does not call it again. */
  method UnsubscribeScenario(codec: Codec<Field>, listener: ListenerId) returns (calls: seq<Call<Field>>)
    ensures calls == [Call(listener, map["count" := Num(1)])]
  {
    var storage := new MemoryStorage();
    var store := new Store(map["count" := Num(0)], DefaultStorageKey, storage, [], [], codec, NeverRaises);
    var handle := store.Subscribe(listener);
    assert store.listeners == [listener];
    assert Merge(map["count" := Num(0)], map["count" := Num(1)]) == map["count" := Num(1)];
    var outcome := store.SetStateSync(Patch(map["count" := Num(1)]));
    assert store.log == Deliveries([listener], map["count" := Num(1)], NeverRaises);
    store.Unsubscribe(handle);
    assert store.listeners == [];
    outcome := store.SetStateSync(Patch(map["count" := Num(2)]));
    calls := store.log;
  }

  /** A batch `[{count: 1}, promise of {count: 2}]`: the later element wins. */
  method AsyncBatchScenario(codec: Codec<Field>) returns (after: State<Field>)
    ensures after == map["count" := Num(2)]
  {
    var storage := new MemoryStorage();
    var store := new Store(map["count" := Num(0)], DefaultStorageKey, storage, [], [], codec, NeverRaises);
    var batch := [Plain(map["count" := Num(1)]), Deferred(Some(map["count" := Num(2)]))];
    var start := map["count" := Num(0)];
    var one, two := map["count" := Num(1)], map["count" := Num(2)];
    var resolved := ResolveAll(batch, start).value;
    assert resolved[0] == one && resolved[1] == two;
    assert resolved == [one, two] && resolved[1..] == [two];
    assert FoldMerge(start, resolved) == Merge(Merge(start, one), two) == two;
    var outcome := store.SetStateAsync(Batch(batch), true);
    after := store.GetState();
  }

  /** `setStateAsync` without the `isAsync` flag changes neither the state
      nor storage and calls no listener. */
  method AsyncGuardScenario(codec: Codec<Field>, listener: ListenerId)
    returns (outcome: Outcome, after: State<Field>, calls: seq<Call<Field>>, stored: Option<string>)
    ensures outcome == NotAsync
    ensures after == map["count" := Num(0)]
    ensures calls == [] && stored == None
  {
    var storage := new MemoryStorage();
    var store := new Store(map["count" := Num(0)], DefaultStorageKey, storage, [], [], codec, NeverRaises);
    var handle := store.Subscribe(listener);
    outcome := store.SetStateAsync(Single(Plain(map["count" := Num(5)])), false);
    after := store.GetState();
    calls := store.log;
    stored := storage.GetItem(DefaultStorageKey);
  }
}
