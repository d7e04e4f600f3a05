# EasyStore, modelled in Dafny

EasyStore is a small client-side state container. It holds one state object
(string keys to values), applies synchronous and asynchronous partial updates
by shallow merge, calls its subscribed listeners after each update, and writes
a filtered copy of the new state (blacklist removed, then restricted to the
whitelist when one is given) under a storage key into a key-value storage
area. Its tests run against an in-memory `localStorage` mock.

This project models:

- `LocalStorageMock` (local_storage_mock.dfy): the mock storage of
  `jest.setup.ts` as a class over `map<string, string>`, with `Lookup` giving
  what `getItem` answers (an empty string reads as absent, like a missing key).
- `StoreSpec` (store_spec.dfy): the value-level logic of `src/store.ts`:
  shallow merge, the left-to-right `reduce` fold of the array form of the
  async update, resolution of update sources against the pre-update state,
  the persistence filter (with the in-place deletion loops of
  `persistState` as a method proved equal to it), removal from the listener
  list, and the sequence of listener calls one notification makes.
- `EasyStore` (easy_store.dfy): the `EasyStore` class as `Store`, whose
  methods reassign `state`, `listeners` and a `log` of listener calls and
  write the borrowed storage object.
- `StoreScenarios` (store_scenarios.dfy): clients that replay the test
  suite's scenarios and the persistence round trip.

The `instanceof` type tests of the source become tagged datatypes:
`SyncUpdate` (`Patch` or `Compute`), `Source` (`Plain`, `Func`, `Deferred`)
and `AsyncUpdate` (`Single` or `Batch`). A function result or settled promise
is an `Option`: `None` stands for a function that threw or a promise that
rejected. Listener bodies are opaque; the store's `raises` function says
which listener throws on which state, and each call is recorded in `log`.
`console.error` becomes the `Outcome` returned by each update.

`persistState` deletes blacklisted keys (src/store.ts:182-186) before the
whitelist pass (src/store.ts:189-195), so a key on both lists is never
persisted (`StoreSpec.BlacklistBeatsWhitelist`).

## Model

| member | source | states |
|---|---|---|
| LocalStorageMock.Lookup | jest.setup.ts:9-11 | for own string keys of the dictionary, `getItem` answers the stored string exactly when the key is present with a non-empty value; absent keys and empty strings both give null |
| LocalStorageMock.MemoryStorage.constructor | jest.setup.ts:5 | the mock starts with an empty dictionary |
| LocalStorageMock.MemoryStorage.SetItem | jest.setup.ts:6-8 | only the entry for the key changes; afterwards `getItem` returns the value when it is non-empty and null when it is empty; every other key reads as before |
| LocalStorageMock.MemoryStorage.GetItem | jest.setup.ts:9-11 | returns `Lookup` of the dictionary, never an empty string |
| LocalStorageMock.MemoryStorage.RemoveItem | jest.setup.ts:12-14 | deletes only that key; `getItem` of it is then null; other keys read as before; removing an absent key changes nothing, so a second removal is a no-op |
| LocalStorageMock.MemoryStorage.Clear | jest.setup.ts:15-17 | the dictionary is empty and `getItem` is null for every key |
| StoreSpec.SyncResult | src/store.ts:80-86 | a partial is merged onto the old state; a function is called with the old state and its result merged onto that same state; the update fails exactly when the function throws |
| StoreSpec.Merge | src/store.ts:86 | `{...s, ...p}` has the keys of both; keys of the partial take its values; every other key keeps its old value |
| StoreSpec.FoldMerge | src/store.ts:125-128 | the `reduce` keeps every key of its seed and of every partial, and the last partial's keys take that partial's values |
| StoreSpec.FoldMergeSnoc | src/store.ts:125-128 | folding one more partial is merging it onto the fold so far, so later partials are applied after earlier ones |
| StoreSpec.FoldMergeShift | src/store.ts:125-128 | folding from `Merge(a, b)` equals merging the fold from `b` onto `a` |
| StoreSpec.FoldMergeOntoState | src/store.ts:125-128 | the fold seeded with the current state equals shallow-merging the fold of the partials alone onto the current state |
| StoreSpec.FoldMergeLastWins | src/store.ts:125-128 | the last partial that holds a key decides that key's value in the fold |
| StoreSpec.FoldMergeUntouched | src/store.ts:125-128 | a key no partial holds keeps its seed value and is present only if the seed had it |
| StoreSpec.Resolve | src/store.ts:115-121 | a plain value passes through unchanged, a promise yields its settled result, and a function is called with the pre-update state |
| StoreSpec.ResolveAll | src/store.ts:113-123 | the join succeeds iff every element resolves; then it has one result per element, in order, each resolved against the same pre-update state |
| StoreSpec.AsyncResult | src/store.ts:112-139 | the async update succeeds iff its single source resolves, or iff every batch element resolves (all-or-nothing) |
| StoreSpec.AsyncBatchLastWins | src/store.ts:112-129 | after a successful batch each key takes its value from the last element whose resolved partial holds it |
| StoreSpec.AsyncBatchKeepsUntouched | src/store.ts:112-129 | after a successful batch a key no element holds keeps its old value and presence |
| StoreSpec.AsyncEmptyBatch | src/store.ts:125-128 | an empty batch installs a state equal to the old one |
| StoreSpec.PersistFilter | src/store.ts:179-195 | a key is persisted iff it is in the state, not blacklisted, and whitelisted when the whitelist is non-empty; each persisted key keeps its state value |
| StoreSpec.FilterForPersist | src/store.ts:179-195 | the copy-then-delete passes over the keys (blacklist pass, then whitelist pass in whitelist mode) produce exactly `PersistFilter` |
| StoreSpec.BlacklistBeatsWhitelist | src/store.ts:181-195 | a key on both lists is never persisted |
| StoreSpec.Without | src/store.ts:159-161 | the filtered list holds exactly the listeners other than the removed one and is no longer than before |
| StoreSpec.WithoutAppend | src/store.ts:159-161 | removal distributes over concatenation, so the remaining listeners keep their order |
| StoreSpec.WithoutCounts | src/store.ts:159-161 | removal drops every occurrence of the listener and keeps each other listener as many times as before |
| StoreSpec.WithoutAbsent | src/store.ts:159-161 | removing a listener that is not in the list leaves it unchanged |
| StoreSpec.WithoutIdempotent | src/store.ts:159-161 | calling the unsubscribe closure twice is the same as once |
| StoreSpec.SubscribeThenUnsubscribe | src/store.ts:157-162 | subscribing a listener and then unsubscribing it gives the old list without that listener |
| StoreSpec.Deliveries | src/store.ts:169-171 | the notification calls listeners in list order with the new state, each list entry at most once (a listener subscribed twice is called twice), stopping right after the first one that throws |
| StoreSpec.DeliveriesAllReturn | src/store.ts:169-171 | when no listener throws, every list entry is called exactly once, in list order, with the new state |
| StoreSpec.DeliveriesStopAtFirstRaise | src/store.ts:169-171 | when listener `i` is the first to throw, exactly listeners `0..i` are called |
| EasyStore.Store.constructor | src/store.ts:42-61 | the state is the decoded stored record when `getItem(storageKey)` is non-empty, else the initial state, unmerged; the listener list starts empty; the lists become sets |
| EasyStore.Store.GetState | src/store.ts:67-69 | returns the current state without changing anything |
| EasyStore.Store.NotifyListeners | src/store.ts:169-171 | appends exactly `Deliveries` of the listener list to the call log and reports whether every listener returned |
| EasyStore.Store.Record | src/store.ts:197 | the text written for a state is non-empty and decodes back to that state's filtered projection when the codec is faithful |
| EasyStore.Store.PersistState | src/store.ts:178-198 | writes the encoded filtered state under the storage key; no other storage entry changes |
| EasyStore.Store.Publish | src/store.ts:81-92 | the shared tail of an update: the new state is installed first, the listeners are called next, storage is written last and only when no listener threw; a throwing listener leaves the new state installed |
| EasyStore.Store.SetStateSync | src/store.ts:77-93 | a partial (or the function's result on the pre-update state) is merged onto the old state and published; a throwing function changes nothing; the listener list never changes |
| EasyStore.Store.SetStateAsync | src/store.ts:102-149 | with `isAsync` false nothing changes and no listener is called; a failed resolution changes nothing; otherwise the `AsyncResult` state is published like the sync path |
| EasyStore.Store.Subscribe | src/store.ts:157-158 | appends the listener at the end of the list and returns a handle for it |
| EasyStore.Store.Unsubscribe | src/store.ts:159-161 | removes every occurrence of the handle's listener, keeps the others in order, and is a no-op when the listener is already gone |
| StoreScenarios.ReopenAfterUpdate | src/store.ts:54-55 | a store opened on the same key after another store's update starts from that update's filtered state, not from its own initial state |
| StoreScenarios.SyncUpdateScenario | test/store.test.ts:17-54 | a fresh store reads `{count: 0}`; after a sync update `{count: 1}` it reads `{count: 1}` and storage holds the encoding of `{count: 1}` |
| StoreScenarios.WhitelistScenario | test/store.test.ts:56-73 | with whitelist `["count"]`, the update `{count: 2, name: "Updated"}` persists only `{count: 2}` |
| StoreScenarios.BlacklistScenario | test/store.test.ts:75-92 | with blacklist `["name"]`, the same update persists only `{count: 2}` |
| StoreScenarios.UnsubscribeScenario | test/store.test.ts:32-40 | the listener is called once with `{count: 1}` and not again after unsubscribing |
| StoreScenarios.AsyncBatchScenario | src/store.ts:112-129 | the batch `[{count: 1}, promise of {count: 2}]` ends with `count` 2: the later element wins |
| StoreScenarios.AsyncGuardScenario | src/store.ts:146-148 | `setStateAsync` with `isAsync` false leaves state and storage untouched and calls no listener |

## Left out

- `deepFreeze` (src/store.ts:206-215): runtime immutability of JavaScript objects; Dafny values are immutable already.
- Promise scheduling: the concurrency of `Promise.all` and races between overlapping async updates (src/store.ts:113-136). The async update is modelled after its awaits have settled, with no other update in between; functions and promises are given by their settled results.
- JSON text: `JSON.stringify` and `JSON.parse` are the abstract `Codec`; round trips assume `Faithful` (decoding what was encoded gives it back, and no encoding is empty). Real JSON is not faithful for values it drops or changes (`undefined`, functions, `NaN`, `Date`), so `StoreScenarios.ReopenAfterUpdate` holds only for states JSON can represent. A stored record that `JSON.parse` rejects makes the source constructor throw; the model's decode is total, so that failure is not modelled. A `JSON.stringify` failure or a storage write failure inside `persistState` is not modelled either.
- Storage selection by `storageType` (src/store.ts:49-50): the storage object is passed to the constructor. The default key is the constant `DefaultStorageKey`; other option defaults become explicit arguments.
- The text written by `console.error`: modelled only as the `Outcome` of each update.
- Listener bodies: opaque; only which one throws on which state (`raises`) and the order of calls are modelled.
- Spreading values that are not plain objects (a promise passed to `setStateSync`, a partial that is `null`): the TypeScript types exclude them and the model's update types do not offer them.
- LocalStorageMock.Lookup, MemoryStorage.SetItem, MemoryStorage.RemoveItem: only own string keys of the mock's dictionary are modelled. The dictionary is a plain object, so inherited `Object.prototype` names (`toString`, `constructor`) read as truthy functions and `__proto__` does not store a string; those keys are not modelled. The `Store` constructor is therefore not modelled for a `storageKey` that names such a property.
- EasyStore.Store.SetStateSync, EasyStore.Store.SetStateAsync: the shallow merge and `deepFreeze` can themselves throw inside the `try` (a partial with a throwing getter, or a nested non-empty typed array that `Object.freeze` rejects). Then nothing is installed, notified or persisted. The model's `Patch` and `Plain` paths always succeed, so this failure path is not modelled.
- dist/store.js is the compiled form of src/store.ts and is not modelled separately; src/example.ts is a demo script and is not part of this model.
