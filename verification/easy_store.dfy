/**
  The store object of src/store.ts (`EasyStore`): the current state, the
  listener list, the persistence key and filters, and the storage area it
  borrows.
 */
module EasyStore {
  import opened Wrappers
  import opened StoreSpec
  import opened LocalStorageMock

  /** The persistence key the source uses when none is given. */
  const DefaultStorageKey: string := "easyStoreState"

  /** `JSON.stringify` / `JSON.parse` between a state and a storage entry,
      taken as abstract functions. */
  datatype Codec<!V> = Codec(encode: State<V> -> string, decode: string -> State<V>)

  /** Decoding gives back what was encoded, and no encoding is the empty
      string (a serialized object is at least `{}`). */
  ghost predicate Faithful<V(!new)>(codec: Codec<V>)
  {
    forall s :: codec.decode(codec.encode(s)) == s && codec.encode(s) != ""
  }

  /** What an update call ends with; the two failures are the ones the
      source reports on its diagnostic channel. */
  datatype Outcome =
    | Updated          // state installed, every listener returned, state persisted
    | ListenerRaised   // state installed, a listener threw, nothing persisted
    | UpdaterRaised    // a function threw or a promise rejected: nothing changed
    | NotAsync         // `setStateAsync` called with `isAsync` false: nothing changed

  /** What `subscribe` hands back: calling `Unsubscribe` with it is the
      returned closure. */
  datatype Subscription = Subscription(listener: ListenerId)

  class Store<V(!new)> {
    var state: State<V>
    var listeners: seq<ListenerId>
    /** Every listener call made so far, in order. */
    var log: seq<Call<V>>
    const storageKey: string
    const storage: MemoryStorage
    const whitelist: set<string>
    const blacklist: set<string>
    const codec: Codec<V>
    /** Which listener bodies throw when called with a given state. */
    const raises: (ListenerId, State<V>) -> bool

    /** The record `persistState` writes for state `s`: with a faithful
        codec it is non-empty and decodes to the filtered state. */
    function Record(s: State<V>): (text: string)
      ensures Faithful(codec) ==> text != "" && codec.decode(text) == PersistFilter(s, whitelist, blacklist)
    {
      codec.encode(PersistFilter(s, whitelist, blacklist))
    }

    /** Load the persisted record when storage holds a non-empty one under
        `storageKey`; otherwise start from `initialState`, unmerged. */
    constructor (initialState: State<V>, storageKey: string, storage: MemoryStorage,
                 whitelist: seq<string>, blacklist: seq<string>,
                 codec: Codec<V>, raises: (ListenerId, State<V>) -> bool)
      ensures this.storageKey == storageKey && this.storage == storage
      ensures this.codec == codec && this.raises == raises
      ensures this.whitelist == set k | k in whitelist
      ensures this.blacklist == set k | k in blacklist
      ensures state == match Lookup(storage.store, storageKey)
                       case Some(text) => codec.decode(text)
                       case None => initialState
      ensures listeners == [] && log == []
    {
      var persisted := storage.GetItem(storageKey);
      this.storage := storage;
      this.storageKey := storageKey;
      this.codec := codec;
      this.raises := raises;
      state := if persisted.Some? then codec.decode(persisted.value) else initialState;
      listeners := [];
      log := [];
      this.whitelist := set k | k in whitelist;
      this.blacklist := set k | k in blacklist;
    }

    method GetState() returns (s: State<V>)
      ensures s == state
    {
      s := state;
    }

    /** Call every listener in list order with the current state; stops
        after a listener that throws, and then reports `false`. */
    method NotifyListeners() returns (ok: bool)
      modifies this`log
      ensures log == old(log) + Deliveries(listeners, state, raises)
      ensures ok == AllReturn(listeners, state, raises)
    {
      var i := 0;
      ok := true;
      while i < |listeners| && ok
        invariant 0 <= i <= |listeners|
        invariant |log| == |old(log)| + i
        invariant log[..|old(log)|] == old(log)
        invariant forall j :: 0 <= j < i ==> log[|old(log)| + j] == Call(listeners[j], state)
        invariant forall j :: 0 <= j < i - 1 ==> !raises(listeners[j], state)
        invariant ok == (i == 0 || !raises(listeners[i - 1], state))
      {
        log := log + [Call(listeners[i], state)];
        ok := !raises(listeners[i], state);
        i := i + 1;
      }
      ghost var calls := log[|old(log)|..];
      assert log == old(log) + calls;
      if ok {
        DeliveriesAllReturn(listeners, state, raises);
      } else {
        DeliveriesStopAtFirstRaise(listeners, state, raises, i - 1);
      }
    }

    /** Write the filtered state under `storageKey`; no other entry changes. */
    method PersistState()
      modifies storage
      ensures storage.store == old(storage.store)[storageKey := Record(state)]
    {
      var stateToPersist := FilterForPersist(state, whitelist, blacklist);
      storage.SetItem(storageKey, codec.encode(stateToPersist));
    }

    /** The tail every update shares: install the new state, notify the
        listeners, and persist only when none of them threw. */
    method Publish(next: State<V>) returns (outcome: Outcome)
      modifies this`state, this`log, storage
      ensures state == next
      ensures log == old(log) + Deliveries(listeners, next, raises)
      ensures AllReturn(listeners, next, raises) ==>
                outcome == Updated && storage.store == old(storage.store)[storageKey := Record(next)]
      ensures !AllReturn(listeners, next, raises) ==>
                outcome == ListenerRaised && storage.store == old(storage.store)
    {
      state := next;
      var ok := NotifyListeners();
      if ok {
        PersistState();
        outcome := Updated;
      } else {
        outcome := ListenerRaised;
      }
    }

    /** `setStateSync`: merge the partial (or the function's result on the
        current state) onto the current state, then publish. */
    method SetStateSync(update: SyncUpdate<V>) returns (outcome: Outcome)
      modifies this`state, this`log, storage
      ensures SyncResult(old(state), update).None? ==>
                outcome == UpdaterRaised && state == old(state) && log == old(log) &&
                storage.store == old(storage.store)
      ensures SyncResult(old(state), update).Some? ==>
                var next := SyncResult(old(state), update).value;
                && state == next
                && log == old(log) + Deliveries(listeners, next, raises)
                && (AllReturn(listeners, next, raises) ==>
                      outcome == Updated && storage.store == old(storage.store)[storageKey := Record(next)])
                && (!AllReturn(listeners, next, raises) ==>
                      outcome == ListenerRaised && storage.store == old(storage.store))
    {
      var next: State<V>;
      match update {
        case Patch(p) =>
          next := Merge(state, p);
        case Compute(f) =>
          var partial := f(state);
          if partial.None? {
            return UpdaterRaised;
          }
          next := Merge(state, partial.value);
      }
      outcome := Publish(next);
    }

    /** `setStateAsync` once its awaits have settled: refused unless
        `isAsync`; a batch resolves every element against the current state
        and folds the results left to right onto it. */
    method SetStateAsync(update: AsyncUpdate<V>, isAsync: bool) returns (outcome: Outcome)
      modifies this`state, this`log, storage
      ensures !isAsync ==>
                outcome == NotAsync && state == old(state) && log == old(log) &&
                storage.store == old(storage.store)
      ensures isAsync && AsyncResult(old(state), update).None? ==>
                outcome == UpdaterRaised && state == old(state) && log == old(log) &&
                storage.store == old(storage.store)
      ensures isAsync && AsyncResult(old(state), update).Some? ==>
                var next := AsyncResult(old(state), update).value;
                && state == next
                && log == old(log) + Deliveries(listeners, next, raises)
                && (AllReturn(listeners, next, raises) ==>
                      outcome == Updated && storage.store == old(storage.store)[storageKey := Record(next)])
                && (!AllReturn(listeners, next, raises) ==>
                      outcome == ListenerRaised && storage.store == old(storage.store))
    {
      if !isAsync {
        return NotAsync;
      }
      var next: State<V>;
      match update {
        case Batch(sources) =>
          var results := ResolveAll(sources, state);
          if results.None? {
            return UpdaterRaised;
          }
          next := FoldMerge(state, results.value);
        case Single(source) =>
          var partial := Resolve(source, state);
          if partial.None? {
            return UpdaterRaised;
          }
          next := Merge(state, partial.value);
      }
      outcome := Publish(next);
    }

    /** Append `l` to the listener list. */
    method Subscribe(l: ListenerId) returns (handle: Subscription)
      modifies this`listeners
      ensures listeners == old(listeners) + [l]
      ensures handle.listener == l
    {
      listeners := listeners + [l];
      handle := Subscription(l);
    }

    /** The closure `subscribe` returns: drop every occurrence of the
        subscribed listener, keeping the others in order. */
    method Unsubscribe(handle: Subscription)
      modifies this`listeners
      ensures listeners == Without(old(listeners), handle.listener)
      ensures handle.listener !in listeners
      ensures handle.listener !in old(listeners) ==> listeners == old(listeners)
    {
      if handle.listener !in listeners {
        WithoutAbsent(listeners, handle.listener);
      }
      listeners := Without(listeners, handle.listener);
    }
  }
}
