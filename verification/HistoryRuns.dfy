/** Whole runs of the history store (src/storage/memory_store.ts): any saves, sorts and cleans, in any
    order, and what iterating over the history yields afterwards. */
module HistoryRuns {
  import opened Wrappers
  import opened SeqSums
  import opened HistoryStore
  import opened Store = MemoryStore

  datatype Event =
    | Save(tx: StoredTx)
    | Sort
    | Clean(cleanHistory: bool, cleanAddresses: bool)

  /** A known transaction and the timestamp it was first saved with. */
  datatype Known = Known(first: int, tx: StoredTx)

  function AfterEvent(known: map<TxId, Known>, event: Event): map<TxId, Known> {
    match event
    case Save(tx) =>
      if tx.id in known then known[tx.id := Known(known[tx.id].first, tx)]
      else if 0 <= tx.timestamp <= MAX_TIMESTAMP then known[tx.id := Known(tx.timestamp, tx)]
      else known
    case Sort => known
    case Clean(cleanHistory, _) => if cleanHistory then map[] else known
  }

  /** What is known after a run. */
  function After(events: seq<Event>): map<TxId, Known> {
    if events == [] then map[] else AfterEvent(After(events[..|events|-1]), events[|events|-1])
  }

  predicate ColonFree(event: Event) { event.Save? ==> ':' !in event.tx.id.hex }

  predicate AllColonFree(events: seq<Event>) { forall event :: event in events ==> ColonFree(event) }

  /** The history holds what is known. */
  ghost predicate Holds(history: map<TxId, StoredTx>, known: map<TxId, Known>) {
    && (forall id :: id in history <==> id in known)
    && forall id :: id in known ==> history[id] == known[id].tx
  }

  /** Every key carries the first timestamp. */
  ghost predicate Keyed(known: map<TxId, Known>, keys: seq<string>) {
    forall key :: key in keys ==> KeyedAt(known, key)
  }

  predicate KeyedAt(known: map<TxId, Known>, key: string) {
    var id := IdAt(key);
    && id.Some? && id.value in known
    && 0 <= known[id.value].first <= MAX_TIMESTAMP && key == KeyOf(known[id.value].first, id.value.hex)
  }

  lemma SaveKeyed(known: map<TxId, Known>, keys: seq<string>, tx: StoredTx)
    requires Keyed(known, keys) && ':' !in tx.id.hex
    requires tx.id in known || 0 <= tx.timestamp <= MAX_TIMESTAMP
    ensures Keyed(AfterEvent(known, Save(tx)), keys + if tx.id in known then [] else [KeyOf(tx.timestamp, tx.id.hex)])
  {
    if tx.id !in known {
      KeyDecodes(tx.timestamp, tx.id.hex);
    }
  }

  /** One event keeps history and keys in step with what is known. */
  method Happen(store: MemoryStore, event: Event, ghost known: map<TxId, Known>)
    requires Holds(store.history, known)
    modifies store
    ensures Holds(store.history, AfterEvent(known, event))
    ensures old(store.Valid() && Keyed(known, store.historyTs)) && ColonFree(event) ==>
      store.Valid() && Keyed(AfterEvent(known, event), store.historyTs)
  {
    match event
    case Save(tx) =>
      ghost var keys := store.historyTs;
      var r := store.SaveTx(tx);
      if r.Ok? && Keyed(known, keys) && ':' !in tx.id.hex {
        SaveKeyed(known, keys, tx);
      }
    case Sort =>
      ghost var keys := store.historyTs;
      store.PreProcessHistory();
      SortedKeyed(known, keys, store.historyTs);
    case Clean(cleanHistory, cleanAddresses) =>
      store.CleanStorage(cleanHistory, cleanAddresses);
  }

  lemma SortedKeyed(known: map<TxId, Known>, keys: seq<string>, sorted: seq<string>)
    requires multiset(sorted) == multiset(keys)
    ensures Keyed(known, keys) ==> Keyed(known, sorted)
  {
    forall key | key in sorted ensures key in keys {
      assert key in multiset(sorted);
    }
  }

  /** Every transaction keeps the timestamp it was first saved with. */
  predicate Steady(known: map<TxId, Known>) {
    forall id :: id in known ==> known[id].tx.timestamp == known[id].first
  }

  lemma CurrentIffSteady(history: map<TxId, StoredTx>, keys: seq<string>, known: map<TxId, Known>)
    requires InStep(history, keys) && Holds(history, known) && Keyed(known, keys)
    ensures Current(history, keys) <==> Steady(known)
  {
    if Current(history, keys) {
      forall id | id in known ensures known[id].tx.timestamp == known[id].first {
        CurrentIsFirst(history, keys, known, id);
      }
    } else {
      var key :| key in keys && IdAt(key).Some? && IdAt(key).value in history
        && !(key == KeyOf(history[IdAt(key).value].timestamp, IdAt(key).value.hex) && 0 <= history[IdAt(key).value].timestamp <= MAX_TIMESTAMP);
      assert KeyedAt(known, key);
    }
  }

  lemma CurrentIsFirst(history: map<TxId, StoredTx>, keys: seq<string>, known: map<TxId, Known>, id: TxId)
    requires InStep(history, keys) && Holds(history, known) && Keyed(known, keys) && Current(history, keys) && id in known
    ensures known[id].tx.timestamp == known[id].first
  {
    assert Some(id) in Map(keys, IdAtKey());
    var k :| 0 <= k < |keys| && Map(keys, IdAtKey())[k] == Some(id);
    assert keys[k] in keys && KeyedAt(known, keys[k]);
    SameKeyTime(known[id].first, history[id].timestamp, id.hex);
  }

  lemma SameKeyTime(t: int, u: int, id: string)
    requires 0 <= t <= MAX_TIMESTAMP && 0 <= u <= MAX_TIMESTAMP && KeyOf(t, id) == KeyOf(u, id)
    ensures t == u
  {
    KeyDecodes(t, id);
    KeyDecodes(u, id);
  }

  /** After any run the history is what is known; with colon-free ids each known transaction has its
      one key, and the keys are current exactly when no transaction left its first timestamp. */
  method Drive(addresses: set<string>, events: seq<Event>) returns (store: MemoryStore)
    ensures fresh(store) && Holds(store.history, After(events))
    ensures AllColonFree(events) ==> store.Valid() && Keyed(After(events), store.historyTs)
    ensures AllColonFree(events) ==> (store.IsCurrent() <==> Steady(After(events)))
  {
    store := new MemoryStore(addresses);
    for k := 0 to |events|
      invariant fresh(store) && Holds(store.history, After(events[..k]))
      invariant AllColonFree(events) ==> store.Valid() && Keyed(After(events[..k]), store.historyTs)
    {
      assert events[..k+1][..k] == events[..k] && events[k] in events;
      Happen(store, events[k], After(events[..k]));
    }
    assert events[..|events|] == events;
    if AllColonFree(events) {
      CurrentIffSteady(store.history, store.historyTs, After(events));
    }
  }

  // ----- what iteration yields -----

  /** `a` was first saved with an earlier timestamp than `b`, or with the same one and a smaller id. */
  predicate FirstEarlier(known: map<TxId, Known>, a: TxId, b: TxId)
    requires a in known && b in known
  {
    known[a].first < known[b].first || (known[a].first == known[b].first && Less(a.hex, b.hex))
  }

  /** Every known transaction once, by first timestamp and then by id. */
  ghost predicate Yields(r: seq<StoredTx>, known: map<TxId, Known>) {
    && (forall k :: 0 <= k < |r| ==> r[k].id in known && known[r[k].id].tx == r[k])
    && (forall id :: id in known ==> known[id].tx.id == id && known[id].tx in r)
    && (forall i, j :: 0 <= i < j < |r| ==> FirstEarlier(known, r[i].id, r[j].id))
  }

  ghost predicate Chronological(r: seq<StoredTx>) {
    forall i, j :: 0 <= i < j < |r| ==> Earlier(r[i], r[j])
  }

  /** Later saves kept the order of the first ones. */
  ghost predicate OrderKept(known: map<TxId, Known>) {
    forall a, b :: a in known && b in known && FirstEarlier(known, a, b) ==> Earlier(known[a].tx, known[b].tx)
  }

  lemma WalkYields(history: map<TxId, StoredTx>, keys: seq<string>, known: map<TxId, Known>, addresses: set<string>)
    requires InStep(history, keys) && Holds(history, known) && Keyed(known, keys) && Sorted(keys)
    ensures Walk(history, keys, None, addresses).Ok? && Yields(Walk(history, keys, None, addresses).value, known)
  {
    WalkIsPointwise(history, keys, addresses);
    var r := Walk(history, keys, None, addresses).value;
    forall k | 0 <= k < |r| ensures r[k].id in known && known[r[k].id].tx == r[k] {
      assert IdAt(keys[k]).value in history;
    }
    forall id | id in known ensures known[id].tx.id == id && known[id].tx in r {
      assert id in history;
      EachIsYielded(history, keys, r, id);
    }
    forall i, j | 0 <= i < j < |r| ensures FirstEarlier(known, r[i].id, r[j].id) {
      KeysByFirst(history, keys, known, i, j);
      assert IdAt(keys[i]).value in history && IdAt(keys[j]).value in history;
    }
  }

  lemma KeysByFirst(history: map<TxId, StoredTx>, keys: seq<string>, known: map<TxId, Known>, i: nat, j: nat)
    requires InStep(history, keys) && Keyed(known, keys) && Sorted(keys) && i < j < |keys|
    ensures KeyedAt(known, keys[i]) && KeyedAt(known, keys[j])
    ensures FirstEarlier(known, IdAt(keys[i]).value, IdAt(keys[j]).value)
  {
    assert keys[i] in keys && keys[j] in keys;
    var a, b := IdAt(keys[i]).value, IdAt(keys[j]).value;
    assert Map(keys, IdAtKey())[i] != Map(keys, IdAtKey())[j];
    KeyOrder(known[a].first, a.hex, known[b].first, b.hex);
    KeyOrder(known[b].first, b.hex, known[a].first, a.hex);
    LessIsTotal(keys[i], keys[j]);
    LessIsTotal(a.hex, b.hex);
  }

  lemma ChronologicalIff(r: seq<StoredTx>, known: map<TxId, Known>)
    requires Yields(r, known)
    ensures Chronological(r) <==> OrderKept(known)
  {
    if Chronological(r) {
      forall a, b | a in known && b in known && FirstEarlier(known, a, b)
        ensures Earlier(known[a].tx, known[b].tx)
      {
        InOrder(r, known, a, b);
      }
    }
  }

  lemma InOrder(r: seq<StoredTx>, known: map<TxId, Known>, a: TxId, b: TxId)
    requires Yields(r, known) && Chronological(r) && a in known && b in known && FirstEarlier(known, a, b)
    ensures Earlier(known[a].tx, known[b].tx)
  {
    var i :| 0 <= i < |r| && r[i] == known[a].tx;
    var j :| 0 <= j < |r| && r[j] == known[b].tx;
    LessIsTotal(a.hex, b.hex);
    LessIsTotal(a.hex, a.hex);
    assert !FirstEarlier(known, b, a);
  }

  /** Sorting and iterating after any run yields every known transaction exactly once, in the order of
      the first timestamps; that is the order of the present timestamps exactly when later saves kept
      the order of the first ones. */
  method Replay(addresses: set<string>, events: seq<Event>) returns (r: Result<seq<StoredTx>, StoreError>)
    ensures AllColonFree(events) ==> r.Ok? && Yields(r.value, After(events))
    ensures AllColonFree(events) ==> (Chronological(r.value) <==> OrderKept(After(events)))
  {
    var store := Drive(addresses, events);
    ghost var known, keys := After(events), store.historyTs;
    store.PreProcessHistory();
    SortedKeyed(known, keys, store.historyTs);
    r := store.HistoryIter(None, true);
    if AllColonFree(events) {
      WalkYields(store.history, store.historyTs, known, store.addresses);
      ChronologicalIff(r.value, known);
    }
  }
}
