/** The history half of `MemoryStore` (src/storage/memory_store.ts): a map of transactions and a list of
    ordering keys that must stay in step. */
module MemoryStore {
  import opened Wrappers
  import opened SeqSums
  import opened HistoryStore

  datatype TxId = TxId(hex: string)

  /** An input or transparent output. */
  datatype Io = Io(address: Option<string>, token: string)

  /** A shielded output; `value` is present once decoded. */
  datatype ShieldedIo = ShieldedIo(value: Option<int>, address: Option<string>, token: Option<string>)

  datatype StoredTx = StoredTx(id: TxId, timestamp: int, inputs: seq<Io>, outputs: seq<Io>, shielded: seq<ShieldedIo>)

  datatype StoreError = TimestampOutOfRange | TransactionNotFound

  // ----- sorting -----

  function Insert(k: string, s: seq<string>): seq<string> {
    if s == [] then [k] else if Less(s[0], k) then [s[0]] + Insert(k, s[1..]) else [k] + s
  }

  /** The array's default `sort`. */
  function SortKeys(s: seq<string>): seq<string> {
    if s == [] then [] else Insert(s[0], SortKeys(s[1..]))
  }

  ghost predicate Sorted(s: seq<string>) {
    forall i, j :: 0 <= i < j < |s| ==> !Less(s[j], s[i])
  }

  lemma {:induction false} InsertKeeps(k: string, s: seq<string>)
    ensures multiset(Insert(k, s)) == multiset(s) + multiset{k}
  {
    if s != [] {
      assert s == [s[0]] + s[1..];
      InsertKeeps(k, s[1..]);
    }
  }

  lemma {:induction false} InsertSorts(k: string, s: seq<string>)
    requires Sorted(s)
    ensures Sorted(Insert(k, s))
  {
    if s != [] {
      LessIsTotal(s[0], k);
      if Less(s[0], k) {
        var r := Insert(k, s[1..]);
        InsertSorts(k, s[1..]);
        InsertKeeps(k, s[1..]);
        forall j | 0 <= j < |r| ensures !Less(r[j], s[0]) {
          assert r[j] in multiset(r);
        }
      } else {
        LessIsTotal(s[0], s[0]);
        forall j | 0 <= j < |s| ensures !Less(s[j], k) {
          NotLessChain(s[j], s[0], k);
        }
      }
    }
  }

  lemma NotLessChain(x: string, y: string, z: string)
    requires !Less(x, y) && !Less(y, z)
    ensures !Less(x, z)
  {
    LessIsTotal(x, y);
    LessIsTotal(y, z);
    if Less(y, x) && Less(z, y) {
      LessIsTransitive(z, y, x);
      LessIsTotal(z, x);
    }
  }

  lemma {:induction false} SortingSorts(s: seq<string>)
    ensures Sorted(SortKeys(s)) && multiset(SortKeys(s)) == multiset(s)
  {
    if s != [] {
      SortingSorts(s[1..]);
      InsertSorts(s[0], SortKeys(s[1..]));
      InsertKeeps(s[0], SortKeys(s[1..]));
      assert s == [s[0]] + s[1..];
    }
  }

  // ----- keys and transactions in step -----

  /** The key was made for this id, with some timestamp. */
  ghost predicate IsKeyOf(key: string, id: TxId) {
    exists t: int :: 0 <= t <= MAX_TIMESTAMP && key == KeyOf(t, id.hex)
  }

  function IdAt(key: string): Option<TxId> {
    var id := PartsOf(key).1;
    if id.Some? then Some(TxId(id.value)) else None
  }

  function IdAtKey(): string -> Option<TxId> { (key: string) => IdAt(key) }

  lemma KeyHasId(key: string, id: TxId)
    requires IsKeyOf(key, id) && ':' !in id.hex
    ensures IdAt(key) == Some(id)
  {
    var t :| 0 <= t <= MAX_TIMESTAMP && key == KeyOf(t, id.hex);
    KeyDecodes(t, id.hex);
  }

  ghost predicate StoredUnderItsId(history: map<TxId, StoredTx>) {
    forall id :: id in history ==> history[id].id == id && ':' !in id.hex
  }

  /** Every key names one transaction of the history, and every transaction has one key. */
  ghost predicate InStep(history: map<TxId, StoredTx>, keys: seq<string>) {
    && StoredUnderItsId(history)
    && KeysNamed(history, keys)
    && Distinct(Map(keys, IdAtKey()))
    && (forall id :: id in history ==> Some(id) in Map(keys, IdAtKey()))
  }

  /** The keys carry the transactions' present timestamps. */
  ghost predicate Current(history: map<TxId, StoredTx>, keys: seq<string>) {
    forall key :: key in keys && IdAt(key).Some? && IdAt(key).value in history ==>
      key == KeyOf(history[IdAt(key).value].timestamp, IdAt(key).value.hex)
      && 0 <= history[IdAt(key).value].timestamp <= MAX_TIMESTAMP
  }

  lemma PermutedInStep(history: map<TxId, StoredTx>, keys: seq<string>, keys': seq<string>)
    requires InStep(history, keys) && multiset(keys) == multiset(keys')
    ensures InStep(history, keys') && (Current(history, keys) ==> Current(history, keys'))
  {
    forall key | key in keys' ensures key in keys {
      assert key in multiset(keys');
    }
    MapPermutation(keys, keys', IdAtKey());
    DistinctPermutation(Map(keys, IdAtKey()), Map(keys', IdAtKey()));
    forall id | id in history ensures Some(id) in Map(keys', IdAtKey()) {
      assert Some(id) in multiset(Map(keys, IdAtKey()));
    }
  }

  /** Sorting the keys keeps them in step, and current. */
  lemma SortedInStep(history: map<TxId, StoredTx>, keys: seq<string>)
    ensures Sorted(SortKeys(keys)) && multiset(SortKeys(keys)) == multiset(keys)
    ensures InStep(history, keys) ==> InStep(history, SortKeys(keys))
    ensures InStep(history, keys) && Current(history, keys) ==> Current(history, SortKeys(keys))
  {
    SortingSorts(keys);
    if InStep(history, keys) {
      PermutedInStep(history, keys, SortKeys(keys));
    }
  }

  /** Every key names a stored transaction. */
  ghost predicate KeysNamed(history: map<TxId, StoredTx>, keys: seq<string>) {
    forall key :: key in keys ==> IdAt(key).Some? && IdAt(key).value in history && IsKeyOf(key, IdAt(key).value)
  }

  lemma NewKeyNamed(history: map<TxId, StoredTx>, keys: seq<string>, tx: StoredTx, key: string)
    requires KeysNamed(history, keys) && IdAt(key) == Some(tx.id) && IsKeyOf(key, tx.id)
    ensures KeysNamed(history[tx.id := tx], keys + [key])
  {
  }

  lemma NewIds(history: map<TxId, StoredTx>, keys: seq<string>, tx: StoredTx, key: string)
    requires KeysNamed(history, keys) && tx.id !in history && IdAt(key) == Some(tx.id)
    requires Distinct(Map(keys, IdAtKey())) && forall id :: id in history ==> Some(id) in Map(keys, IdAtKey())
    ensures Distinct(Map(keys + [key], IdAtKey()))
    ensures forall id :: id in history[tx.id := tx] ==> Some(id) in Map(keys + [key], IdAtKey())
  {
    MapPush(keys, key, IdAtKey());
    forall k | 0 <= k < |keys| ensures IdAt(keys[k]) != Some(tx.id) {
      assert keys[k] in keys;
    }
    DistinctAppend(Map(keys, IdAtKey()), [Some(tx.id)]);
    var ids := Map(keys, IdAtKey()) + [Some(tx.id)];
    assert ids[|keys|] == Some(tx.id);
  }

  lemma NewIsCurrent(history: map<TxId, StoredTx>, keys: seq<string>, tx: StoredTx, key: string)
    requires Current(history, keys) && KeysNamed(history, keys) && tx.id !in history
    requires IdAt(key) == Some(tx.id) && key == KeyOf(tx.timestamp, tx.id.hex) && 0 <= tx.timestamp <= MAX_TIMESTAMP
    ensures Current(history[tx.id := tx], keys + [key])
  {
  }

  lemma NewTxInStep(history: map<TxId, StoredTx>, keys: seq<string>, tx: StoredTx)
    requires InStep(history, keys) && tx.id !in history && ':' !in tx.id.hex && 0 <= tx.timestamp <= MAX_TIMESTAMP
    ensures InStep(history[tx.id := tx], keys + [KeyOf(tx.timestamp, tx.id.hex)])
    ensures Current(history, keys) ==> Current(history[tx.id := tx], keys + [KeyOf(tx.timestamp, tx.id.hex)])
  {
    var key := KeyOf(tx.timestamp, tx.id.hex);
    assert IsKeyOf(key, tx.id);
    KeyHasId(key, tx.id);
    KeyAdded(history, keys, tx, key);
    if Current(history, keys) {
      NewIsCurrent(history, keys, tx, key);
    }
  }

  lemma KeyAdded(history: map<TxId, StoredTx>, keys: seq<string>, tx: StoredTx, key: string)
    requires InStep(history, keys) && tx.id !in history && ':' !in tx.id.hex && IdAt(key) == Some(tx.id) && IsKeyOf(key, tx.id)
    ensures InStep(history[tx.id := tx], keys + [key])
  {
    NewKeyNamed(history, keys, tx, key);
    NewIds(history, keys, tx, key);
    TogetherInStep(history[tx.id := tx], keys + [key]);
  }

  lemma TogetherInStep(history: map<TxId, StoredTx>, keys: seq<string>)
    requires StoredUnderItsId(history) && KeysNamed(history, keys) && Distinct(Map(keys, IdAtKey()))
    requires forall id :: id in history ==> Some(id) in Map(keys, IdAtKey())
    ensures InStep(history, keys)
  {
  }

  lemma SameTxInStep(history: map<TxId, StoredTx>, keys: seq<string>, tx: StoredTx)
    requires InStep(history, keys) && tx.id in history
    ensures InStep(history[tx.id := tx], keys)
  {
  }

  lemma SameTxCurrent(history: map<TxId, StoredTx>, keys: seq<string>, tx: StoredTx)
    requires InStep(history, keys) && tx.id in history
    ensures Current(history, keys) ==> (Current(history[tx.id := tx], keys) <==> history[tx.id].timestamp == tx.timestamp)
  {
    if Current(history, keys) {
      assert Some(tx.id) in Map(keys, IdAtKey());
      var k :| 0 <= k < |keys| && Map(keys, IdAtKey())[k] == Some(tx.id);
      assert keys[k] in keys;
      StaleKey(history, keys, tx, keys[k]);
    }
  }

  /** A key keeps the timestamp it was made with. */
  lemma StaleKey(history: map<TxId, StoredTx>, keys: seq<string>, tx: StoredTx, key: string)
    requires Current(history, keys) && key in keys && IdAt(key) == Some(tx.id) && tx.id in history
    ensures Current(history[tx.id := tx], keys) <==> history[tx.id].timestamp == tx.timestamp
  {
    var was := history[tx.id].timestamp;
    KeyDecodes(was, tx.id.hex);
    if 0 <= tx.timestamp <= MAX_TIMESTAMP {
      KeyDecodes(tx.timestamp, tx.id.hex);
    }
    if was == tx.timestamp {
      StillCurrent(history, keys, tx);
    }
  }

  lemma StillCurrent(history: map<TxId, StoredTx>, keys: seq<string>, tx: StoredTx)
    requires Current(history, keys) && tx.id in history && history[tx.id].timestamp == tx.timestamp
    ensures Current(history[tx.id := tx], keys)
  {
  }

  // ----- iteration -----

  predicate AtOneOf(addresses: set<string>, address: Option<string>) {
    address.Some? && address.value != "" && address.value in addresses
  }

  /** A transaction concerns a token when one of the wallet's addresses moved it; an undecoded
      shielded output does not count. */
  predicate Concerns(tx: StoredTx, token: Option<string>, addresses: set<string>) {
    || token.None?
    || (exists i :: 0 <= i < |tx.inputs| && AtOneOf(addresses, tx.inputs[i].address) && tx.inputs[i].token == token.value)
    || (exists i :: 0 <= i < |tx.outputs| && AtOneOf(addresses, tx.outputs[i].address) && tx.outputs[i].token == token.value)
    || (exists i :: 0 <= i < |tx.shielded| && tx.shielded[i].value.Some? && AtOneOf(addresses, tx.shielded[i].address)
          && tx.shielded[i].token == token)
  }

  /** What iterating over the keys yields. */
  function Walk(history: map<TxId, StoredTx>, keys: seq<string>, token: Option<string>, addresses: set<string>)
    : Result<seq<StoredTx>, StoreError>
  {
    if keys == [] then Ok([])
    else
      var id := IdAt(keys[0]);
      if id.None? || id.value !in history then Err(TransactionNotFound)
      else
        var others :- Walk(history, keys[1..], token, addresses);
        Ok((if Concerns(history[id.value], token, addresses) then [history[id.value]] else []) + others)
  }

  function Reversed(s: seq<string>): (r: seq<string>)
    ensures |r| == |s| && forall i :: 0 <= i < |s| ==> r[i] == s[|s| - 1 - i]
  {
    seq(|s|, i requires 0 <= i < |s| => s[|s| - 1 - i])
  }

  lemma ReversedPermutes(s: seq<string>)
    ensures multiset(Reversed(s)) == multiset(s)
  {
    var r := Reversed(s);
    forall x ensures multiset(r)[x] == multiset(s)[x] {
      ReversedCounts(s, x);
    }
  }

  lemma {:induction false} ReversedCounts(s: seq<string>, x: string)
    ensures multiset(Reversed(s))[x] == multiset(s)[x]
  {
    if s != [] {
      ReversedCounts(s[1..], x);
      assert s == [s[0]] + s[1..];
      assert Reversed(s) == Reversed(s[1..]) + [s[0]];
    }
  }

  /** Key by key, the transaction the key names. */
  ghost predicate Named(history: map<TxId, StoredTx>, keys: seq<string>, r: seq<StoredTx>) {
    |r| == |keys| && forall k :: 0 <= k < |keys| ==> IdAt(keys[k]).Some? && IdAt(keys[k]).value in history && r[k] == history[IdAt(keys[k]).value]
  }

  /** Iterating over all tokens yields, key by key, the transaction the key names. */
  lemma {:induction false} WalkIsPointwise(history: map<TxId, StoredTx>, keys: seq<string>, addresses: set<string>)
    requires forall key :: key in keys ==> IdAt(key).Some? && IdAt(key).value in history
    ensures Walk(history, keys, None, addresses).Ok? && Named(history, keys, Walk(history, keys, None, addresses).value)
  {
    if keys != [] {
      assert keys[0] in keys && forall key :: key in keys[1..] ==> key in keys;
      WalkIsPointwise(history, keys[1..], addresses);
      var others := Walk(history, keys[1..], None, addresses).value;
      assert Walk(history, keys, None, addresses).value == [history[IdAt(keys[0]).value]] + others;
      NamedFirst(history, keys, others);
    }
  }

  lemma NamedFirst(history: map<TxId, StoredTx>, keys: seq<string>, others: seq<StoredTx>)
    requires keys != [] && Named(history, keys[1..], others) && IdAt(keys[0]).Some? && IdAt(keys[0]).value in history
    ensures Named(history, keys, [history[IdAt(keys[0]).value]] + others)
  {
    assert keys == [keys[0]] + keys[1..];
  }

  /** Timestamp first, id second. */
  predicate Earlier(a: StoredTx, b: StoredTx) {
    a.timestamp < b.timestamp || (a.timestamp == b.timestamp && Less(a.id.hex, b.id.hex))
  }

  /** After sorting, ascending iteration yields every transaction exactly once, strictly by timestamp
      and then by id. */
  lemma AscendingIsChronological(history: map<TxId, StoredTx>, keys: seq<string>, addresses: set<string>)
    requires InStep(history, keys) && Current(history, keys) && Sorted(keys)
    ensures Walk(history, keys, None, addresses).Ok?
    ensures var r := Walk(history, keys, None, addresses).value;
      && (forall i, j :: 0 <= i < j < |r| ==> Earlier(r[i], r[j]))
      && (forall tx :: tx in r ==> tx.id in history && history[tx.id] == tx)
      && (forall id :: id in history ==> history[id] in r)
  {
    WalkIsPointwise(history, keys, addresses);
    var r := Walk(history, keys, None, addresses).value;
    forall i, j | 0 <= i < j < |r| ensures Earlier(r[i], r[j]) {
      KeysInOrder(history, keys, i, j);
    }
    forall id | id in history ensures history[id] in r {
      EachIsYielded(history, keys, r, id);
    }
    forall tx | tx in r ensures tx.id in history && history[tx.id] == tx {
      YieldedIsStored(history, keys, r, tx);
    }
  }

  lemma YieldedIsStored(history: map<TxId, StoredTx>, keys: seq<string>, r: seq<StoredTx>, tx: StoredTx)
    requires InStep(history, keys) && tx in r && Named(history, keys, r)
    ensures tx.id in history && history[tx.id] == tx
  {
    var k :| 0 <= k < |r| && r[k] == tx;
    assert IdAt(keys[k]).value in history;
  }

  lemma EachIsYielded(history: map<TxId, StoredTx>, keys: seq<string>, r: seq<StoredTx>, id: TxId)
    requires InStep(history, keys) && id in history && Named(history, keys, r)
    ensures history[id] in r
  {
    assert Some(id) in Map(keys, IdAtKey());
    var k :| 0 <= k < |keys| && Map(keys, IdAtKey())[k] == Some(id);
    assert r[k] == history[id];
  }

  lemma KeysInOrder(history: map<TxId, StoredTx>, keys: seq<string>, i: nat, j: nat)
    requires InStep(history, keys) && Current(history, keys) && Sorted(keys) && i < j < |keys|
    ensures IdAt(keys[i]).Some? && IdAt(keys[i]).value in history && IdAt(keys[j]).Some? && IdAt(keys[j]).value in history
    ensures Earlier(history[IdAt(keys[i]).value], history[IdAt(keys[j]).value])
  {
    assert keys[i] in keys && keys[j] in keys;
    var a, b := history[IdAt(keys[i]).value], history[IdAt(keys[j]).value];
    assert Map(keys, IdAtKey())[i] != Map(keys, IdAtKey())[j];
    KeyOrder(a.timestamp, a.id.hex, b.timestamp, b.id.hex);
    KeyOrder(b.timestamp, b.id.hex, a.timestamp, a.id.hex);
    LessIsTotal(keys[i], keys[j]);
    LessIsTotal(a.id.hex, b.id.hex);
  }

  // ----- iteration over one token -----

  /** An input, output or decoded shielded output of the token at one of the addresses. */
  ghost predicate Moves(tx: StoredTx, token: string, addresses: set<string>) {
    exists a :: a in addresses && a != "" &&
      (Io(Some(a), token) in tx.inputs || Io(Some(a), token) in tx.outputs
       || exists o :: o in tx.shielded && o.value.Some? && o.address == Some(a) && o.token == Some(token))
  }

  /** Without a token every transaction is asked for. */
  ghost function Wanted(token: Option<string>, addresses: set<string>): StoredTx -> bool {
    (tx: StoredTx) => token == None || Moves(tx, token.value, addresses)
  }

  lemma ConcernsMeans(tx: StoredTx, token: Option<string>, addresses: set<string>)
    ensures Concerns(tx, token, addresses) <==> Wanted(token, addresses)(tx)
  {
    if token.Some? {
      if Concerns(tx, token, addresses) {
        ConcernsMoves(tx, token.value, addresses);
      }
      if Moves(tx, token.value, addresses) {
        MovesConcerns(tx, token.value, addresses);
      }
    }
  }

  lemma ConcernsMoves(tx: StoredTx, token: string, addresses: set<string>)
    requires Concerns(tx, Some(token), addresses)
    ensures Moves(tx, token, addresses)
  {
    if i :| 0 <= i < |tx.inputs| && AtOneOf(addresses, tx.inputs[i].address) && tx.inputs[i].token == token {
      assert Io(tx.inputs[i].address, token) in tx.inputs && tx.inputs[i].address.value in addresses;
    } else if i :| 0 <= i < |tx.outputs| && AtOneOf(addresses, tx.outputs[i].address) && tx.outputs[i].token == token {
      assert Io(tx.outputs[i].address, token) in tx.outputs && tx.outputs[i].address.value in addresses;
    } else {
      var i :| 0 <= i < |tx.shielded| && tx.shielded[i].value.Some? && AtOneOf(addresses, tx.shielded[i].address)
               && tx.shielded[i].token == Some(token);
      assert tx.shielded[i] in tx.shielded && tx.shielded[i].address.value in addresses;
    }
  }

  lemma MovesConcerns(tx: StoredTx, token: string, addresses: set<string>)
    requires Moves(tx, token, addresses)
    ensures Concerns(tx, Some(token), addresses)
  {
    var a :| a in addresses && a != "" &&
      (Io(Some(a), token) in tx.inputs || Io(Some(a), token) in tx.outputs
       || exists o :: o in tx.shielded && o.value.Some? && o.address == Some(a) && o.token == Some(token));
    if i :| 0 <= i < |tx.inputs| && tx.inputs[i] == Io(Some(a), token) {
      assert AtOneOf(addresses, tx.inputs[i].address);
    } else if i :| 0 <= i < |tx.outputs| && tx.outputs[i] == Io(Some(a), token) {
      assert AtOneOf(addresses, tx.outputs[i].address);
    } else {
      var o :| o in tx.shielded && o.value.Some? && o.address == Some(a) && o.token == Some(token);
      var i :| 0 <= i < |tx.shielded| && tx.shielded[i] == o;
      assert AtOneOf(addresses, tx.shielded[i].address);
    }
  }

  lemma {:induction false} WalkFiltersBy(history: map<TxId, StoredTx>, keys: seq<string>, all: seq<StoredTx>,
                                         token: Option<string>, addresses: set<string>, p: StoredTx -> bool)
    requires Named(history, keys, all) && forall tx :: p(tx) <==> Concerns(tx, token, addresses)
    ensures Walk(history, keys, token, addresses) == Ok(Filter(all, p))
  {
    if keys != [] {
      assert IdAt(keys[0]).Some? && IdAt(keys[0]).value in history && history[IdAt(keys[0]).value] == all[0];
      WalkFiltersBy(history, keys[1..], all[1..], token, addresses, p);
      assert [] + Filter(all[1..], p) == Filter(all[1..], p);
    }
  }

  /** Iteration yields those asked for among the transactions the keys name, in their order. */
  lemma WalkFilters(history: map<TxId, StoredTx>, keys: seq<string>, all: seq<StoredTx>, token: Option<string>, addresses: set<string>)
    requires Named(history, keys, all)
    ensures Walk(history, keys, token, addresses) == Ok(Filter(all, Wanted(token, addresses)))
  {
    forall tx ensures Wanted(token, addresses)(tx) <==> Concerns(tx, token, addresses) {
      ConcernsMeans(tx, token, addresses);
    }
    WalkFiltersBy(history, keys, all, token, addresses, Wanted(token, addresses));
  }

  /** A filter keeps the order. */
  lemma {:induction false} FilterKeepsOrder(s: seq<StoredTx>, p: StoredTx -> bool, ascending: bool)
    requires InTime(s, ascending)
    ensures InTime(Filter(s, p), ascending)
  {
    if s != [] {
      assert forall i :: 0 <= i < |s[1..]| ==> s[1..][i] == s[i+1];
      FilterKeepsOrder(s[1..], p, ascending);
      if p(s[0]) {
        FirstInTime(s, Filter(s[1..], p), ascending);
      }
    }
  }

  lemma FirstInTime(s: seq<StoredTx>, rest: seq<StoredTx>, ascending: bool)
    requires s != [] && InTime(s, ascending) && InTime(rest, ascending) && forall tx :: tx in rest ==> tx in s[1..]
    ensures InTime([s[0]] + rest, ascending)
  {
    forall j | 0 <= j < |rest| ensures InOrder(s[0], rest[j], ascending) {
      assert rest[j] in s[1..];
      var k :| 0 <= k < |s[1..]| && s[1..][k] == rest[j];
      assert s[k+1] == rest[j];
    }
  }

  /** Strictly by timestamp and then by id, up or down. */
  ghost predicate InTime(r: seq<StoredTx>, ascending: bool) {
    forall i, j :: 0 <= i < j < |r| ==> InOrder(r[i], r[j], ascending)
  }

  predicate InOrder(a: StoredTx, b: StoredTx, ascending: bool) { if ascending then Earlier(a, b) else Earlier(b, a) }

  function Directed(keys: seq<string>, ascending: bool): seq<string> { if ascending then keys else Reversed(keys) }

  lemma DirectedInStep(history: map<TxId, StoredTx>, keys: seq<string>, ascending: bool)
    requires InStep(history, keys)
    ensures InStep(history, Directed(keys, ascending))
  {
    if !ascending {
      ReversedPermutes(keys);
      PermutedInStep(history, keys, Reversed(keys));
    }
  }

  /** The key at place `k` names the transaction. */
  predicate NamedAt(history: map<TxId, StoredTx>, keys: seq<string>, k: int, tx: StoredTx) {
    0 <= k < |keys| && IdAt(keys[k]).Some? && IdAt(keys[k]).value in history && tx == history[IdAt(keys[k]).value]
  }

  function Place(n: nat, ascending: bool, i: int): int { if ascending then i else n - 1 - i }

  lemma DirectedNames(history: map<TxId, StoredTx>, keys: seq<string>, all: seq<StoredTx>, ascending: bool, i: nat)
    requires Named(history, Directed(keys, ascending), all) && i < |all|
    ensures |all| == |keys| && NamedAt(history, keys, Place(|keys|, ascending, i), all[i])
  {
    assert Directed(keys, ascending)[i] == keys[Place(|keys|, ascending, i)];
  }

  lemma NamedInOrder(history: map<TxId, StoredTx>, keys: seq<string>, i: int, j: int, a: StoredTx, b: StoredTx)
    requires InStep(history, keys) && Current(history, keys) && Sorted(keys) && i < j
    requires NamedAt(history, keys, i, a) && NamedAt(history, keys, j, b)
    ensures Earlier(a, b)
  {
    KeysInOrder(history, keys, i, j);
  }

  lemma DirectedInTime(history: map<TxId, StoredTx>, keys: seq<string>, all: seq<StoredTx>, ascending: bool)
    requires InStep(history, keys) && Current(history, keys) && Sorted(keys) && Named(history, Directed(keys, ascending), all)
    ensures InTime(all, ascending)
  {
    forall i, j | 0 <= i < j < |all| ensures InOrder(all[i], all[j], ascending) {
      DirectedNames(history, keys, all, ascending, i);
      DirectedNames(history, keys, all, ascending, j);
      PlacesInOrder(history, keys, ascending, i, j, all[i], all[j]);
    }
  }

  lemma PlacesInOrder(history: map<TxId, StoredTx>, keys: seq<string>, ascending: bool, i: nat, j: nat, a: StoredTx, b: StoredTx)
    requires InStep(history, keys) && Current(history, keys) && Sorted(keys) && i < j
    requires NamedAt(history, keys, Place(|keys|, ascending, i), a) && NamedAt(history, keys, Place(|keys|, ascending, j), b)
    ensures InOrder(a, b, ascending)
  {
    if ascending {
      NamedInOrder(history, keys, i, j, a, b);
    } else {
      NamedInOrder(history, keys, |keys| - 1 - j, |keys| - 1 - i, b, a);
    }
  }

  /** The keys name the whole history. */
  lemma AllIsHistory(history: map<TxId, StoredTx>, keys: seq<string>, all: seq<StoredTx>)
    requires InStep(history, keys) && Named(history, keys, all)
    ensures forall tx :: tx in all <==> tx.id in history && history[tx.id] == tx
  {
    forall tx: StoredTx | tx.id in history && history[tx.id] == tx ensures tx in all {
      EachIsYielded(history, keys, all, tx.id);
    }
    forall tx | tx in all ensures tx.id in history && history[tx.id] == tx {
      YieldedIsStored(history, keys, all, tx);
    }
  }

  /** Iteration over a token yields exactly the stored transactions in which one of the addresses has an
      input, an output or a decoded shielded output of it; over current sorted keys, in time. */
  lemma TokenIteration(history: map<TxId, StoredTx>, keys: seq<string>, ascending: bool, token: Option<string>, addresses: set<string>)
    requires InStep(history, keys)
    ensures Walk(history, Directed(keys, ascending), token, addresses).Ok?
    ensures var r := Walk(history, Directed(keys, ascending), token, addresses).value;
      && (forall tx :: tx in r <==> tx.id in history && history[tx.id] == tx && Wanted(token, addresses)(tx))
      && (Current(history, keys) && Sorted(keys) ==> InTime(r, ascending))
  {
    var way := Directed(keys, ascending);
    DirectedInStep(history, keys, ascending);
    WalkIsPointwise(history, way, addresses);
    var all := Walk(history, way, None, addresses).value;
    WalkFilters(history, way, all, token, addresses);
    AllIsHistory(history, way, all);
    if Current(history, keys) && Sorted(keys) {
      DirectedInTime(history, keys, all, ascending);
      FilterKeepsOrder(all, Wanted(token, addresses), ascending);
    }
  }

  class MemoryStore {
    var history: map<TxId, StoredTx>
    var historyTs: seq<string>
    var addresses: set<string>

    constructor (addresses: set<string>)
      ensures Valid() && IsCurrent() && history == map[] && historyTs == [] && this.addresses == addresses
    {
      history, historyTs, this.addresses := map[], [], addresses;
    }

    ghost predicate Valid()
      reads this
    {
      InStep(history, historyTs)
    }

    ghost predicate IsCurrent()
      reads this
    {
      Current(history, historyTs)
    }

    /** `saveTx`, the address cursors aside. The key is only made for an unknown id, so saving a known
        one under another timestamp leaves a key that sorts by the old one. */
    method SaveTx(tx: StoredTx) returns (r: Result<(), StoreError>)
      modifies `history, `historyTs
      ensures r.Err? <==> tx.id !in old(history) && !(0 <= tx.timestamp <= MAX_TIMESTAMP)
      ensures r.Err? ==> history == old(history) && historyTs == old(historyTs)
      ensures r.Ok? ==> history == old(history)[tx.id := tx]
      ensures r.Ok? ==> historyTs == old(historyTs) + if tx.id in old(history) then [] else [KeyOf(tx.timestamp, tx.id.hex)]
      ensures old(Valid()) && ':' !in tx.id.hex ==> Valid()
      ensures r.Ok? && old(Valid() && IsCurrent()) && ':' !in tx.id.hex ==>
        (IsCurrent() <==> tx.id !in old(history) || old(history)[tx.id].timestamp == tx.timestamp)
    {
      if tx.id !in history {
        var key := OrderingKey(tx.timestamp, tx.id.hex);
        if key.None? {
          return Err(TimestampOutOfRange);
        }
        if InStep(history, historyTs) && ':' !in tx.id.hex {
          NewTxInStep(history, historyTs, tx);
        }
        historyTs := historyTs + [key.value];
      } else {
        if InStep(history, historyTs) {
          SameTxInStep(history, historyTs, tx);
          SameTxCurrent(history, historyTs, tx);
        }
        assert historyTs + [] == historyTs;
      }
      history := history[tx.id := tx];
      r := Ok(());
    }

    /** `preProcessHistory` */
    method PreProcessHistory()
      modifies `historyTs
      ensures Sorted(historyTs) && multiset(historyTs) == multiset(old(historyTs))
      ensures old(Valid()) ==> Valid() && (old(IsCurrent()) ==> IsCurrent())
    {
      SortedInStep(history, historyTs);
      historyTs := SortKeys(historyTs);
    }

    /** The history part of `cleanStorage`. */
    method CleanStorage(cleanHistory: bool, cleanAddresses: bool)
      modifies this
      ensures cleanHistory ==> history == map[] && historyTs == []
      ensures !cleanHistory ==> history == old(history) && historyTs == old(historyTs)
      ensures addresses == if cleanAddresses then {} else old(addresses)
      ensures cleanHistory || old(Valid()) ==> Valid()
      ensures cleanHistory || old(IsCurrent()) ==> IsCurrent()
    {
      if cleanHistory {
        history, historyTs := map[], [];
      }
      if cleanAddresses {
        addresses := {};
      }
    }

    /** `historyIter`, everything it yields to a consumer that does not stop. */
    method HistoryIter(tokenUid: Option<string>, ascending: bool) returns (r: Result<seq<StoredTx>, StoreError>)
      ensures r == Walk(history, Directed(historyTs, ascending), tokenUid, addresses)
      ensures Valid() ==> r.Ok?
      ensures Valid() ==>
        forall tx :: tx in r.value <==> tx.id in history && history[tx.id] == tx && Wanted(tokenUid, addresses)(tx)
      ensures Valid() && IsCurrent() && Sorted(historyTs) ==> InTime(r.value, ascending)
    {
      if InStep(history, historyTs) {
        TokenIteration(history, historyTs, ascending, tokenUid, addresses);
      }
      r := IterateKeys(history, historyTs, ascending, tokenUid, addresses);
    }
  }

  function Bare(id: TxId, timestamp: int): StoredTx { StoredTx(id, timestamp, [], [], []) }

  lemma SortedPair(keys: seq<string>, a: string, b: string)
    requires Sorted(keys) && multiset(keys) == multiset{a, b} && Less(a, b)
    ensures keys == [a, b]
  {
    assert |keys| == |multiset(keys)| == 2;
    assert keys == [keys[0], keys[1]];
    LessIsTotal(a, b);
    assert !Less(keys[1], keys[0]);
  }

  /** Two transactions, the first of which is saved again with a later timestamp: even after sorting,
      ascending iteration yields the later one first. */
  method StaleOrder(x: TxId, y: TxId, t1: int, t2: int, t3: int) returns (r: Result<seq<StoredTx>, StoreError>)
    requires x != y && ':' !in x.hex && ':' !in y.hex && 0 <= t1 < t2 < t3 <= MAX_TIMESTAMP
    ensures r == Ok([Bare(x, t3), Bare(y, t2)])
  {
    var store := new MemoryStore({});
    SaveThree(store, x, y, t1, t2, t3);
    store.PreProcessHistory();
    KeyOrder(t1, x.hex, t2, y.hex);
    SortedPair(store.historyTs, KeyOf(t1, x.hex), KeyOf(t2, y.hex));
    StaleWalk(store.history, store.historyTs, x, y, t1, t2, t3);
    r := store.HistoryIter(None, true);
  }

  method SaveThree(store: MemoryStore, x: TxId, y: TxId, t1: int, t2: int, t3: int)
    requires x != y && 0 <= t1 < t2 < t3 <= MAX_TIMESTAMP && store.history == map[] && store.historyTs == []
    modifies store`history, store`historyTs
    ensures store.history == map[x := Bare(x, t3), y := Bare(y, t2)]
    ensures store.historyTs == [KeyOf(t1, x.hex), KeyOf(t2, y.hex)]
  {
    var _ := store.SaveTx(Bare(x, t1));
    var _ := store.SaveTx(Bare(y, t2));
    var _ := store.SaveTx(Bare(x, t3));
  }

  lemma StaleWalk(history: map<TxId, StoredTx>, keys: seq<string>, x: TxId, y: TxId, t1: int, t2: int, t3: int)
    requires x != y && ':' !in x.hex && ':' !in y.hex && 0 <= t1 < t2 < t3 <= MAX_TIMESTAMP
    requires keys == [KeyOf(t1, x.hex), KeyOf(t2, y.hex)]
    requires x in history && history[x] == Bare(x, t3) && y in history && history[y] == Bare(y, t2)
    ensures Walk(history, keys, None, {}) == Ok([Bare(x, t3), Bare(y, t2)])
  {
    KeyDecodes(t1, x.hex);
    KeyDecodes(t2, y.hex);
    assert IdAt(keys[0]) == Some(x) && IdAt(keys[1]) == Some(y);
    WalkIsPointwise(history, keys, {});
    var r := Walk(history, keys, None, {}).value;
    assert r == [r[0], r[1]];
  }

  /** The loop of `historyIter`, from either end of the keys. */
  method IterateKeys(history: map<TxId, StoredTx>, historyTs: seq<string>, ascending: bool, tokenUid: Option<string>, addresses: set<string>)
    returns (r: Result<seq<StoredTx>, StoreError>)
    ensures r == Walk(history, Directed(historyTs, ascending), tokenUid, addresses)
  {
    ghost var keys := Directed(historyTs, ascending);
    var len := |historyTs|;
    var yielded: seq<StoredTx> := [];
    ghost var whole := Remaining(history, keys, 0, tokenUid, addresses, yielded);
    AllRemaining(history, keys, tokenUid, addresses);
    for n := 0 to len
      invariant Remaining(history, keys, n, tokenUid, addresses, yielded) == whole
    {
      var i := if ascending then n else len - 1 - n;
      var id := IdAt(historyTs[i]);
      KeyInDirection(historyTs, ascending, n, i);
      if id.None? || id.value !in history {
        NoneRemain(history, keys, n, tokenUid, addresses, yielded);
        return Err(TransactionNotFound);
      }
      var tx := history[id.value];
      if Concerns(tx, tokenUid, addresses) {
        yielded := yielded + [tx];
      }
    }
    r := Ok(yielded);
  }

  lemma KeyInDirection(historyTs: seq<string>, ascending: bool, n: nat, i: nat)
    requires n < |historyTs| && i == if ascending then n else |historyTs| - 1 - n
    ensures Directed(historyTs, ascending)[n] == historyTs[i]
  {
  }

  lemma NoneRemain(history: map<TxId, StoredTx>, keys: seq<string>, n: nat, token: Option<string>, addresses: set<string>,
                   yielded: seq<StoredTx>)
    requires n < |keys| && (IdAt(keys[n]).None? || IdAt(keys[n]).value !in history)
    ensures Remaining(history, keys, n, token, addresses, yielded) == Err(TransactionNotFound)
  {
  }

  /** What the loop yields in all once `n` keys are done. */
  function Remaining(history: map<TxId, StoredTx>, keys: seq<string>, n: nat, token: Option<string>, addresses: set<string>,
                     yielded: seq<StoredTx>): Result<seq<StoredTx>, StoreError>
    requires n <= |keys|
    decreases |keys| - n
  {
    if n == |keys| then Ok(yielded)
    else
      var id := IdAt(keys[n]);
      if id.None? || id.value !in history then Err(TransactionNotFound)
      else
        var tx := history[id.value];
        Remaining(history, keys, n + 1, token, addresses, if Concerns(tx, token, addresses) then yielded + [tx] else yielded)
  }

  lemma {:induction false} RemainingIsWalk(history: map<TxId, StoredTx>, keys: seq<string>, n: nat, token: Option<string>,
                                           addresses: set<string>, yielded: seq<StoredTx>)
    requires n <= |keys|
    ensures Remaining(history, keys, n, token, addresses, yielded) == Then(yielded, Walk(history, keys[n..], token, addresses))
    decreases |keys| - n
  {
    if n == |keys| {
      assert keys[n..] == [] && yielded + [] == yielded;
    } else {
      WalkStep(history, keys, n, token, addresses);
      var id := IdAt(keys[n]);
      if id.Some? && id.value in history {
        var tx := history[id.value];
        var more := if Concerns(tx, token, addresses) then [tx] else [];
        ThenStep(yielded, more, Walk(history, keys[n+1..], token, addresses));
        RemainingIsWalk(history, keys, n + 1, token, addresses, yielded + more);
      }
    }
  }

  lemma AllRemaining(history: map<TxId, StoredTx>, keys: seq<string>, token: Option<string>, addresses: set<string>)
    ensures Remaining(history, keys, 0, token, addresses, []) == Walk(history, keys, token, addresses)
  {
    RemainingIsWalk(history, keys, 0, token, addresses, []);
    assert keys[0..] == keys;
    Joined([], Walk(history, keys, token, addresses));
  }

  function Then(xs: seq<StoredTx>, r: Result<seq<StoredTx>, StoreError>): Result<seq<StoredTx>, StoreError> {
    match r
    case Ok(ys) => Ok(xs + ys)
    case Err(e) => Err(e)
  }

  lemma WalkStep(history: map<TxId, StoredTx>, keys: seq<string>, n: nat, token: Option<string>, addresses: set<string>)
    requires n < |keys|
    ensures var id := IdAt(keys[n]);
      Walk(history, keys[n..], token, addresses)
      == if id.None? || id.value !in history then Err(TransactionNotFound)
         else Then(if Concerns(history[id.value], token, addresses) then [history[id.value]] else [],
                   Walk(history, keys[n+1..], token, addresses))
  {
    assert keys[n..][0] == keys[n] && keys[n..][1..] == keys[n+1..];
  }

  lemma Joined(xs: seq<StoredTx>, r: Result<seq<StoredTx>, StoreError>)
    requires xs == []
    ensures Then(xs, r) == r
  {
    if r.Ok? {
      assert xs + r.value == r.value;
    }
  }

  lemma ThenStep(xs: seq<StoredTx>, ys: seq<StoredTx>, r: Result<seq<StoredTx>, StoreError>)
    ensures Then(xs, Then(ys, r)) == Then(xs + ys, r)
    ensures ys == [] ==> xs + ys == xs
  {
    if r.Ok? {
      assert xs + (ys + r.value) == (xs + ys) + r.value;
    }
  }
}
