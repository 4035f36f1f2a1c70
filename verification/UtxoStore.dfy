/** Utxo filtering: `selectUtxos` of src/storage/memory_store.ts and the wrapper in
    src/storage/storage.ts that leaves out utxos already marked as inputs. Both are generators;
    the model returns everything they would yield to a consumer that never stops early. */
module UtxoStore {
  import opened Wrappers
  import opened SeqSums
  import opened WalletTypes

  datatype Order = Unordered | Ascending | Descending

  /** An option of the source that is absent, zero or undefined is 0 or None here: the source
      tests all of them for truthiness. */
  datatype FilterOptions = FilterOptions(
    token: Uid,
    authorities: nat,
    maxUtxos: int,
    filterAddress: Option<string>,
    targetAmount: int,
    maxAmount: int,
    amountSmallerThan: int,
    amountBiggerThan: int,
    onlyAvailable: bool,
    filterMethod: Utxo -> bool,
    rewardLock: nat,
    order: Order,
    shielded: Option<bool>)

  datatype StoreError = InvalidOptions

  /** What the store consults besides the utxo map: the clock, the height of the best block and
      the spend address paired with each user-facing shielded address. */
  datatype Store = Store(utxos: seq<Utxo>, now: nat, height: nat, spendAddressOf: map<string, string>)

  function AnyUtxo(): Utxo -> bool { (u: Utxo) => true }

  function DefaultOptions(token: Uid): FilterOptions {
    FilterOptions(token, 0, 0, None, 0, 0, 0, 0, false, AnyUtxo(), 0, Unordered, None)
  }

  function BitAnd(a: nat, b: nat): nat {
    if a == 0 || b == 0 then 0 else (a % 2) * (b % 2) + 2 * BitAnd(a / 2, b / 2)
  }

  predicate HasMint(authorities: nat) { authorities % 2 == 1 }

  predicate HasMelt(authorities: nat) { (authorities / 2) % 2 == 1 }

  lemma AuthorityBits(a: nat)
    ensures BitAnd(a, 1) > 0 <==> HasMint(a)
    ensures BitAnd(a, 2) > 0 <==> HasMelt(a)
  {
    assert BitAnd(a / 2, 0) == 0;
    assert a > 0 ==> BitAnd(a, 2) == 2 * BitAnd(a / 2, 1);
    assert BitAnd(a / 2 / 2, 0) == 0;
  }

  predicate IsBlock(version: nat) { version == 0 || version == 3 || version == 5 }

  predicate HeightLocked(blockHeight: Option<nat>, currentHeight: nat, rewardLock: nat) {
    blockHeight.Some? && blockHeight.value != 0 && currentHeight != 0 && rewardLock != 0
    && currentHeight < blockHeight.value + rewardLock
  }

  predicate Locked(u: Utxo, store: Store, o: FilterOptions) {
    || (u.timelock.Some? && u.timelock.value != 0 && store.now < u.timelock.value)
    || (IsBlock(u.version) && HeightLocked(u.height, store.height, o.rewardLock))
  }

  function EffectiveAddress(store: Store, address: Option<string>): Option<string> {
    if address.Some? && address.value != "" then
      if address.value in store.spendAddressOf then Some(store.spendAddressOf[address.value]) else address
    else None
  }

  predicate Matches(u: Utxo, store: Store, o: FilterOptions) {
    && !(o.onlyAvailable && Locked(u, store, o))
    && o.filterMethod(u)
    && (o.amountBiggerThan != 0 ==> u.value > o.amountBiggerThan)
    && (o.amountSmallerThan != 0 ==> u.value < o.amountSmallerThan)
    && (EffectiveAddress(store, o.filterAddress).Some? ==> u.address == EffectiveAddress(store, o.filterAddress).value)
    && (o.shielded.Some? ==> u.shielded == o.shielded.value)
    && (if o.authorities == 0 then u.authorities == 0 else BitAnd(u.authorities, o.authorities) > 0)
    && u.token == o.token
  }

  function MatchesIn(store: Store, o: FilterOptions): Utxo -> bool { (u: Utxo) => Matches(u, store, o) }

  /** Locked utxos do not count towards a target or a maximum. */
  function UnlockedValue(store: Store, o: FilterOptions): Utxo -> int {
    (u: Utxo) => if Locked(u, store, o) then 0 else u.value
  }

  // ----- ordering -----

  predicate Before(a: Utxo, b: Utxo, ascending: bool) {
    if ascending then a.value <= b.value else a.value >= b.value
  }

  function InsertByValue(u: Utxo, s: seq<Utxo>, ascending: bool): seq<Utxo> {
    if s == [] then [u]
    else if Before(u, s[0], ascending) then [u] + s
    else [s[0]] + InsertByValue(u, s[1..], ascending)
  }

  /** lodash's `orderBy`, a stable sort. */
  function OrderByValue(s: seq<Utxo>, ascending: bool): seq<Utxo> {
    if s == [] then [] else InsertByValue(s[0], OrderByValue(s[1..], ascending), ascending)
  }

  function Ordered(s: seq<Utxo>, order: Order): seq<Utxo> {
    match order
    case Unordered => s
    case Ascending => OrderByValue(s, true)
    case Descending => OrderByValue(s, false)
  }

  ghost predicate SortedByValue(s: seq<Utxo>, ascending: bool) {
    forall i, j :: 0 <= i < j < |s| ==> Before(s[i], s[j], ascending)
  }

  lemma {:induction false} InsertPermutes(u: Utxo, s: seq<Utxo>, ascending: bool)
    ensures multiset(InsertByValue(u, s, ascending)) == multiset(s) + multiset{u}
  {
    if s != [] {
      assert s == [s[0]] + s[1..];
      InsertPermutes(u, s[1..], ascending);
    }
  }

  lemma {:induction false} InsertSorts(u: Utxo, s: seq<Utxo>, ascending: bool)
    requires SortedByValue(s, ascending)
    ensures SortedByValue(InsertByValue(u, s, ascending), ascending)
  {
    if s == [] {
    } else if Before(u, s[0], ascending) {
      FirstSorts(u, s, ascending);
    } else {
      var r := InsertByValue(u, s[1..], ascending);
      InsertSorts(u, s[1..], ascending);
      InsertPermutes(u, s[1..], ascending);
      forall j | 0 <= j < |r| ensures Before(s[0], r[j], ascending) {
        assert r[j] in multiset(r);
      }
      FirstSorts(s[0], r, ascending);
    }
  }

  lemma FirstSorts(u: Utxo, s: seq<Utxo>, ascending: bool)
    requires SortedByValue(s, ascending) && (s != [] ==> Before(u, s[0], ascending) || forall j :: 0 <= j < |s| ==> Before(u, s[j], ascending))
    ensures SortedByValue([u] + s, ascending)
  {
    var r := [u] + s;
    forall i, j | 0 <= i < j < |r| ensures Before(r[i], r[j], ascending) {
      if i == 0 {
        assert r[j] == s[j - 1];
      } else {
        assert r[i] == s[i - 1] && r[j] == s[j - 1];
      }
    }
  }

  /** Ordering permutes the utxos and sorts them by value. */
  lemma {:induction false} OrderingSorts(s: seq<Utxo>, ascending: bool)
    ensures SortedByValue(OrderByValue(s, ascending), ascending)
    ensures multiset(OrderByValue(s, ascending)) == multiset(s)
  {
    if s != [] {
      OrderingSorts(s[1..], ascending);
      InsertSorts(s[0], OrderByValue(s[1..], ascending), ascending);
      InsertPermutes(s[0], OrderByValue(s[1..], ascending), ascending);
      assert s == [s[0]] + s[1..];
    }
  }

  lemma OrderedPermutes(s: seq<Utxo>, order: Order)
    ensures multiset(Ordered(s, order)) == multiset(s)
  {
    OrderingSorts(s, true);
    OrderingSorts(s, false);
  }

  // ----- selection -----

  predicate Stops(o: FilterOptions, sum: int, num: nat) {
    (o.targetAmount != 0 && sum >= o.targetAmount) || (o.maxUtxos != 0 && num >= o.maxUtxos)
  }

  predicate Overshoots(o: FilterOptions, sum: int, u: Utxo) {
    o.maxAmount != 0 && sum + u.value > o.maxAmount
  }

  /** What the generator yields from `iter` once it has yielded `num` utxos worth `sum`. */
  function SelectFrom(iter: seq<Utxo>, store: Store, o: FilterOptions, sum: int, num: nat): seq<Utxo> {
    if iter == [] then []
    else if !Matches(iter[0], store, o) || Overshoots(o, sum, iter[0]) then SelectFrom(iter[1..], store, o, sum, num)
    else
      var sum' := sum + UnlockedValue(store, o)(iter[0]);
      [iter[0]] + if Stops(o, sum', num + 1) then [] else SelectFrom(iter[1..], store, o, sum', num + 1)
  }

  /** `MemoryStore.selectUtxos` */
  method SelectUtxos(store: Store, o: FilterOptions) returns (r: Result<seq<Utxo>, StoreError>)
    ensures r.Err? <==> o.maxAmount != 0 && o.targetAmount != 0
    ensures r.Ok? ==> r.value == SelectFrom(Ordered(store.utxos, o.order), store, o, 0, 0)
  {
    if o.maxAmount != 0 && o.targetAmount != 0 {
      return Err(InvalidOptions);
    }
    var iter := Ordered(store.utxos, o.order);
    var picked: seq<Utxo> := [];
    var sum: int, num: nat := 0, 0;
    ghost var all := SelectFrom(iter, store, o, 0, 0);
    for k := 0 to |iter|
      invariant picked + SelectFrom(iter[k..], store, o, sum, num) == all
    {
      assert iter[k..][0] == iter[k] && iter[k..][1..] == iter[k+1..];
      var u := iter[k];
      if Matches(u, store, o) && !Overshoots(o, sum, u) {
        ghost var sum' := sum + UnlockedValue(store, o)(u);
        ghost var tail := if Stops(o, sum', num + 1) then [] else SelectFrom(iter[k+1..], store, o, sum', num + 1);
        assert SelectFrom(iter[k..], store, o, sum, num) == [u] + tail;
        PushAssociates(picked, u, tail);
        picked := picked + [u];
        num := num + 1;
        if !Locked(u, store, o) {
          sum := sum + u.value;
        }
        if Stops(o, sum, num) {
          return Ok(picked);
        }
      }
    }
    assert iter[|iter|..] == [];
    r := Ok(picked);
  }

  lemma PushAssociates<T>(a: seq<T>, x: T, b: seq<T>)
    ensures a + ([x] + b) == (a + [x]) + b
    ensures b == [] ==> (a + [x]) + b == a + [x]
  {
  }

  /** `a` keeps some elements of `b`, in order. */
  ghost predicate IsSubsequence<T(!new)>(a: seq<T>, b: seq<T>) {
    a == [] || (b != [] && ((a[0] == b[0] && IsSubsequence(a[1..], b[1..])) || IsSubsequence(a, b[1..])))
  }

  lemma {:induction false} SubsequenceCounts<T(!new)>(a: seq<T>, b: seq<T>)
    requires IsSubsequence(a, b)
    ensures multiset(a) <= multiset(b) && |a| <= |b|
  {
    if a != [] {
      assert b == [b[0]] + b[1..];
      if a[0] == b[0] && IsSubsequence(a[1..], b[1..]) {
        SubsequenceCounts(a[1..], b[1..]);
        assert a == [a[0]] + a[1..];
      } else {
        SubsequenceCounts(a, b[1..]);
      }
    }
  }

  lemma {:induction false} SubsequenceMap<T(!new), U(!new)>(a: seq<T>, b: seq<T>, f: T -> U)
    requires IsSubsequence(a, b)
    ensures IsSubsequence(Map(a, f), Map(b, f))
  {
    if a != [] {
      assert Map(b, f)[1..] == Map(b[1..], f);
      if a[0] == b[0] && IsSubsequence(a[1..], b[1..]) {
        SubsequenceMap(a[1..], b[1..], f);
        assert Map(a, f)[1..] == Map(a[1..], f);
      } else {
        SubsequenceMap(a, b[1..], f);
      }
    }
  }

  lemma SubsequenceDistinct<T(!new)>(a: seq<T>, b: seq<T>)
    requires IsSubsequence(a, b) && Distinct(b)
    ensures Distinct(a)
  {
    SubsequenceCounts(a, b);
    DistinctCounts(b);
    forall x ensures multiset(a)[x] <= 1 {
      assert multiset(a)[x] <= multiset(b)[x];
    }
    DistinctFromCounts(a);
  }

  /** Everything yielded matches, comes from the store, and comes once. */
  lemma {:induction false} SelectionMatches(iter: seq<Utxo>, store: Store, o: FilterOptions, sum: int, num: nat)
    ensures IsSubsequence(SelectFrom(iter, store, o, sum, num), iter)
    ensures forall u :: u in SelectFrom(iter, store, o, sum, num) ==> u in iter && Matches(u, store, o)
  {
    if iter != [] {
      var sum' := sum + UnlockedValue(store, o)(iter[0]);
      SelectionMatches(iter[1..], store, o, sum, num);
      SelectionMatches(iter[1..], store, o, sum', num + 1);
      assert iter[0] in iter && forall u :: u in iter[1..] ==> u in iter;
    }
  }

  /** Every proper prefix of what is yielded falls short of the target. */
  ghost predicate ShortOfTarget(r: seq<Utxo>, store: Store, o: FilterOptions, sum: int) {
    o.targetAmount != 0 ==> forall k :: 0 <= k < |r| ==> sum + Sum(r[..k], UnlockedValue(store, o)) < o.targetAmount
  }

  /** Selection stops at the first prefix that reaches the target or the maximum count. */
  lemma {:induction false} SelectionStopsInTime(iter: seq<Utxo>, store: Store, o: FilterOptions, sum: int, num: nat)
    requires o.targetAmount != 0 ==> sum < o.targetAmount
    requires o.maxUtxos != 0 ==> num < o.maxUtxos
    ensures o.maxUtxos != 0 ==> num + |SelectFrom(iter, store, o, sum, num)| <= o.maxUtxos
    ensures ShortOfTarget(SelectFrom(iter, store, o, sum, num), store, o, sum)
  {
    if iter != [] {
      var f := UnlockedValue(store, o);
      if !Matches(iter[0], store, o) || Overshoots(o, sum, iter[0]) {
        SelectionStopsInTime(iter[1..], store, o, sum, num);
      } else {
        var sum' := sum + f(iter[0]);
        var r := SelectFrom(iter, store, o, sum, num);
        if !Stops(o, sum', num + 1) {
          SelectionStopsInTime(iter[1..], store, o, sum', num + 1);
        }
        forall k | 0 <= k < |r| && o.targetAmount != 0 ensures sum + Sum(r[..k], f) < o.targetAmount {
          if k == 0 {
            assert r[..k] == [];
          } else {
            assert r[..k] == [iter[0]] + r[1..][..k-1];
            SumAppend([iter[0]], r[1..][..k-1], f);
            assert [iter[0]][1..] == [];
          }
        }
      }
    }
  }

  ghost predicate NeverStopped(iter: seq<Utxo>, store: Store, o: FilterOptions, sum: int, num: nat) {
    var r := SelectFrom(iter, store, o, sum, num);
    !Stops(o, sum + Sum(r, UnlockedValue(store, o)), num + |r|)
  }

  /** A selection that did not end at its limits did not stop at its first element either. */
  lemma NeverStoppedStep(iter: seq<Utxo>, store: Store, o: FilterOptions, sum: int, num: nat)
    requires iter != [] && Matches(iter[0], store, o) && !Overshoots(o, sum, iter[0])
    requires NeverStopped(iter, store, o, sum, num)
    ensures var sum' := sum + UnlockedValue(store, o)(iter[0]);
      && SelectFrom(iter, store, o, sum, num) == [iter[0]] + SelectFrom(iter[1..], store, o, sum', num + 1)
      && NeverStopped(iter[1..], store, o, sum', num + 1)
  {
    var f := UnlockedValue(store, o);
    var r := SelectFrom(iter, store, o, sum, num);
    assert r == [iter[0]] + r[1..];
    SumNonNegative(r[1..], f);
    assert !Stops(o, sum + f(iter[0]), num + 1);
  }

  /** Without an early stop and without a maximum, exactly the matching utxos are yielded. */
  lemma {:induction false} SelectionIsExhaustive(iter: seq<Utxo>, store: Store, o: FilterOptions, sum: int, num: nat)
    requires NeverStopped(iter, store, o, sum, num) && o.maxAmount == 0
    ensures SelectFrom(iter, store, o, sum, num) == Filter(iter, MatchesIn(store, o))
  {
    if iter != [] {
      if !Matches(iter[0], store, o) {
        SelectionIsExhaustive(iter[1..], store, o, sum, num);
      } else {
        NeverStoppedStep(iter, store, o, sum, num);
        SelectionIsExhaustive(iter[1..], store, o, sum + UnlockedValue(store, o)(iter[0]), num + 1);
      }
    }
  }

  /** Without an early stop, a matching utxo is only left behind if it would overshoot the maximum
      even on top of everything yielded. */
  lemma {:induction false} SkippedWouldOvershoot(iter: seq<Utxo>, store: Store, o: FilterOptions, sum: int, num: nat, u: Utxo)
    requires NeverStopped(iter, store, o, sum, num)
    requires u in iter && Matches(u, store, o) && u !in SelectFrom(iter, store, o, sum, num)
    ensures Overshoots(o, sum + Sum(SelectFrom(iter, store, o, sum, num), UnlockedValue(store, o)), u)
  {
    var f := UnlockedValue(store, o);
    var r := SelectFrom(iter, store, o, sum, num);
    assert iter == [iter[0]] + iter[1..];
    if !Matches(iter[0], store, o) {
      SkippedWouldOvershoot(iter[1..], store, o, sum, num, u);
    } else if Overshoots(o, sum, iter[0]) {
      SumNonNegative(r, f);
      if u in iter[1..] {
        SkippedWouldOvershoot(iter[1..], store, o, sum, num, u);
      }
    } else {
      NeverStoppedStep(iter, store, o, sum, num);
      SkippedWouldOvershoot(iter[1..], store, o, sum + f(iter[0]), num + 1, u);
      assert r == [iter[0]] + r[1..];
    }
  }

  /** A maximum amount is respected. */
  lemma {:induction false} SelectionRespectsMaximum(iter: seq<Utxo>, store: Store, o: FilterOptions, sum: int, num: nat)
    requires o.maxAmount != 0 && sum <= o.maxAmount
    ensures sum + Sum(SelectFrom(iter, store, o, sum, num), UnlockedValue(store, o)) <= o.maxAmount
  {
    if iter != [] {
      var sum' := sum + UnlockedValue(store, o)(iter[0]);
      SelectionRespectsMaximum(iter[1..], store, o, sum, num);
      if sum' <= o.maxAmount {
        SelectionRespectsMaximum(iter[1..], store, o, sum', num + 1);
      }
      var r := SelectFrom(iter, store, o, sum, num);
      if r != [] {
        assert r == [r[0]] + r[1..];
      }
    }
  }

  // ----- the wrapper that skips utxos marked as inputs -----

  /** The wallet storage: the utxo store, the marks set by `utxoSelectAsInput`, and the number of
      blocks a reward stays locked. */
  datatype Storage = Storage(store: Store, selected: set<UtxoId>, rewardLock: nat)

  function NotSelected(s: Storage, o: FilterOptions): Utxo -> bool {
    (u: Utxo) => o.filterMethod(u) && (o.onlyAvailable ==> u.id !in s.selected)
  }

  function WrappedOptions(s: Storage, o: FilterOptions): FilterOptions {
    o.(filterMethod := NotSelected(s, o), rewardLock := if s.rewardLock != 0 then s.rewardLock else o.rewardLock)
  }

  /** `Storage.selectUtxos` */
  method SelectAvailable(s: Storage, o: FilterOptions) returns (r: Result<seq<Utxo>, StoreError>)
    ensures r.Err? <==> o.maxAmount != 0 && o.targetAmount != 0
    ensures r.Ok? ==> r.value == Selection(s, o)
  {
    r := SelectUtxos(s.store, WrappedOptions(s, o));
  }

  function Selection(s: Storage, o: FilterOptions): seq<Utxo> {
    SelectFrom(Ordered(s.store.utxos, o.order), s.store, WrappedOptions(s, o), 0, 0)
  }

  /** The utxo map has one entry per outpoint. */
  ghost predicate UniqueOutpoints(s: Storage) {
    Distinct(Map(s.store.utxos, UtxoIdOf()))
  }

  /** Everything selected is in the store and passes the filter, the marks included. */
  lemma SelectionMeetsOptions(s: Storage, o: FilterOptions)
    ensures forall u :: u in Selection(s, o) ==>
      && u in s.store.utxos && u.token == o.token
      && (o.authorities == 0 ==> u.authorities == 0)
      && (o.onlyAvailable ==> u.id !in s.selected)
      && Matches(u, s.store, WrappedOptions(s, o))
  {
    var iter := Ordered(s.store.utxos, o.order);
    SelectionMatches(iter, s.store, WrappedOptions(s, o), 0, 0);
    OrderedPermutes(s.store.utxos, o.order);
    forall u | u in Selection(s, o) ensures u in s.store.utxos {
      assert u in multiset(iter);
    }
  }

  // ----- what a selection means, told by the fields of a utxo -----

  /** Past its timelock and, in a block, past the reward lock. */
  ghost predicate Ripe(u: Utxo, now: nat, height: nat, rewardLock: nat) {
    && (forall t :: u.timelock == Some(t) ==> t <= now)
    && (forall h :: u.version in {0, 3, 5} && u.height == Some(h) && h > 0 && height > 0 && rewardLock > 0 ==> height >= h + rewardLock)
  }

  /** Neither marked nor locked at present. */
  ghost predicate Usable(s: Storage, u: Utxo) {
    u.id !in s.selected && Ripe(u, s.store.now, s.store.height, s.rewardLock)
  }

  /** At the asked address; for a shielded one, at its spend address. */
  ghost predicate AtAddress(s: Storage, address: Option<string>, u: Utxo) {
    forall a :: address == Some(a) && a != "" ==> u.address == if a in s.store.spendAddressOf then s.store.spendAddressOf[a] else a
  }

  /** Funds are asked for with 0, mint with 1, melt with 2. */
  ghost predicate Carries(authorities: nat, u: Utxo) {
    && (authorities == 0 ==> u.authorities == 0)
    && (authorities == 1 ==> HasMint(u.authorities))
    && (authorities == 2 ==> HasMelt(u.authorities))
  }

  /** What the options ask of a utxo. */
  ghost predicate Eligible(s: Storage, o: FilterOptions, u: Utxo) {
    && u.token == o.token && Carries(o.authorities, u) && AtAddress(s, o.filterAddress, u)
    && (o.amountBiggerThan != 0 ==> u.value > o.amountBiggerThan)
    && (o.amountSmallerThan != 0 ==> u.value < o.amountSmallerThan)
    && (o.shielded == Some(true) ==> u.shielded) && (o.shielded == Some(false) ==> !u.shielded)
    && o.filterMethod(u)
    && (o.onlyAvailable ==> u.id !in s.selected)
    && (o.onlyAvailable && s.rewardLock > 0 ==> Usable(s, u))
    && (o.onlyAvailable && s.rewardLock == 0 ==> Ripe(u, s.store.now, s.store.height, o.rewardLock))
  }

  lemma RipeIsUnlocked(u: Utxo, store: Store, o: FilterOptions)
    ensures Ripe(u, store.now, store.height, o.rewardLock) <==> !Locked(u, store, o)
  {
  }

  lemma EligibleMatches(s: Storage, o: FilterOptions, u: Utxo)
    requires o.authorities <= 2
    ensures Eligible(s, o, u) <==> Matches(u, s.store, WrappedOptions(s, o))
  {
    AuthorityBits(u.authorities);
    RipeIsUnlocked(u, s.store, WrappedOptions(s, o));
    var address := EffectiveAddress(s.store, o.filterAddress);
    assert AtAddress(s, o.filterAddress, u) <==> (address.Some? ==> u.address == address.value);
  }

  /** Everything selected is a utxo of the store the options ask for; without limits, all of them are. */
  lemma SelectionIsEligible(s: Storage, o: FilterOptions)
    requires o.authorities <= 2
    ensures forall u :: u in Selection(s, o) ==> u in s.store.utxos && Eligible(s, o, u)
    ensures o.targetAmount == 0 && o.maxUtxos == 0 && o.maxAmount == 0 ==>
      forall u :: u in s.store.utxos && Eligible(s, o, u) ==> u in Selection(s, o)
  {
    SelectionMeetsOptions(s, o);
    forall u: Utxo ensures Eligible(s, o, u) <==> Matches(u, s.store, WrappedOptions(s, o)) {
      EligibleMatches(s, o, u);
    }
    if o.targetAmount == 0 && o.maxUtxos == 0 && o.maxAmount == 0 {
      UnboundedSelection(s, o);
      OrderedPermutes(s.store.utxos, o.order);
      forall u | u in s.store.utxos ensures u in Ordered(s.store.utxos, o.order) {
        assert u in multiset(s.store.utxos);
      }
    }
  }

  /** What every selection promises: matching, unmarked, unlocked utxos of the store, each outpoint
      at most once. */
  lemma SelectionIsAvailable(s: Storage, o: FilterOptions)
    requires UniqueOutpoints(s)
    ensures forall u :: u in Selection(s, o) ==>
      && u in s.store.utxos && u.token == o.token
      && (o.authorities == 0 ==> u.authorities == 0)
      && (o.onlyAvailable ==> u.id !in s.selected)
    ensures Distinct(Map(Selection(s, o), UtxoIdOf()))
  {
    var iter := Ordered(s.store.utxos, o.order);
    SelectionMeetsOptions(s, o);
    SelectionMatches(iter, s.store, WrappedOptions(s, o), 0, 0);
    OrderedPermutes(s.store.utxos, o.order);
    MapPermutation(iter, s.store.utxos, UtxoIdOf());
    DistinctPermutation(Map(s.store.utxos, UtxoIdOf()), Map(iter, UtxoIdOf()));
    SubsequenceMap(Selection(s, o), iter, UtxoIdOf());
    SubsequenceDistinct(Map(Selection(s, o), UtxoIdOf()), Map(iter, UtxoIdOf()));
  }

  /** Without target, count and maximum, a selection is exactly the matching utxos, in order. */
  lemma UnboundedSelection(s: Storage, o: FilterOptions)
    requires o.targetAmount == 0 && o.maxUtxos == 0 && o.maxAmount == 0
    ensures Selection(s, o) == Filter(Ordered(s.store.utxos, o.order), MatchesIn(s.store, WrappedOptions(s, o)))
  {
    SelectionIsExhaustive(Ordered(s.store.utxos, o.order), s.store, WrappedOptions(s, o), 0, 0);
  }
}
