/** The algorithms that pick utxos for an amount: `fastUtxoSelection` and `bestUtxoSelection` of
    src/utils/utxo.ts and `selectUtxos` of src/utils/transaction.ts. */
module UtxoSelection {
  import opened Wrappers
  import opened SeqSums
  import opened WalletTypes
  import opened UtxoStore

  datatype Selected = Selected(utxos: seq<Utxo>, amount: int, available: Option<int>)

  datatype UtxoError = AmountNotPositive | NotEnoughUtxos

  function FundsOptions(token: Uid, order: Order): FilterOptions {
    DefaultOptions(token).(onlyAvailable := true, order := order)
  }

  /** The available funds of a token in the order the storage yields them. */
  function Available(s: Storage, token: Uid, order: Order): seq<Utxo> {
    Selection(s, FundsOptions(token, order))
  }

  lemma AvailableFunds(s: Storage, token: Uid, order: Order)
    ensures order == Descending ==> SortedByValue(Available(s, token, order), false)
    ensures multiset(Available(s, token, order)) <= multiset(s.store.utxos)
  {
    var o := FundsOptions(token, order);
    UnboundedSelection(s, o);
    OrderedPermutes(s.store.utxos, order);
    OrderingSorts(s.store.utxos, false);
    SelectionMatches(Ordered(s.store.utxos, order), s.store, WrappedOptions(s, o), 0, 0);
    SubsequenceCounts(Available(s, token, order), Ordered(s.store.utxos, order));
    if order == Descending {
      SubsequenceSorted(Available(s, token, order), Ordered(s.store.utxos, order));
    }
  }

  /** Funds of a token that may be spent now. */
  ghost function UsableFunds(s: Storage, token: Uid): Utxo -> bool {
    (u: Utxo) => u.token == token && u.authorities == 0 && Usable(s, u)
  }

  /** Available are exactly the usable funds of the token. */
  lemma AvailableIsUsable(s: Storage, token: Uid, order: Order)
    ensures multiset(Available(s, token, order)) == multiset(Filter(s.store.utxos, UsableFunds(s, token)))
    ensures Sum(Available(s, token, order), UtxoValue()) == Sum(Filter(s.store.utxos, UsableFunds(s, token)), UtxoValue())
  {
    var o := FundsOptions(token, order);
    UnboundedSelection(s, o);
    FundsMatch(s, token, order);
    FilterCongruent(Ordered(s.store.utxos, order), MatchesIn(s.store, WrappedOptions(s, o)), UsableFunds(s, token));
    OrderedPermutes(s.store.utxos, order);
    FilterPermutation(Ordered(s.store.utxos, order), s.store.utxos, UsableFunds(s, token));
    SumPermutation(Available(s, token, order), Filter(s.store.utxos, UsableFunds(s, token)), UtxoValue());
  }

  lemma FundsMatch(s: Storage, token: Uid, order: Order)
    ensures forall u :: Matches(u, s.store, WrappedOptions(s, FundsOptions(token, order))) <==> UsableFunds(s, token)(u)
  {
    forall u: Utxo ensures Matches(u, s.store, WrappedOptions(s, FundsOptions(token, order))) <==> UsableFunds(s, token)(u) {
      EligibleMatches(s, FundsOptions(token, order), u);
    }
  }

  lemma {:induction false} FilterCongruent<T(!new)>(s: seq<T>, p: T -> bool, q: T -> bool)
    requires forall x :: p(x) == q(x)
    ensures Filter(s, p) == Filter(s, q)
  {
    if s != [] {
      FilterCongruent(s[1..], p, q);
    }
  }

  lemma {:induction false} SubsequenceSorted(a: seq<Utxo>, b: seq<Utxo>)
    requires IsSubsequence(a, b) && SortedByValue(b, false)
    ensures SortedByValue(a, false)
  {
    if a != [] {
      assert SortedByValue(b[1..], false);
      if a[0] == b[0] && IsSubsequence(a[1..], b[1..]) {
        SubsequenceSorted(a[1..], b[1..]);
        SubsequenceCounts(a[1..], b[1..]);
        forall j | 0 < j < |a| ensures Before(a[0], a[j], false) {
          assert a[j] == a[1..][j-1];
          assert a[1..][j-1] in multiset(a[1..]);
          assert a[j] in b[1..];
        }
      } else {
        SubsequenceSorted(a, b[1..]);
      }
    }
  }

  ghost predicate Total(us: seq<Utxo>, amount: int) { Sum(us, UtxoValue()) == amount }

  /** A shortest prefix of `xs` worth at least `amount`. */
  ghost predicate MinimalPrefix(us: seq<Utxo>, xs: seq<Utxo>, amount: int) {
    && us <= xs
    && Sum(us, UtxoValue()) >= amount
    && forall k :: 0 <= k < |us| ==> Sum(us[..k], UtxoValue()) < amount
  }

  ghost predicate HasExact(xs: seq<Utxo>, amount: int) { exists u :: u in xs && u.value == amount }

  ghost predicate HasGreater(xs: seq<Utxo>, amount: int) { exists u :: u in xs && u.value > amount }

  /** One of the utxos worth more than `amount`, and of least value among those. */
  ghost predicate LeastGreater(u: Utxo, xs: seq<Utxo>, amount: int) {
    u in xs && u.value > amount && forall v :: v in xs && v.value > amount ==> u.value <= v.value
  }

  /** What `bestUtxoSelection` picks from `xs`, the funds sorted by falling value. */
  ghost predicate BestChoice(xs: seq<Utxo>, amount: int, r: Selected) {
    if HasExact(xs, amount) then
      r.available == None && |r.utxos| == 1 && r.utxos[0] in xs && r.utxos[0].value == amount == r.amount
    else if HasGreater(xs, amount) then
      r.available == None && |r.utxos| == 1 && LeastGreater(r.utxos[0], xs, amount) && r.amount == r.utxos[0].value
    else if Sum(xs, UtxoValue()) >= amount then
      r.available == None && MinimalPrefix(r.utxos, xs, amount) && Total(r.utxos, r.amount)
    else
      r == Selected([], 0, Some(Sum(xs, UtxoValue())))
  }

  method BestUtxoSelection(s: Storage, token: Uid, amount: int) returns (r: Selected)
    ensures BestChoice(Available(s, token, Descending), amount, r)
  {
    var selection := SelectAvailable(s, FundsOptions(token, Descending));
    AvailableFunds(s, token, Descending);
    r := ChooseBest(selection.value, amount);
  }

  /** The loop of `bestUtxoSelection` over what the storage yields. */
  method ChooseBest(xs: seq<Utxo>, amount: int) returns (r: Selected)
    requires SortedByValue(xs, false)
    ensures BestChoice(xs, amount, r)
  {
    var utxos: seq<Utxo> := [];
    var utxosAmount := 0;
    var selectedUtxo: Option<Utxo> := None;
    var k := 0;
    while k < |xs|
      invariant 0 <= k <= |xs|
      invariant utxos == xs[..k] && Total(utxos, utxosAmount)
      invariant selectedUtxo.Some? ==> k > 0 && selectedUtxo.value in xs && selectedUtxo.value.value == xs[k-1].value > amount
      invariant selectedUtxo.None? ==> AllBelow(xs, k, amount) && PrefixesBelow(xs, k, amount)
    {
      var utxo := xs[k];
      if utxo.value == amount {
        assert HasExact(xs, amount);
        return Selected([utxo], amount, None);
      }
      assert xs[..k+1] == xs[..k] + [utxo];
      SumPush(utxos, utxo, UtxoValue());
      utxos := utxos + [utxo];
      utxosAmount := utxosAmount + utxo.value;
      if utxo.value > amount {
        if selectedUtxo == None || utxo.value < selectedUtxo.value.value {
          selectedUtxo := Some(utxo);
        }
      }
      if utxo.value < amount {
        if selectedUtxo != None {
          break;
        }
        if utxosAmount >= amount {
          EnoughBelow(xs, k, amount);
          return Selected(utxos, utxosAmount, None);
        }
        OneMoreBelow(xs, k, amount);
      }
      k := k + 1;
    }
    if selectedUtxo != None {
      GreaterFirst(xs, k, amount);
      return Selected([selectedUtxo.value], selectedUtxo.value.value, None);
    }
    assert utxos == xs;
    NoneChosen(xs, amount);
    if utxosAmount < amount {
      return Selected([], 0, Some(utxosAmount));
    }
    r := Selected(utxos, utxosAmount, None);
  }

  lemma OneMoreBelow(xs: seq<Utxo>, k: nat, amount: int)
    requires k < |xs| && AllBelow(xs, k, amount) && PrefixesBelow(xs, k, amount)
    requires xs[k].value < amount && Sum(xs[..k+1], UtxoValue()) < amount
    ensures AllBelow(xs, k + 1, amount) && PrefixesBelow(xs, k + 1, amount)
  {
    assert xs[..0] == [];
  }

  /** Where the loop runs to the end: the funds fall short, unless there are none and none are asked for. */
  lemma NoneChosen(xs: seq<Utxo>, amount: int)
    requires AllBelow(xs, |xs|, amount) && PrefixesBelow(xs, |xs|, amount)
    ensures Sum(xs, UtxoValue()) < amount ==> BestChoice(xs, amount, Selected([], 0, Some(Sum(xs, UtxoValue()))))
    ensures Sum(xs, UtxoValue()) >= amount ==> BestChoice(xs, amount, Selected(xs, Sum(xs, UtxoValue()), None))
  {
    assert xs[..|xs|] == xs;
  }

  ghost predicate AllBelow(xs: seq<Utxo>, k: nat, amount: int)
    requires k <= |xs|
  {
    forall j :: 0 <= j < k ==> xs[j].value < amount
  }

  ghost predicate PrefixesBelow(xs: seq<Utxo>, k: nat, amount: int)
    requires k <= |xs|
  {
    k > 0 ==> forall j :: 0 <= j <= k ==> Sum(xs[..j], UtxoValue()) < amount
  }

  /** Reaching the amount with small utxos: the prefix up to here is the shortest that does. */
  lemma EnoughBelow(xs: seq<Utxo>, k: nat, amount: int)
    requires SortedByValue(xs, false) && 0 < k < |xs| && AllBelow(xs, k, amount) && PrefixesBelow(xs, k, amount)
    requires xs[k].value < amount && Sum(xs[..k+1], UtxoValue()) >= amount
    ensures MinimalPrefix(xs[..k+1], xs, amount) && !HasExact(xs, amount) && !HasGreater(xs, amount)
    ensures Sum(xs, UtxoValue()) >= amount
  {
    SumPrefixBound(xs, k + 1);
    NoneAbove(xs, k, amount);
    var us := xs[..k+1];
    forall j: nat | j < |us| ensures Sum(us[..j], UtxoValue()) < amount {
      assert us[..j] == xs[..j];
    }
  }

  lemma NoneAbove(xs: seq<Utxo>, k: nat, amount: int)
    requires SortedByValue(xs, false) && k < |xs| && AllBelow(xs, k, amount) && xs[k].value < amount
    ensures !HasExact(xs, amount) && !HasGreater(xs, amount)
  {
    forall u | u in xs ensures u.value < amount {
      var i :| 0 <= i < |xs| && xs[i] == u;
      assert i > k ==> Before(xs[k], xs[i], false);
    }
  }

  /** The last utxo above the amount is the least such, and no utxo equals the amount. */
  lemma GreaterFirst(xs: seq<Utxo>, k: nat, amount: int)
    requires SortedByValue(xs, false) && 0 < k <= |xs| && xs[k-1].value > amount
    requires k < |xs| ==> xs[k].value < amount
    ensures !HasExact(xs, amount) && HasGreater(xs, amount)
    ensures forall u :: u in xs && u.value > amount ==> xs[k-1].value <= u.value
  {
    assert xs[k-1] in xs;
    forall u | u in xs ensures u.value != amount && (u.value > amount ==> xs[k-1].value <= u.value) {
      var i :| 0 <= i < |xs| && xs[i] == u;
      assert i < k - 1 ==> Before(xs[i], xs[k-1], false);
      assert i > k ==> Before(xs[k], xs[i], false);
    }
  }

  lemma SumPrefixBound(xs: seq<Utxo>, k: nat)
    requires k <= |xs|
    ensures Sum(xs[..k], UtxoValue()) <= Sum(xs, UtxoValue())
  {
    assert xs == xs[..k] + xs[k..];
    SumAppend(xs[..k], xs[k..], UtxoValue());
    SumNonNegative(xs[k..], UtxoValue());
  }

  /** The contract every caller relies on: the amount reported is the value of the utxos picked,
      they are available funds of the token, and no outpoint comes twice. */
  lemma BestChoiceIsSound(s: Storage, token: Uid, amount: int, r: Selected)
    requires UniqueOutpoints(s)
    requires BestChoice(Available(s, token, Descending), amount, r)
    ensures Total(r.utxos, r.amount)
    ensures Distinct(Map(r.utxos, UtxoIdOf()))
    ensures forall u :: u in r.utxos ==>
      u in s.store.utxos && u.token == token && u.authorities == 0 && u.id !in s.selected
  {
    var xs := Available(s, token, Descending);
    SelectionIsAvailable(s, FundsOptions(token, Descending));
    if |r.utxos| == 1 {
      assert r.utxos == [r.utxos[0]];
      assert r.utxos[1..] == [];
    }
    if r.utxos <= xs {
      assert Map(r.utxos, UtxoIdOf()) == Map(xs, UtxoIdOf())[..|r.utxos|];
    }
  }

  /** Selection fails exactly when all available funds together fall short. */
  lemma BestChoiceFindsFunds(xs: seq<Utxo>, amount: int, r: Selected)
    requires BestChoice(xs, amount, r) && amount > 0
    ensures r.amount >= amount <==> Sum(xs, UtxoValue()) >= amount
  {
    forall u | u in xs ensures u.value <= Sum(xs, UtxoValue()) {
      var i :| 0 <= i < |xs| && xs[i] == u;
      SumSplitAt(xs, i, UtxoValue());
      SumNonNegative(xs[..i], UtxoValue());
      SumNonNegative(xs[i+1..], UtxoValue());
    }
  }

  /** Taking the greatest fund, or any pick if it was not picked, out of a choice. */
  lemma TakeGreatest(xs: seq<Utxo>, pick: seq<Utxo>) returns (i: nat)
    requires xs != [] && pick != [] && multiset(pick) <= multiset(xs)
    ensures i < |pick| && pick[i] in xs && multiset(RemoveAt(pick, i)) <= multiset(xs[1..])
  {
    if xs[0] in pick {
      i :| 0 <= i < |pick| && pick[i] == xs[0];
    } else {
      i := 0;
    }
    RemoveAtCounts(pick, i);
    assert xs == [xs[0]] + xs[1..];
    OneLessOfBoth(multiset(pick), multiset(xs[1..]), pick[i], xs[0]);
    assert pick[i] in multiset(xs);
  }

  lemma OneLessOfBoth(pick: multiset<Utxo>, rest: multiset<Utxo>, gone: Utxo, first: Utxo)
    requires pick <= multiset{first} + rest && gone in pick && (gone == first || first !in pick)
    ensures pick - multiset{gone} <= rest
  {
  }

  /** No choice of `n` of the funds is worth more than the first `n` in falling order. */
  lemma {:induction false} FirstAreGreatest(xs: seq<Utxo>, pick: seq<Utxo>)
    requires SortedByValue(xs, false) && multiset(pick) <= multiset(xs)
    ensures |pick| <= |xs| && Sum(pick, UtxoValue()) <= Sum(xs[..|pick|], UtxoValue())
    decreases |xs|
  {
    if pick != [] {
      assert pick[0] in multiset(pick);
      assert |xs| > 0;
      var i := TakeGreatest(xs, pick);
      FirstAreGreatest(xs[1..], RemoveAt(pick, i));
      SumSplitAt(pick, i, UtxoValue());
      SumAppend(pick[..i], pick[i+1..], UtxoValue());
      assert xs[..|pick|][0] == xs[0] && xs[..|pick|][1..] == xs[1..][..|pick|-1];
      var j :| 0 <= j < |xs| && xs[j] == pick[i];
      assert j > 0 ==> Before(xs[0], xs[j], false);
    }
  }

  /** The promise of the algorithm: no smaller set of available utxos covers the amount. */
  lemma BestChoiceUsesFewestUtxos(s: Storage, token: Uid, amount: int, r: Selected, other: seq<Utxo>)
    requires BestChoice(Available(s, token, Descending), amount, r)
    requires multiset(other) <= multiset(Available(s, token, Descending))
    requires Sum(other, UtxoValue()) >= amount > 0
    ensures r.amount >= amount && |r.utxos| <= |other|
  {
    var xs := Available(s, token, Descending);
    AvailableFunds(s, token, Descending);
    FirstAreGreatest(xs, other);
    SumPrefixBound(xs, |other|);
    BestChoiceFindsFunds(xs, amount, r);
    assert other != [];
    if MinimalPrefix(r.utxos, xs, amount) {
      PrefixNotShort(r.utxos, xs, amount, |other|);
    }
  }

  lemma PrefixNotShort(us: seq<Utxo>, xs: seq<Utxo>, amount: int, n: nat)
    requires MinimalPrefix(us, xs, amount) && n <= |xs| && Sum(xs[..n], UtxoValue()) >= amount
    ensures |us| <= n
  {
    assert forall j :: 0 <= j <= |us| ==> us[..j] == xs[..j];
  }

  /** Stopping at a target yields a beginning of what would be yielded without one, and all of it when
      the target is not reached. */
  lemma {:induction false} TargetTakesPrefix(iter: seq<Utxo>, store: Store, o: FilterOptions, o0: FilterOptions, sum: int, num: nat)
    requires o.maxUtxos == 0 && o.maxAmount == 0 && o0 == o.(targetAmount := 0)
    ensures SelectFrom(iter, store, o, sum, num) <= SelectFrom(iter, store, o0, sum, num)
    ensures sum + Sum(SelectFrom(iter, store, o, sum, num), UnlockedValue(store, o)) < o.targetAmount ==>
      SelectFrom(iter, store, o, sum, num) == SelectFrom(iter, store, o0, sum, num)
  {
    if iter != [] {
      var x, others := iter[0], iter[1..];
      if !Matches(x, store, o) {
        TargetTakesPrefix(others, store, o, o0, sum, num);
        assert SelectFrom(iter, store, o, sum, num) == SelectFrom(others, store, o, sum, num);
      } else {
        var sum' := sum + UnlockedValue(store, o)(x);
        assert SelectFrom(iter, store, o0, sum, num) == [x] + SelectFrom(others, store, o0, sum', num + 1);
        if Stops(o, sum', num + 1) {
          var yielded := SelectFrom(iter, store, o, sum, num);
          assert yielded == [x] && yielded[1..] == [];
          assert Sum(yielded, UnlockedValue(store, o)) == UnlockedValue(store, o)(x);
        } else {
          TargetTakesPrefix(others, store, o, o0, sum', num + 1);
          assert SelectFrom(iter, store, o, sum, num) == [x] + SelectFrom(others, store, o, sum', num + 1);
          assert ([x] + SelectFrom(others, store, o, sum', num + 1))[1..] == SelectFrom(others, store, o, sum', num + 1);
        }
      }
    }
  }

  /** `fastUtxoSelection` lets the storage stop at the target: it takes the shortest beginning of the
      funds in falling order that reaches the amount, and fails exactly when all of them fall short. A
      target of zero does not stop the storage, and a negative one stops it at the first utxo. */
  method FastUtxoSelection(s: Storage, token: Uid, amount: int) returns (r: Selected)
    ensures r.available.None? <==> Sum(Available(s, token, Descending), UtxoValue()) >= amount
    ensures r.available.Some? ==> r == Selected([], 0, Some(Sum(Available(s, token, Descending), UtxoValue())))
    ensures r.available.None? ==> Total(r.utxos, r.amount) && FastChoice(r.utxos, Available(s, token, Descending), amount)
  {
    var options := FundsOptions(token, Descending).(targetAmount := amount);
    var selection := SelectAvailable(s, options);
    var xs := selection.value;
    var utxos, utxosAmount := TakeYielded(xs);
    FastIsChosen(s, token, amount, options, xs);
    if utxosAmount < amount {
      return Selected([], 0, Some(utxosAmount));
    }
    r := Selected(utxos, utxosAmount, None);
  }

  /** The loop over what the storage yields. */
  method TakeYielded(xs: seq<Utxo>) returns (utxos: seq<Utxo>, utxosAmount: nat)
    ensures utxos == xs && Total(utxos, utxosAmount)
  {
    utxos, utxosAmount := [], 0;
    for k := 0 to |xs|
      invariant utxos == xs[..k] && Total(utxos, utxosAmount)
    {
      assert xs[..k+1] == xs[..k] + [xs[k]];
      SumPush(utxos, xs[k], UtxoValue());
      utxosAmount := utxosAmount + xs[k].value;
      utxos := utxos + [xs[k]];
    }
  }

  /** What the storage yields of the funds for a target. */
  ghost predicate FastChoice(us: seq<Utxo>, xs: seq<Utxo>, amount: int) {
    if amount > 0 then MinimalPrefix(us, xs, amount) else if amount == 0 then us == xs else us == FirstOnly(xs)
  }

  function FirstOnly(xs: seq<Utxo>): seq<Utxo> { if xs == [] then [] else [xs[0]] }

  lemma FastIsChosen(s: Storage, token: Uid, amount: int, options: FilterOptions, xs: seq<Utxo>)
    requires options == FundsOptions(token, Descending).(targetAmount := amount) && xs == Selection(s, options)
    ensures Sum(xs, UtxoValue()) < amount ==> xs == Available(s, token, Descending)
    ensures Sum(xs, UtxoValue()) >= amount ==>
      FastChoice(xs, Available(s, token, Descending), amount) && Sum(Available(s, token, Descending), UtxoValue()) >= amount
  {
    var all := Available(s, token, Descending);
    SumNonNegative(xs, UtxoValue());
    SumNonNegative(all, UtxoValue());
    if amount > 0 {
      FastIsPrefix(s, token, amount, options, xs);
    } else if amount == 0 {
      assert options == FundsOptions(token, Descending);
    } else {
      var w := WrappedOptions(s, options);
      assert all == SelectFrom(Ordered(s.store.utxos, Descending), s.store, w.(targetAmount := 0), 0, 0);
      NegativeTakesOne(Ordered(s.store.utxos, Descending), s.store, w, w.(targetAmount := 0));
    }
  }

  /** Any utxo reaches a negative target. */
  lemma {:induction false} NegativeTakesOne(iter: seq<Utxo>, store: Store, o: FilterOptions, o0: FilterOptions)
    requires o.maxUtxos == 0 && o.maxAmount == 0 && o.targetAmount < 0 && o0 == o.(targetAmount := 0)
    ensures SelectFrom(iter, store, o, 0, 0) == FirstOnly(SelectFrom(iter, store, o0, 0, 0))
  {
    if iter != [] {
      if !Matches(iter[0], store, o) {
        NegativeTakesOne(iter[1..], store, o, o0);
      } else {
        assert SelectFrom(iter, store, o, 0, 0) == [iter[0]] + [];
      }
    }
  }

  lemma FastIsPrefix(s: Storage, token: Uid, amount: int, options: FilterOptions, xs: seq<Utxo>)
    requires amount > 0 && options == FundsOptions(token, Descending).(targetAmount := amount) && xs == Selection(s, options)
    ensures xs <= Available(s, token, Descending)
    ensures Sum(xs, UtxoValue()) < amount ==> xs == Available(s, token, Descending)
    ensures Sum(xs, UtxoValue()) >= amount ==>
      MinimalPrefix(xs, Available(s, token, Descending), amount) && Sum(Available(s, token, Descending), UtxoValue()) >= amount
  {
    var w, all := WrappedOptions(s, options), Available(s, token, Descending);
    var iter := Ordered(s.store.utxos, Descending);
    assert all == SelectFrom(iter, s.store, w.(targetAmount := 0), 0, 0);
    TargetTakesPrefix(iter, s.store, w, w.(targetAmount := 0), 0, 0);
    SelectionStopsInTime(iter, s.store, w, 0, 0);
    SelectionMatches(iter, s.store, w, 0, 0);
    forall k | 0 <= k <= |xs| ensures Sum(xs[..k], UtxoValue()) == Sum(xs[..k], UnlockedValue(s.store, w)) {
      forall x | x in xs[..k] ensures UtxoValue()(x) == UnlockedValue(s.store, w)(x) {
        assert x in xs && Matches(x, s.store, w);
      }
      SumCongruent(xs[..k], UtxoValue(), UnlockedValue(s.store, w));
    }
    assert xs[..|xs|] == xs;
    assert all[..|xs|] == xs;
    SumPrefixBound(all, |xs|);
  }

  /** The utxos in hand after the loop of `transactionUtils.selectUtxos` has gone over `xs`. */
  function Scan(xs: seq<Utxo>, inHand: seq<Utxo>, totalAmount: int): seq<Utxo> {
    if xs == [] then inHand
    else if xs[0].value >= totalAmount then Scan(xs[1..], [xs[0]], totalAmount)
    else if Sum(inHand, UtxoValue()) >= totalAmount then inHand
    else Scan(xs[1..], inHand + [xs[0]], totalAmount)
  }

  lemma WholeScan(utxos: seq<Utxo>, totalAmount: int)
    ensures Sum(Scan(utxos, [], totalAmount), UtxoValue()) >= totalAmount <==> Sum(utxos, UtxoValue()) >= totalAmount
    ensures IsSubsequence(Scan(utxos, [], totalAmount), utxos)
  {
    ScanReaches(utxos, [], totalAmount);
    ScanSubsequence([], utxos, [], totalAmount);
    assert [] + utxos == utxos;
  }

  /** `transactionUtils.selectUtxos`: the utxos should come sorted by falling value. */
  method SelectForAmount(utxos: seq<Utxo>, totalAmount: int) returns (r: Result<(seq<Utxo>, nat), UtxoError>)
    ensures totalAmount <= 0 ==> r == Err(AmountNotPositive)
    ensures totalAmount > 0 ==> (r.Ok? <==> Sum(utxos, UtxoValue()) >= totalAmount)
    ensures r.Ok? ==>
      && r.value.0 == Scan(utxos, [], totalAmount)
      && Sum(r.value.0, UtxoValue()) == totalAmount + r.value.1
      && IsSubsequence(r.value.0, utxos)
  {
    if totalAmount <= 0 {
      return Err(AmountNotPositive);
    }
    WholeScan(utxos, totalAmount);
    if |utxos| == 0 {
      return Err(NotEnoughUtxos);
    }
    var utxosToUse: seq<Utxo> := [];
    var filledAmount := 0;
    for k := 0 to |utxos|
      invariant Total(utxosToUse, filledAmount)
      invariant Scan(utxos[k..], utxosToUse, totalAmount) == Scan(utxos, [], totalAmount)
    {
      var utxo := utxos[k];
      assert utxos[k..][0] == utxo && utxos[k..][1..] == utxos[k+1..];
      if utxo.value >= totalAmount {
        utxosToUse := [utxo];
        filledAmount := utxo.value;
        assert [utxo][1..] == [];
      } else {
        if filledAmount >= totalAmount {
          return Ok((utxosToUse, filledAmount - totalAmount));
        }
        SumPush(utxosToUse, utxo, UtxoValue());
        filledAmount := filledAmount + utxo.value;
        utxosToUse := utxosToUse + [utxo];
      }
    }
    assert utxos[|utxos|..] == [];
    assert utxosToUse == Scan(utxos, [], totalAmount);
    if filledAmount < totalAmount {
      return Err(NotEnoughUtxos);
    }
    r := Ok((utxosToUse, filledAmount - totalAmount));
  }

  lemma {:induction false} ScanReaches(xs: seq<Utxo>, inHand: seq<Utxo>, totalAmount: int)
    ensures Sum(Scan(xs, inHand, totalAmount), UtxoValue()) >= totalAmount
       <==> Sum(inHand, UtxoValue()) + Sum(xs, UtxoValue()) >= totalAmount
    decreases |xs|
  {
    if xs != [] {
      SumNonNegative(xs[1..], UtxoValue());
      SumNonNegative(inHand, UtxoValue());
      if xs[0].value >= totalAmount {
        ScanReaches(xs[1..], [xs[0]], totalAmount);
        assert [xs[0]][1..] == [];
      } else if Sum(inHand, UtxoValue()) < totalAmount {
        SumPush(inHand, xs[0], UtxoValue());
        ScanReaches(xs[1..], inHand + [xs[0]], totalAmount);
      }
    }
  }

  lemma {:induction false} ScanSubsequence(seen: seq<Utxo>, xs: seq<Utxo>, inHand: seq<Utxo>, totalAmount: int)
    requires IsSubsequence(inHand, seen)
    ensures IsSubsequence(Scan(xs, inHand, totalAmount), seen + xs)
    decreases |xs|
  {
    SubsequencePrefix(inHand, seen, xs);
    if xs != [] {
      assert seen + xs == (seen + [xs[0]]) + xs[1..];
      LastIsSubsequence(seen, xs[0]);
      SubsequencePush(inHand, seen, xs[0]);
      ScanSubsequence(seen + [xs[0]], xs[1..], [xs[0]], totalAmount);
      ScanSubsequence(seen + [xs[0]], xs[1..], inHand + [xs[0]], totalAmount);
    }
  }

  /** On funds in falling order the scan makes the best choice: the least single utxo that covers
      the amount if there is one, else the shortest prefix that does. */
  lemma {:induction false} ScanIsBest(utxos: seq<Utxo>, k: nat, totalAmount: int)
    requires SortedByValue(utxos, false) && totalAmount > 0 && k <= |utxos|
    requires Sum(utxos, UtxoValue()) >= totalAmount
    requires k > 0 ==> utxos[k-1].value >= totalAmount
    ensures var us := Scan(utxos[k..], if k == 0 then [] else [utxos[k-1]], totalAmount);
      if k > 0 || utxos[0].value >= totalAmount
      then |us| == 1 && us[0] in utxos && us[0].value >= totalAmount
        && forall u :: u in utxos && u.value >= totalAmount ==> us[0].value <= u.value
      else MinimalPrefix(us, utxos, totalAmount)
    decreases |utxos| - k
  {
    if k < |utxos| && utxos[k].value >= totalAmount {
      ScanIsBest(utxos, k + 1, totalAmount);
      assert utxos[k..][0] == utxos[k] && utxos[k..][1..] == utxos[k+1..];
    } else if k > 0 {
      var inHand := [utxos[k-1]];
      assert inHand[1..] == [];
      assert Sum(inHand, UtxoValue()) == utxos[k-1].value;
      assert k < |utxos| ==> utxos[k..][0] == utxos[k];
      assert Scan(utxos[k..], inHand, totalAmount) == inHand;
      forall u | u in utxos && u.value >= totalAmount ensures utxos[k-1].value <= u.value {
        var i :| 0 <= i < |utxos| && utxos[i] == u;
        assert i < k - 1 ==> Before(utxos[i], utxos[k-1], false);
        assert i > k ==> Before(utxos[k], utxos[i], false);
      }
    } else {
      assert utxos != [];
      ScanSmall(utxos, 0, totalAmount);
      assert utxos[..0] == [] && utxos[0..] == utxos;
    }
  }

  lemma {:induction false} ScanSmall(utxos: seq<Utxo>, k: nat, totalAmount: int)
    requires k <= |utxos| && SortedByValue(utxos, false) && utxos != [] && utxos[0].value < totalAmount
    requires forall j :: 0 <= j < k ==> Sum(utxos[..j], UtxoValue()) < totalAmount
    requires Sum(utxos, UtxoValue()) >= totalAmount
    ensures MinimalPrefix(Scan(utxos[k..], utxos[..k], totalAmount), utxos, totalAmount)
    decreases |utxos| - k
  {
    assert forall j :: 0 <= j <= k ==> utxos[..k][..j] == utxos[..j];
    if k < |utxos| {
      assert k > 0 ==> Before(utxos[0], utxos[k], false);
      assert utxos[k..][0] == utxos[k] && utxos[k..][1..] == utxos[k+1..];
      assert utxos[..k] + [utxos[k]] == utxos[..k+1];
      if Sum(utxos[..k], UtxoValue()) < totalAmount {
        ScanSmall(utxos, k + 1, totalAmount);
      }
    } else {
      assert utxos[..k] == utxos;
    }
  }

  lemma {:induction false} LastIsSubsequence<T(!new)>(b: seq<T>, x: T)
    ensures IsSubsequence([x], b + [x])
  {
    if b == [] {
      assert (b + [x])[0] == x;
    } else {
      assert (b + [x])[1..] == b[1..] + [x];
      LastIsSubsequence(b[1..], x);
    }
  }

  lemma {:induction false} SubsequencePush<T(!new)>(a: seq<T>, b: seq<T>, x: T)
    requires IsSubsequence(a, b)
    ensures IsSubsequence(a + [x], b + [x])
  {
    if b == [] {
      assert a + [x] == [x] && b + [x] == [x];
    } else {
      assert (b + [x])[1..] == b[1..] + [x];
      if a != [] && a[0] == b[0] && IsSubsequence(a[1..], b[1..]) {
        SubsequencePush(a[1..], b[1..], x);
        assert (a + [x])[1..] == a[1..] + [x];
      } else {
        SubsequencePush(a, b[1..], x);
      }
    }
  }

  lemma {:induction false} SubsequencePrefix<T(!new)>(a: seq<T>, b: seq<T>, c: seq<T>)
    requires IsSubsequence(a, b)
    ensures IsSubsequence(a, b + c)
  {
    if a != [] {
      assert (b + c)[1..] == b[1..] + c;
      if a[0] == b[0] && IsSubsequence(a[1..], b[1..]) {
        SubsequencePrefix(a[1..], b[1..], c);
      } else {
        SubsequencePrefix(a, b[1..], c);
      }
    }
  }

  lemma {:induction false} SubsequenceSum(a: seq<Utxo>, b: seq<Utxo>)
    requires IsSubsequence(a, b)
    ensures Sum(a, UtxoValue()) <= Sum(b, UtxoValue())
  {
    if a == [] {
      SumNonNegative(b, UtxoValue());
    } else if a[0] == b[0] && IsSubsequence(a[1..], b[1..]) {
      SubsequenceSum(a[1..], b[1..]);
    } else {
      SubsequenceSum(a, b[1..]);
    }
  }
}
