/** What the nano contract builder asks of its wallet: utxos for an amount, an authority utxo, and the
    marks that keep an outpoint from being selected again (src/new/wallet.ts:1435-1522, 2375-2410;
    src/storage/storage.ts:842-879). */
module NanoWallet {
  import opened Wrappers
  import opened SeqSums
  import opened WalletTypes
  import opened UtxoStore
  import UtxoSelection
  import opened SendModel

  function WithMarks(s: WalletStorage, marks: set<UtxoId>): WalletStorage {
    s.(funds := s.funds.(selected := marks))
  }

  predicate Known(s: WalletStorage, id: UtxoId) { Resolve(s, id).Some? }

  predicate Spent(r: Resolved) {
    match r
    case TransparentOutput(o) => o.spent
    case ShieldedSlot(o) => o.spent
  }

  /** An outpoint is only ever marked when the history knows it as unspent. */
  predicate Markable(s: WalletStorage, id: UtxoId) { Known(s, id) && !Spent(Resolve(s, id).value) }

  function Marked(s: WalletStorage, ids: seq<UtxoId>): set<UtxoId> {
    s.funds.selected + set id | id in ids && Markable(s, id)
  }

  /** The history knows every utxo of the store as unspent. */
  ghost predicate UtxosKnown(s: WalletStorage) {
    forall u :: u in s.funds.store.utxos ==> Markable(s, u.id)
  }

  /** Inputs picked from the store: unmarked funds or authorities, no outpoint twice. */
  ghost predicate PickedFrom(s: WalletStorage, token: Uid, ins: seq<DataInput>) {
    && (forall i :: i in ins ==> i.token == token && i.id !in s.funds.selected && InStore(s, i))
    && (UniqueOutpoints(s.funds) ==> Distinct(Map(ins, InputIdOf())))
  }

  /** The input repeats a utxo of the store that is past its locks. */
  ghost predicate InStore(s: WalletStorage, i: DataInput) {
    exists u :: u in s.funds.store.utxos && SpendsUtxo(i, u) && IsRipe(s, u)
  }

  ghost predicate IsRipe(s: WalletStorage, u: Utxo) { Ripe(u, s.funds.store.now, s.funds.store.height, s.funds.rewardLock) }

  /** Told by the fields: the history has the output, and it is not spent. */
  lemma MarkableMeans(s: WalletStorage, id: UtxoId)
    ensures Markable(s, id) <==>
      && id.txId in s.txs
      && var t := s.txs[id.txId];
         || (0 <= id.index < |t.outputs| && !t.outputs[id.index].spent)
         || (|t.outputs| <= id.index < |t.outputs| + |t.shielded| && !t.shielded[id.index - |t.outputs|].spent)
    ensures Known(s, id) <==> id.txId in s.txs && 0 <= id.index < |s.txs[id.txId].outputs| + |s.txs[id.txId].shielded|
  {
  }

  function AmountOptions(token: Uid, address: Option<string>): FilterOptions {
    DefaultOptions(token).(filterAddress := address, order := Descending, onlyAvailable := true, shielded := Some(false))
  }

  function NoAuthority(): Utxo -> bool { (u: Utxo) => u.authorities == 0 }

  /** The transparent funds of a token a deposit or a fee may be paid from. */
  function Spendable(s: WalletStorage, token: Uid, address: Option<string>): seq<Utxo> {
    Filter(Selection(s.funds, AmountOptions(token, address)), NoAuthority())
  }

  /** Transparent funds of the token, at the asked address, free to use. */
  ghost function IsSpendable(s: WalletStorage, token: Uid, address: Option<string>): Utxo -> bool {
    (u: Utxo) => u.token == token && u.authorities == 0 && !u.shielded && AtAddress(s.funds, address, u) && Usable(s.funds, u)
  }

  lemma SpendableFields(s: WalletStorage, token: Uid, address: Option<string>, u: Utxo)
    ensures Matches(u, s.funds.store, WrappedOptions(s.funds, AmountOptions(token, address))) && NoAuthority()(u)
       <==> IsSpendable(s, token, address)(u)
  {
    EligibleMatches(s.funds, AmountOptions(token, address), u);
  }

  /** Exactly such utxos are spendable, each as often as the store has it. */
  lemma SpendableMeans(s: WalletStorage, token: Uid, address: Option<string>)
    ensures multiset(Spendable(s, token, address)) == multiset(Filter(s.funds.store.utxos, IsSpendable(s, token, address)))
    ensures Sum(Spendable(s, token, address), UtxoValue()) == Sum(Filter(s.funds.store.utxos, IsSpendable(s, token, address)), UtxoValue())
  {
    var o, p := AmountOptions(token, address), IsSpendable(s, token, address);
    var iter := Ordered(s.funds.store.utxos, Descending);
    UnboundedSelection(s.funds, o);
    forall u: Utxo ensures MatchesIn(s.funds.store, WrappedOptions(s.funds, o))(u) && NoAuthority()(u) <==> p(u) {
      SpendableFields(s, token, address, u);
    }
    FilterTwice(iter, MatchesIn(s.funds.store, WrappedOptions(s.funds, o)), NoAuthority(), p);
    OrderedPermutes(s.funds.store.utxos, Descending);
    FilterPermutation(iter, s.funds.store.utxos, p);
    SumPermutation(Spendable(s, token, address), Filter(s.funds.store.utxos, p), UtxoValue());
  }

  lemma {:induction false} FilterTwice<T(!new)>(s: seq<T>, p: T -> bool, q: T -> bool, both: T -> bool)
    requires forall x :: both(x) <==> p(x) && q(x)
    ensures Filter(Filter(s, p), q) == Filter(s, both)
  {
    if s != [] {
      FilterTwice(s[1..], p, q, both);
      assert p(s[0]) ==> ([s[0]] + Filter(s[1..], p))[1..] == Filter(s[1..], p);
    }
  }

  /** The input repeats one of them. */
  ghost predicate SpendsFunds(s: WalletStorage, token: Uid, address: Option<string>, i: DataInput) {
    exists u :: u in s.funds.store.utxos && SpendsUtxo(i, u) && IsSpendable(s, token, address)(u)
  }

  lemma FundsAreInStore(s: WalletStorage, token: Uid, address: Option<string>, i: DataInput)
    requires SpendsFunds(s, token, address, i)
    ensures i.token == token && i.id !in s.funds.selected && InStore(s, i) && i.authorities == 0
  {
    var u :| u in s.funds.store.utxos && SpendsUtxo(i, u) && IsSpendable(s, token, address)(u);
    assert IsRipe(s, u);
  }

  lemma SpendableIsPicked(s: WalletStorage, token: Uid, address: Option<string>, us: seq<Utxo>)
    requires IsSubsequence(us, Spendable(s, token, address))
    ensures PickedFrom(s, token, Map(us, InputFrom()))
    ensures forall i :: i in Map(us, InputFrom()) ==> i.authorities == 0 && SpendsFunds(s, token, address, i)
    ensures Sum(Map(us, InputFrom()), InputFunds(token)) == Sum(us, UtxoValue())
  {
    var all := Selection(s.funds, AmountOptions(token, address));
    SelectionMeetsOptions(s.funds, AmountOptions(token, address));
    FilterAll(all, NoAuthority());
    SubsequenceCounts(us, all);
    forall u | u in us ensures u in all {
      assert u in multiset(us);
      assert u in multiset(all);
    }
    InputsFromUtxos(us, token);
    var ins := Map(us, InputFrom());
    forall i | i in ins ensures SpendsFunds(s, token, address, i) {
      var k :| 0 <= k < |ins| && ins[k] == i;
      assert us[k] in us;
      SpendableFields(s, token, address, us[k]);
      assert SpendsUtxo(i, us[k]);
    }
    forall i | i in ins ensures i.token == token && i.id !in s.funds.selected && InStore(s, i) && i.authorities == 0 {
      FundsAreInStore(s, token, address, i);
    }
    if UniqueOutpoints(s.funds) {
      PickedOnce(s, AmountOptions(token, address), us);
      assert Map(ins, InputIdOf()) == Map(us, UtxoIdOf());
    }
  }

  lemma PickedOnce(s: WalletStorage, o: FilterOptions, us: seq<Utxo>)
    requires UniqueOutpoints(s.funds) && IsSubsequence(us, Selection(s.funds, o)) && o.onlyAvailable
    ensures Distinct(Map(us, UtxoIdOf()))
  {
    SelectionIsAvailable(s.funds, o);
    SubsequenceMap(us, Selection(s.funds, o), UtxoIdOf());
    SubsequenceDistinct(Map(us, UtxoIdOf()), Map(Selection(s.funds, o), UtxoIdOf()));
  }

  /** `getUtxosForAmount`: succeeds exactly when the spendable funds reach a positive amount. */
  method GetUtxosForAmount(s: WalletStorage, amount: int, token: Uid, address: Option<string>)
    returns (r: Option<(seq<Utxo>, nat)>)
    ensures r.Some? <==> amount > 0 && Sum(Spendable(s, token, address), UtxoValue()) >= amount
    ensures r.Some? ==>
      && r.value.0 == UtxoSelection.Scan(Spendable(s, token, address), [], amount)
      && Sum(r.value.0, UtxoValue()) == amount + r.value.1
      && IsSubsequence(r.value.0, Spendable(s, token, address))
  {
    var selection := SelectAvailable(s.funds, AmountOptions(token, address));
    var utxos := Filter(selection.value, NoAuthority());
    var chosen := UtxoSelection.SelectForAmount(utxos, amount);
    r := if chosen.Ok? then Some(chosen.value) else None;
  }

  /** What `getAuthorityUtxo` asks the storage for: every such utxo, or one. */
  function AuthoritySearch(token: Uid, mask: nat, address: Option<string>, many: bool, onlyAvailable: bool): FilterOptions {
    DefaultOptions(token).(authorities := mask, maxUtxos := if many then 0 else 1, filterAddress := address, onlyAvailable := onlyAvailable)
  }

  function AuthorityOptions(token: Uid, mask: nat, address: Option<string>): FilterOptions {
    AuthoritySearch(token, mask, address, false, true)
  }

  /** Among authorities, mint or melt. */
  predicate Names(authority: string, authorities: nat) {
    (authority == "mint" && HasMint(authorities)) || (authority == "melt" && HasMelt(authorities))
  }

  /** A utxo with the authority, at the asked address, and free to use if that is asked. */
  ghost predicate IsCarrier(s: WalletStorage, u: Utxo, token: Uid, authority: string, address: Option<string>, onlyAvailable: bool) {
    u.token == token && Names(authority, u.authorities) && AtAddress(s.funds, address, u) && (onlyAvailable ==> Usable(s.funds, u))
  }

  /** No utxo of the wallet that is free to use carries the authority. */
  ghost predicate NoAuthorityFor(s: WalletStorage, token: Uid, authority: string, address: Option<string>) {
    forall u :: u in s.funds.store.utxos ==> !IsCarrier(s, u, token, authority, address, true)
  }

  lemma CarrierMatches(s: WalletStorage, u: Utxo, token: Uid, authority: string, address: Option<string>, many: bool, onlyAvailable: bool)
    requires authority in {"mint", "melt"}
    ensures IsCarrier(s, u, token, authority, address, onlyAvailable)
       <==> Matches(u, s.funds.store, WrappedOptions(s.funds, AuthoritySearch(token, AuthorityMask(authority), address, many, onlyAvailable)))
  {
    EligibleMatches(s.funds, AuthoritySearch(token, AuthorityMask(authority), address, many, onlyAvailable), u);
  }

  /** A selection that asks for a single utxo is empty only if nothing matches. */
  lemma NothingSelected(s: UtxoStore.Storage, o: FilterOptions)
    requires Selection(s, o) == [] && o.maxUtxos == 1 && o.targetAmount == 0 && o.maxAmount == 0 && o.order == Unordered
    ensures forall u :: u in s.store.utxos ==> !Matches(u, s.store, WrappedOptions(s, o))
  {
    SelectionIsExhaustive(s.store.utxos, s.store, WrappedOptions(s, o), 0, 0);
    forall u | u in s.store.utxos ensures !Matches(u, s.store, WrappedOptions(s, o)) {
      assert u !in Filter(s.store.utxos, MatchesIn(s.store, WrappedOptions(s, o)));
    }
  }

  lemma AtMostOne(s: UtxoStore.Storage, o: FilterOptions)
    requires o.maxUtxos == 1 && o.targetAmount == 0
    ensures |Selection(s, o)| <= 1
  {
    SelectionStopsInTime(Ordered(s.store.utxos, o.order), s.store, WrappedOptions(s, o), 0, 0);
  }

  /** All utxos of the store that carry the authority, or at most one of them and none only if there is
      none. */
  ghost predicate Carriers(s: WalletStorage, token: Uid, authority: string, address: Option<string>, many: bool, onlyAvailable: bool, us: seq<Utxo>) {
    && (forall u :: u in us ==> u in s.funds.store.utxos && IsCarrier(s, u, token, authority, address, onlyAvailable))
    && (many ==> forall u :: u in s.funds.store.utxos && IsCarrier(s, u, token, authority, address, onlyAvailable) ==> u in us)
    && (!many ==> |us| <= 1)
    && (us == [] ==> forall u :: u in s.funds.store.utxos ==> !IsCarrier(s, u, token, authority, address, onlyAvailable))
  }

  /** `getAuthorityUtxo`: nothing for an authority that is neither mint nor melt, where the source
      throws. */
  method GetAuthorityUtxo(s: WalletStorage, token: Uid, authority: string, address: Option<string>, many: bool, onlyAvailable: bool)
    returns (r: Option<seq<Utxo>>)
    ensures r.Some? <==> authority in {"mint", "melt"}
    ensures r.Some? ==> r.value == Selection(s.funds, AuthoritySearch(token, AuthorityMask(authority), address, many, onlyAvailable))
    ensures r.Some? ==> Carriers(s, token, authority, address, many, onlyAvailable, r.value)
  {
    if authority != "mint" && authority != "melt" {
      return None;
    }
    var options := AuthoritySearch(token, AuthorityMask(authority), address, many, onlyAvailable);
    var selection := SelectAvailable(s.funds, options);
    AuthoritiesFound(s, token, authority, address, many, onlyAvailable);
    r := Some(selection.value);
  }

  lemma AuthoritiesFound(s: WalletStorage, token: Uid, authority: string, address: Option<string>, many: bool, onlyAvailable: bool)
    requires authority in {"mint", "melt"}
    ensures Carriers(s, token, authority, address, many, onlyAvailable,
                     Selection(s.funds, AuthoritySearch(token, AuthorityMask(authority), address, many, onlyAvailable)))
  {
    var o := AuthoritySearch(token, AuthorityMask(authority), address, many, onlyAvailable);
    var r := Selection(s.funds, o);
    forall u: Utxo
      ensures IsCarrier(s, u, token, authority, address, onlyAvailable) <==> Matches(u, s.funds.store, WrappedOptions(s.funds, o))
    {
      CarrierMatches(s, u, token, authority, address, many, onlyAvailable);
    }
    SelectionMatches(s.funds.store.utxos, s.funds.store, WrappedOptions(s.funds, o), 0, 0);
    if many {
      SelectionIsExhaustive(s.funds.store.utxos, s.funds.store, WrappedOptions(s.funds, o), 0, 0);
    } else {
      AtMostOne(s.funds, o);
      if r == [] {
        NothingSelected(s.funds, o);
      }
    }
  }

  /** The one free authority utxo a grant spends. */
  lemma GrantedIsPicked(s: WalletStorage, token: Uid, authority: string, address: Option<string>)
    requires authority in {"mint", "melt"}
    ensures var r := Selection(s.funds, AuthorityOptions(token, AuthorityMask(authority), address));
      && |r| <= 1 && (r == [] <==> NoAuthorityFor(s, token, authority, address))
      && (r != [] ==> IsCarrier(s, r[0], token, authority, address, true))
      && (r != [] ==> r[0] in s.funds.store.utxos && PickedFrom(s, token, [InputFromUtxo(r[0])]))
  {
    AuthoritiesFound(s, token, authority, address, false, true);
    var r := Selection(s.funds, AuthorityOptions(token, AuthorityMask(authority), address));
    if r != [] {
      assert r[0] in r;
      assert SpendsUtxo(InputFromUtxo(r[0]), r[0]) && IsRipe(s, r[0]);
    }
  }

  /** The source tells mint from everything else. */
  function AuthorityMask(authority: string): nat {
    if authority == "mint" then TOKEN_MINT_MASK else TOKEN_MELT_MASK
  }

  class HathorWallet {
    var storage: WalletStorage

    constructor (storage: WalletStorage)
      ensures this.storage == storage
    {
      this.storage := storage;
    }

    /** `markUtxoSelected` through `utxoSelectAsInput`, the timeout aside. */
    method MarkUtxoSelected(id: UtxoId, value: bool)
      modifies this
      ensures value ==> storage == WithMarks(old(storage), Marked(old(storage), [id]))
      ensures !value ==> storage == WithMarks(old(storage), old(storage.funds.selected) - set i | i in [id] && Known(old(storage), i))
    {
      var resolved := Resolve(storage, id);
      ghost var marks := storage.funds.selected;
      if resolved.None? {
        assert storage == WithMarks(storage, marks);
        return;
      }
      if value && Spent(resolved.value) {
        assert storage == WithMarks(storage, marks);
        return;
      }
      if value {
        storage := WithMarks(storage, storage.funds.selected + {id});
      } else {
        storage := WithMarks(storage, storage.funds.selected - {id});
      }
    }

    /** The marking loop every selection of the builder ends with; it also builds the inputs. */
    method MarkAndConvert(utxos: seq<Utxo>) returns (inputs: seq<DataInput>)
      modifies this
      ensures inputs == Map(utxos, InputFrom())
      ensures storage == WithMarks(old(storage), Marked(old(storage), Map(inputs, InputIdOf())))
    {
      inputs := [];
      assert storage == WithMarks(old(storage), Marked(old(storage), Map(inputs, InputIdOf())));
      for k := 0 to |utxos|
        invariant inputs == Map(utxos[..k], InputFrom())
        invariant storage == WithMarks(old(storage), Marked(old(storage), Map(inputs, InputIdOf())))
      {
        MarkUtxoSelected(utxos[k].id, true);
        assert utxos[..k+1] == utxos[..k] + [utxos[k]];
        MarkedPush(old(storage), Map(inputs, InputIdOf()), utxos[k].id);
        MapPush(inputs, InputFromUtxo(utxos[k]), InputIdOf());
        inputs := inputs + [InputFromUtxo(utxos[k])];
      }
      assert utxos[..|utxos|] == utxos;
    }

    /** `getUtxosForAmount` and the marking loop after it. */
    method SpendForAmount(amount: int, token: Uid, address: Option<string>) returns (r: Option<(seq<DataInput>, nat)>)
      modifies this
      ensures r.Some? <==> amount > 0 && Sum(Spendable(old(storage), token, address), UtxoValue()) >= amount
      ensures r.Some? ==>
        && r.value.0 == Map(UtxoSelection.Scan(Spendable(old(storage), token, address), [], amount), InputFrom())
        && PickedFrom(old(storage), token, r.value.0)
        && (forall i :: i in r.value.0 ==> i.authorities == 0 && SpendsFunds(old(storage), token, address, i))
        && Sum(r.value.0, InputFunds(token)) == amount + r.value.1
        && storage == WithMarks(old(storage), Marked(old(storage), Map(r.value.0, InputIdOf())))
      ensures r.None? ==> storage == old(storage)
    {
      var utxos := GetUtxosForAmount(storage, amount, token, address);
      if utxos.None? {
        return None;
      }
      SpendableIsPicked(storage, token, address, utxos.value.0);
      var inputs := MarkAndConvert(utxos.value.0);
      r := Some((inputs, utxos.value.1));
    }

    /** The failure path of `build`: every input made so far is released. */
    method Release(inputs: seq<DataInput>)
      modifies this
      ensures storage == WithMarks(old(storage), old(storage.funds.selected) - set id | id in Map(inputs, InputIdOf()) && Known(old(storage), id))
    {
      assert storage == WithMarks(storage, storage.funds.selected - {});
      for k := 0 to |inputs|
        invariant storage == WithMarks(old(storage),
          old(storage.funds.selected) - set id | id in Map(inputs[..k], InputIdOf()) && Known(old(storage), id))
      {
        MarkUtxoSelected(inputs[k].id, false);
        assert inputs[..k+1] == inputs[..k] + [inputs[k]];
        MapPush(inputs[..k], inputs[k], InputIdOf());
        ReleasedPush(old(storage), Map(inputs[..k], InputIdOf()), inputs[k].id);
      }
      assert inputs[..|inputs|] == inputs;
    }
  }

  /** Marks do not change what the history knows. */
  lemma MarksKeepHistory(s: WalletStorage, marks: set<UtxoId>)
    ensures forall id :: Resolve(WithMarks(s, marks), id) == Resolve(s, id)
  {
  }

  lemma MarkedPush(s: WalletStorage, ids: seq<UtxoId>, id: UtxoId)
    ensures Marked(WithMarks(s, Marked(s, ids)), [id]) == Marked(s, ids + [id])
  {
    MarksKeepHistory(s, Marked(s, ids));
  }

  lemma ReleasedPush(s: WalletStorage, ids: seq<UtxoId>, id: UtxoId)
    ensures var released := s.funds.selected - set i | i in ids && Known(s, i);
      released - (set i | i in [id] && Known(WithMarks(s, released), i)) == s.funds.selected - set i | i in ids + [id] && Known(s, i)
  {
    MarksKeepHistory(s, s.funds.selected - set i | i in ids && Known(s, i));
  }
}
