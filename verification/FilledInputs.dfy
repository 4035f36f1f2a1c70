/** When the inputs of a filled transaction are distinct: `fillTx` (src/storage/storage.ts:806-830)
    selects unmarked utxos without looking at the inputs the transaction already has. */
module FilledInputs {
  import opened Wrappers
  import opened SeqSums
  import opened WalletTypes
  import opened UtxoStore
  import opened UtxoSelection
  import opened BalanceMatching

  /** Free funds of the token. */
  function Funding(s: Storage, token: Uid): Utxo -> bool {
    (u: Utxo) => Free(s, token, u) && u.authorities == 0
  }

  /** The first elements with a property whose values reach `n`. */
  function FirstWorth(xs: seq<Utxo>, p: Utxo -> bool, n: int): seq<Utxo> {
    if xs == [] || n <= 0 then []
    else if p(xs[0]) then [xs[0]] + FirstWorth(xs[1..], p, n - xs[0].value)
    else FirstWorth(xs[1..], p, n)
  }

  /** What the elements with a property before a position are worth. */
  function WorthBefore(xs: seq<Utxo>, p: Utxo -> bool, k: nat): int
    requires k <= |xs|
  {
    Sum(Filter(xs[..k], p), UtxoValue())
  }

  lemma {:induction false} TargetedSelection(iter: seq<Utxo>, store: Store, o: FilterOptions, p: Utxo -> bool, sum: int, num: nat)
    requires o.maxUtxos == 0 && o.maxAmount == 0 && o.targetAmount > 0 && sum < o.targetAmount && o.onlyAvailable
    requires forall u :: Matches(u, store, o) <==> p(u)
    ensures SelectFrom(iter, store, o, sum, num) == FirstWorth(iter, p, o.targetAmount - sum)
  {
    if iter != [] {
      var u := iter[0];
      if !p(u) {
        TargetedSelection(iter[1..], store, o, p, sum, num);
      } else if sum + u.value < o.targetAmount {
        assert UnlockedValue(store, o)(u) == u.value;
        TargetedSelection(iter[1..], store, o, p, sum + u.value, num + 1);
      } else {
        assert UnlockedValue(store, o)(u) == u.value;
        assert FirstWorth(iter[1..], p, o.targetAmount - sum - u.value) == [];
      }
    }
  }

  /** The funds chosen for a gap are the first free ones in store order that are worth it. */
  lemma FundsAreFirst(s: Storage, token: Uid, gap: int)
    ensures Chosen(s, token, 0, gap) == FirstWorth(s.store.utxos, Funding(s, token), gap)
  {
    if gap > 0 {
      var o := WrappedOptions(s, MatchOptions(token, 0, gap));
      FundingMatch(s, token, gap);
      TargetedSelection(s.store.utxos, s.store, o, Funding(s, token), 0, 0);
    }
  }

  lemma FundingMatch(s: Storage, token: Uid, gap: int)
    ensures forall u :: Matches(u, s.store, WrappedOptions(s, MatchOptions(token, 0, gap))) <==> Funding(s, token)(u)
  {
  }

  lemma WorthShift(xs: seq<Utxo>, p: Utxo -> bool, k: nat)
    requires 1 <= k <= |xs|
    ensures WorthBefore(xs, p, k) == (if p(xs[0]) then xs[0].value else 0) + WorthBefore(xs[1..], p, k - 1)
  {
    assert xs[..k] == [xs[0]] + xs[1..][..k-1];
    FilterAppend([xs[0]], xs[1..][..k-1], p);
    assert [xs[0]][1..] == [];
    SumAppend(Filter([xs[0]], p), Filter(xs[1..][..k-1], p), UtxoValue());
  }

  /** An element is among the first worth `n` exactly when, at one of its positions, those before it
      are worth less. */
  lemma {:induction false} AmongWorth(xs: seq<Utxo>, p: Utxo -> bool, n: int, x: Utxo)
    ensures x in FirstWorth(xs, p, n) <==> exists k :: 0 <= k < |xs| && xs[k] == x && p(x) && WorthBefore(xs, p, k) < n
  {
    if n <= 0 {
      forall k | 0 <= k < |xs| ensures WorthBefore(xs, p, k) >= 0 {
        SumNonNegative(Filter(xs[..k], p), UtxoValue());
      }
    } else if xs != [] {
      var n' := if p(xs[0]) then n - xs[0].value else n;
      AmongWorth(xs[1..], p, n', x);
      assert WorthBefore(xs, p, 0) == 0;
      if k :| 0 <= k < |xs[1..]| && xs[1..][k] == x && p(x) && WorthBefore(xs[1..], p, k) < n' {
        WorthShift(xs, p, k + 1);
        assert xs[k+1] == x && WorthBefore(xs, p, k + 1) < n;
      }
      if k :| 1 <= k < |xs| && xs[k] == x && p(x) && WorthBefore(xs, p, k) < n {
        WorthShift(xs, p, k);
        assert xs[1..][k-1] == x && WorthBefore(xs[1..], p, k - 1) < n';
      }
    }
  }

  // ----- which utxos of the store are added -----

  predicate FundsInReach(s: Storage, token: Uid, gap: int, k: nat)
    requires k < |s.store.utxos|
  {
    Funding(s, token)(s.store.utxos[k]) && WorthBefore(s.store.utxos, Funding(s, token), k) < gap
  }

  predicate AuthorityInReach(s: Storage, token: Uid, melt: bool, gap: int, k: nat)
    requires k < |s.store.utxos|
  {
    Holder(s, token, melt)(s.store.utxos[k]) && Preceding(s.store.utxos, Holder(s, token, melt), k) < gap
  }

  /** The utxo at `k` is added: what precedes it leaves the gap in funds, or in one of the
      authorities, open. */
  predicate InReach(s: Storage, token: Uid, both: bool, b: Balance, k: nat)
    requires k < |s.store.utxos|
  {
    FundsInReach(s, token, b.funds, k) || (both && (AuthorityInReach(s, token, false, b.mint, k) || AuthorityInReach(s, token, true, b.melt, k)))
  }

  lemma ChosenFunds(s: Storage, token: Uid, gap: int, u: Utxo)
    ensures u in Chosen(s, token, 0, gap) <==> exists k :: 0 <= k < |s.store.utxos| && s.store.utxos[k] == u && FundsInReach(s, token, gap, k)
  {
    FundsAreFirst(s, token, gap);
    AmongWorth(s.store.utxos, Funding(s, token), gap, u);
    if k :| 0 <= k < |s.store.utxos| && s.store.utxos[k] == u && WorthBefore(s.store.utxos, Funding(s, token), k) < gap && Funding(s, token)(u) {
      assert FundsInReach(s, token, gap, k);
    }
  }

  lemma ChosenAuthority(s: Storage, token: Uid, melt: bool, gap: int, u: Utxo)
    ensures u in Chosen(s, token, AuthorityOf(melt), gap)
       <==> exists k :: 0 <= k < |s.store.utxos| && s.store.utxos[k] == u && AuthorityInReach(s, token, melt, gap, k)
  {
    var p := Holder(s, token, melt);
    ChosenAreFirst(s, token, melt, gap);
    AmongFirst(s.store.utxos, p, gap, u);
    if k :| 0 <= k < |s.store.utxos| && s.store.utxos[k] == u && p(u) && Preceding(s.store.utxos, p, k) < gap {
      assert AuthorityInReach(s, token, melt, gap, k);
    }
  }

  predicate Both(token: Uid, skipAuthorities: bool) { !skipAuthorities && token != HTR }

  /** Everything a fill picks. */
  function AllPicked(s: Storage, token: Uid, both: bool, b: Balance): seq<Utxo> {
    Chosen(s, token, 0, b.funds) + (Picked(s, token, 1, b.mint, both) + Picked(s, token, 2, b.melt, both))
  }

  lemma PickedIffInReach(s: Storage, token: Uid, both: bool, b: Balance, u: Utxo)
    ensures u in AllPicked(s, token, both, b) <==> exists k :: 0 <= k < |s.store.utxos| && s.store.utxos[k] == u && InReach(s, token, both, b, k)
  {
    ChosenFunds(s, token, b.funds, u);
    ChosenAuthority(s, token, false, b.mint, u);
    ChosenAuthority(s, token, true, b.melt, u);
    InParts(Chosen(s, token, 0, b.funds), Picked(s, token, 1, b.mint, both), Picked(s, token, 2, b.melt, both), u);
    ReachParts(s, token, both, b, u);
  }

  lemma InParts(f: seq<Utxo>, a: seq<Utxo>, m: seq<Utxo>, u: Utxo)
    ensures u in f + (a + m) <==> u in f || u in a || u in m
  {
  }

  lemma ReachParts(s: Storage, token: Uid, both: bool, b: Balance, u: Utxo)
    ensures (exists k :: 0 <= k < |s.store.utxos| && s.store.utxos[k] == u && InReach(s, token, both, b, k)) <==>
      || (exists k :: 0 <= k < |s.store.utxos| && s.store.utxos[k] == u && FundsInReach(s, token, b.funds, k))
      || (both && exists k :: 0 <= k < |s.store.utxos| && s.store.utxos[k] == u && AuthorityInReach(s, token, false, b.mint, k))
      || (both && exists k :: 0 <= k < |s.store.utxos| && s.store.utxos[k] == u && AuthorityInReach(s, token, true, b.melt, k))
  {
    var xs := s.store.utxos;
    if k :| 0 <= k < |xs| && xs[k] == u && FundsInReach(s, token, b.funds, k) {
      assert InReach(s, token, both, b, k);
    }
    if both {
      if k :| 0 <= k < |xs| && xs[k] == u && AuthorityInReach(s, token, false, b.mint, k) {
        assert InReach(s, token, both, b, k);
      }
      if k :| 0 <= k < |xs| && xs[k] == u && AuthorityInReach(s, token, true, b.melt, k) {
        assert InReach(s, token, both, b, k);
      }
    }
  }

  // ----- the inputs of the filled transaction -----

  function IdsOf(tx: Proposal): seq<UtxoId> { Map(tx.inputs, InputIdOf()) }

  lemma IdsOfFill(s: Storage, token: Uid, skipAuthorities: bool, b: Balance, p: Proposal, funds: Proposal, mint: Proposal, melt: Proposal)
    requires Matched(s, token, b, skipAuthorities, p, funds, mint, melt)
    ensures IdsOf(p) == Map(AllPicked(s, token, Both(token, skipAuthorities), b), UtxoIdOf())
  {
  }

  /** An input of the transaction is added again: it is a utxo of the store that is in reach. */
  ghost predicate Respent(s: Storage, token: Uid, both: bool, b: Balance, tx: Proposal) {
    exists k :: 0 <= k < |s.store.utxos| && s.store.utxos[k].id in IdsOf(tx) && InReach(s, token, both, b, k)
  }

  lemma SharedIffRespent(s: Storage, token: Uid, both: bool, b: Balance, tx: Proposal)
    ensures Meet(IdsOf(tx), Map(AllPicked(s, token, both, b), UtxoIdOf())) <==> Respent(s, token, both, b, tx)
  {
    var us := AllPicked(s, token, both, b);
    if id :| id in IdsOf(tx) && id in Map(us, UtxoIdOf()) {
      var i :| 0 <= i < |us| && Map(us, UtxoIdOf())[i] == id;
      PickedIffInReach(s, token, both, b, us[i]);
      assert us[i] in us;
    }
    if k :| 0 <= k < |s.store.utxos| && s.store.utxos[k].id in IdsOf(tx) && InReach(s, token, both, b, k) {
      var u := s.store.utxos[k];
      PickedIffInReach(s, token, both, b, u);
      var i :| 0 <= i < |us| && us[i] == u;
      assert Map(us, UtxoIdOf())[i] == u.id;
    }
  }

  ghost predicate Meet<T(!new)>(a: seq<T>, b: seq<T>) {
    exists x :: x in a && x in b
  }

  lemma DistinctFill(tx: Proposal, p: Proposal)
    ensures Distinct(IdsOf(Combine(tx, p))) <==> Distinct(IdsOf(tx)) && Distinct(IdsOf(p)) && !Meet(IdsOf(tx), IdsOf(p))
  {
    assert IdsOf(Combine(tx, p)) == IdsOf(tx) + IdsOf(p);
    DistinctParts(IdsOf(tx), IdsOf(p));
  }

  lemma DistinctParts<T(!new)>(a: seq<T>, b: seq<T>)
    ensures Distinct(a + b) <==> Distinct(a) && Distinct(b) && !Meet(a, b)
  {
    var c := a + b;
    if Distinct(c) {
      assert a == c[..|a|] && b == c[|a|..];
      forall x | x in a ensures x !in b {
        var i :| 0 <= i < |a| && a[i] == x;
        forall j | 0 <= j < |b| ensures b[j] != x {
          assert c[i] == x && c[|a| + j] == b[j];
        }
      }
    } else if Distinct(a) && Distinct(b) && !Meet(a, b) {
      DistinctAppend(a, b);
    }
  }

  /** One utxo holds both authorities and is in reach of both selections. */
  ghost predicate MixedTwice(s: Storage, token: Uid, both: bool, b: Balance) {
    both && exists k :: 0 <= k < |s.store.utxos| && MixedInReach(s, token, b, k)
  }

  lemma AddedAreDistinct(s: Storage, token: Uid, skipAuthorities: bool, b: Balance, p: Proposal, funds: Proposal, mint: Proposal, melt: Proposal)
    requires UniqueOutpoints(s) && Matched(s, token, b, skipAuthorities, p, funds, mint, melt)
    ensures Distinct(IdsOf(p)) <==> !MixedTwice(s, token, Both(token, skipAuthorities), b)
  {
    if Both(token, skipAuthorities) {
      DoubleSpendIffSharedAuthority(s, token, b, p, funds, mint, melt);
    } else {
      IdsOfFill(s, token, skipAuthorities, b, p, funds, mint, melt);
      var us := Chosen(s, token, 0, b.funds);
      assert AllPicked(s, token, false, b) == us;
      ChosenAreDistinct(s, token, 0, b.funds);
    }
  }

  lemma AddedAgainIffRespent(s: Storage, token: Uid, skipAuthorities: bool, b: Balance, tx: Proposal,
                             p: Proposal, funds: Proposal, mint: Proposal, melt: Proposal)
    requires Matched(s, token, b, skipAuthorities, p, funds, mint, melt)
    ensures Meet(IdsOf(tx), IdsOf(p)) <==> Respent(s, token, Both(token, skipAuthorities), b, tx)
  {
    IdsOfFill(s, token, skipAuthorities, b, p, funds, mint, melt);
    SharedIffRespent(s, token, Both(token, skipAuthorities), b, tx);
  }

  /** The filled transaction spends no outpoint twice exactly when it did not before, no mixed
      authority is reached twice, and none of its own inputs is an unmarked utxo that the selection
      reaches: the funds before it in the store are worth less than the gap in funds, or it holds an
      authority and fewer holders precede it than are missing. */
  lemma FilledInputsDistinctIff(s: Storage, token: Uid, tx: Proposal, skipAuthorities: bool,
                                p: Proposal, funds: Proposal, mint: Proposal, melt: Proposal)
    requires UniqueOutpoints(s) && Matched(s, token, TokenBalance(token, tx), skipAuthorities, p, funds, mint, melt)
    ensures Distinct(IdsOf(Combine(tx, p))) <==>
      && Distinct(IdsOf(tx))
      && !MixedTwice(s, token, Both(token, skipAuthorities), TokenBalance(token, tx))
      && !Respent(s, token, Both(token, skipAuthorities), TokenBalance(token, tx), tx)
  {
    var b := TokenBalance(token, tx);
    DistinctFill(tx, p);
    AddedAgainIffRespent(s, token, skipAuthorities, b, tx, p, funds, mint, melt);
    AddedAreDistinct(s, token, skipAuthorities, b, p, funds, mint, melt);
  }

  /** Marking every input beforehand is enough to keep them from being added again. */
  lemma MarkedInputsAreNotRespent(s: Storage, token: Uid, both: bool, b: Balance, tx: Proposal)
    requires forall id :: id in IdsOf(tx) ==> id in s.selected
    ensures !Respent(s, token, both, b, tx)
  {
  }

  /** Without marks it happens: a transaction that spends the wallet's only utxo, worth five, and
      pays ten is filled with that very utxo. */
  lemma OwnInputIsAddedAgain() returns (s: Storage, token: Uid, tx: Proposal, p: Proposal)
    ensures UniqueOutpoints(s) && s.selected == {}
    ensures Matched(s, token, TokenBalance(token, tx), true, p, p, Proposal([], []), Proposal([], []))
    ensures Distinct(IdsOf(tx)) && |tx.inputs| == 1 && p.inputs == tx.inputs
    ensures TokenBalance(token, Combine(tx, p)).funds == 0
  {
    token := Uid("ab");
    var u := Utxo(UtxoId("cd", 0), token, "addr", 5, 0, None, 1, None, false, None, None);
    s := Storage(Store([u], 0, 0, map[]), {}, 0);
    tx := Proposal([InputFromUtxo(u)], [DataOutput(AddressOutput, 10, token, 0, "other", None, false)]);
    p := Proposal([InputFromUtxo(u)], []);
    FiveMissing(token, u, tx.outputs[0]);
    FundsAreFirst(s, token, 5);
    assert FirstWorth([u], Funding(s, token), 5) == [u] + [];
    assert p.inputs == Map([u], InputFrom());
    OnlyFundsMatched(s, token, TokenBalance(token, tx), true, p);
    FilledBalance(s, token, tx, true, p, p, Proposal([], []), Proposal([], []));
  }

  lemma FiveMissing(token: Uid, u: Utxo, o: DataOutput)
    requires u.token == o.token == token && u.value == 5 && u.authorities == 0
    requires o.kind == AddressOutput && o.value == 10 && o.authorities == 0
    ensures TokenBalance(token, Proposal([InputFromUtxo(u)], [o])).funds == 5
    ensures Sum([InputFromUtxo(u)], InputFunds(token)) == 5
  {
    var i := InputFromUtxo(u);
    assert [i][1..] == [] && [o][1..] == [];
    assert Sum([i], InputFunds(token)) == InputFunds(token)(i) && Sum([o], OutputFunds(token)) == OutputFunds(token)(o);
  }

  // ----- a fill told by its fields -----

  lemma FreeMeans(s: Storage, token: Uid, u: Utxo)
    ensures Free(s, token, u) <==> u.token == token && Usable(s, u)
  {
    RipeIsUnlocked(u, s.store, WrappedOptions(s, DefaultOptions(token)));
  }

  /** An added input repeats a utxo of the token that is free to use: funds, or mint or melt if authorities
      are filled too. */
  ghost predicate IsAdded(s: Storage, token: Uid, both: bool, i: DataInput) {
    exists u :: u in s.store.utxos && SpendsUtxo(i, u) && u.token == token && Usable(s, u)
      && (u.authorities == 0 || (both && (HasMint(u.authorities) || HasMelt(u.authorities))))
  }

  /** An added output: funds, or one mint or melt authority, to the change address. */
  predicate IsAddedOutput(o: DataOutput, token: Uid, both: bool, address: string) {
    && o == DataOutput(AddressOutput, o.value, token, o.authorities, address, None, false)
    && ((o.authorities == 0 && o.value > 0) || (both && o.authorities == o.value && o.value in {1, 2}))
  }

  /** Only such inputs and outputs are added, and then the funds of the token balance. */
  ghost predicate FillTold(s: Storage, token: Uid, tx: Proposal, p: Proposal, both: bool, address: string) {
    && (forall i :: i in p.inputs ==> IsAdded(s, token, both, i))
    && (forall o :: o in p.outputs ==> IsAddedOutput(o, token, both, address))
    && Sum(tx.inputs, InputFunds(token)) + Sum(p.inputs, InputFunds(token))
       == Sum(tx.outputs, OutputFunds(token)) + Sum(p.outputs, OutputFunds(token))
  }

  lemma ChosenIsUsable(s: Storage, token: Uid, authorities: nat, gap: int, u: Utxo)
    requires authorities <= 2 && u in Chosen(s, token, authorities, gap)
    ensures u in s.store.utxos && u.token == token && Usable(s, u)
    ensures authorities == 0 ==> u.authorities == 0
    ensures authorities > 0 ==> HasMint(u.authorities) || HasMelt(u.authorities)
  {
    SelectionIsEligible(s, MatchOptions(token, authorities, gap));
  }

  lemma PartIsAdded(s: Storage, token: Uid, authorities: nat, gap: int, active: bool, both: bool, p: Proposal)
    requires authorities <= 2 && Part(s, token, authorities, gap, active, p) && (authorities > 0 ==> active == both)
    ensures forall i :: i in p.inputs ==> IsAdded(s, token, both, i)
  {
    forall i | i in p.inputs ensures IsAdded(s, token, both, i) {
      var k :| 0 <= k < |p.inputs| && p.inputs[k] == i;
      var u := Picked(s, token, authorities, gap, active)[k];
      assert active && u in Chosen(s, token, authorities, gap);
      ChosenIsUsable(s, token, authorities, gap, u);
      assert SpendsUtxo(i, u);
    }
  }

  /** An inactive part adds nothing. */
  lemma PartOutputs(s: Storage, token: Uid, authorities: nat, gap: int, both: bool, p: Proposal, address: string)
    requires 1 <= authorities <= 2 && Part(s, token, authorities, gap, both, p)
    requires forall o :: o in p.outputs ==> IsMatchChange(o, token, address)
    ensures forall o :: o in p.outputs ==> IsAddedOutput(o, token, both, address)
  {
    if !both {
      assert |p.inputs| == 0 && p.outputs == [];
    }
  }

  /** What `fillTx` adds. */
  lemma FillMeans(s: Storage, token: Uid, tx: Proposal, p: Proposal, skipAuthorities: bool, address: string,
                  funds: Proposal, mint: Proposal, melt: Proposal)
    requires Matched(s, token, TokenBalance(token, tx), skipAuthorities, p, funds, mint, melt)
    requires forall o :: o in p.outputs ==> IsMatchChange(o, token, address)
    requires TokenBalance(token, Combine(tx, p)).funds == 0
    ensures FillTold(s, token, tx, p, !skipAuthorities && token != Uid("00"), address)
  {
    FillInputs(s, token, TokenBalance(token, tx), skipAuthorities, p, funds, mint, melt);
    FillOutputs(s, token, TokenBalance(token, tx), skipAuthorities, p, funds, mint, melt, address);
    FillBalances(token, tx, p);
  }

  lemma FillInputs(s: Storage, token: Uid, b: Balance, skipAuthorities: bool, p: Proposal, funds: Proposal, mint: Proposal, melt: Proposal)
    requires Matched(s, token, b, skipAuthorities, p, funds, mint, melt)
    ensures forall i :: i in p.inputs ==> IsAdded(s, token, !skipAuthorities && token != Uid("00"), i)
  {
    var both := !skipAuthorities && token != Uid("00");
    PartIsAdded(s, token, 0, b.funds, true, both, funds);
    PartIsAdded(s, token, 1, b.mint, both, both, mint);
    PartIsAdded(s, token, 2, b.melt, both, both, melt);
    assert forall i :: i in p.inputs <==> i in funds.inputs || i in mint.inputs || i in melt.inputs;
  }

  lemma FillBalances(token: Uid, tx: Proposal, p: Proposal)
    requires TokenBalance(token, Combine(tx, p)).funds == 0
    ensures Sum(tx.inputs, InputFunds(token)) + Sum(p.inputs, InputFunds(token))
         == Sum(tx.outputs, OutputFunds(token)) + Sum(p.outputs, OutputFunds(token))
  {
    SumAppend(tx.inputs, p.inputs, InputFunds(token));
    SumAppend(tx.outputs, p.outputs, OutputFunds(token));
  }

  lemma FillOutputs(s: Storage, token: Uid, b: Balance, skipAuthorities: bool, p: Proposal, funds: Proposal, mint: Proposal,
                    melt: Proposal, address: string)
    requires Matched(s, token, b, skipAuthorities, p, funds, mint, melt)
    requires forall o :: o in p.outputs ==> IsMatchChange(o, token, address)
    ensures forall o :: o in p.outputs ==> IsAddedOutput(o, token, !skipAuthorities && token != Uid("00"), address)
  {
    var both := !skipAuthorities && token != Uid("00");
    assert forall o :: o in p.outputs <==> o in funds.outputs || o in mint.outputs || o in melt.outputs;
    PartOutputs(s, token, 1, b.mint, both, mint, address);
    PartOutputs(s, token, 2, b.melt, both, melt, address);
  }
}
