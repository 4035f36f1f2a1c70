/** Filling a partial transaction: `matchBalanceSelection`, `matchTokenBalance` and `fillTx` of
    src/storage/storage.ts, with `calculateTxBalanceToFillTx` of src/utils/transaction.ts. */
module BalanceMatching {
  import opened Wrappers
  import opened SeqSums
  import opened WalletTypes
  import opened UtxoStore
  import opened UtxoSelection

  datatype Balance = Balance(funds: int, mint: int, melt: int)

  datatype MatchError =
    | CannotChooseInputs
    | InsufficientFunds(found: int, requested: int)
    | AuthoritiesShouldBeExact
    | InvalidChangeAddress
    | TooManyInputsOrOutputs

  datatype Proposal = Proposal(inputs: seq<DataInput>, outputs: seq<DataOutput>)

  function MintInput(token: Uid): DataInput -> int {
    (i: DataInput) => if i.token == token && HasMint(i.authorities) then 1 else 0
  }

  function MeltInput(token: Uid): DataInput -> int {
    (i: DataInput) => if i.token == token && HasMelt(i.authorities) then 1 else 0
  }

  function MintOutput(token: Uid): DataOutput -> int {
    (o: DataOutput) => if o.kind != CreateTokenOutput && o.token == token && HasMint(o.authorities) then 1 else 0
  }

  function MeltOutput(token: Uid): DataOutput -> int {
    (o: DataOutput) => if o.kind != CreateTokenOutput && o.token == token && HasMelt(o.authorities) then 1 else 0
  }

  /** What the outputs of a token exceed its inputs by, in funds and in authorities. */
  function TokenBalance(token: Uid, tx: Proposal): Balance {
    Balance(Sum(tx.outputs, OutputFunds(token)) - Sum(tx.inputs, InputFunds(token)),
            Sum(tx.outputs, MintOutput(token)) - Sum(tx.inputs, MintInput(token)),
            Sum(tx.outputs, MeltOutput(token)) - Sum(tx.inputs, MeltInput(token)))
  }

  function Combine(a: Proposal, b: Proposal): Proposal {
    Proposal(a.inputs + b.inputs, a.outputs + b.outputs)
  }

  lemma BalanceAdds(token: Uid, a: Proposal, b: Proposal)
    ensures TokenBalance(token, Combine(a, b)) == Balance(
      TokenBalance(token, a).funds + TokenBalance(token, b).funds,
      TokenBalance(token, a).mint + TokenBalance(token, b).mint,
      TokenBalance(token, a).melt + TokenBalance(token, b).melt)
  {
    SumAppend(a.inputs, b.inputs, InputFunds(token));
    SumAppend(a.inputs, b.inputs, MintInput(token));
    SumAppend(a.inputs, b.inputs, MeltInput(token));
    SumAppend(a.outputs, b.outputs, OutputFunds(token));
    SumAppend(a.outputs, b.outputs, MintOutput(token));
    SumAppend(a.outputs, b.outputs, MeltOutput(token));
  }

  /** `calculateTxBalanceToFillTx` */
  method CalculateTxBalance(token: Uid, tx: Proposal) returns (b: Balance)
    ensures b == TokenBalance(token, tx)
  {
    var funds, mint, melt := 0, 0, 0;
    for k := 0 to |tx.outputs|
      invariant funds == Sum(tx.outputs[..k], OutputFunds(token))
      invariant mint == Sum(tx.outputs[..k], MintOutput(token))
      invariant melt == Sum(tx.outputs[..k], MeltOutput(token))
    {
      var o := tx.outputs[k];
      assert tx.outputs[..k+1] == tx.outputs[..k] + [o];
      SumPush(tx.outputs[..k], o, OutputFunds(token));
      SumPush(tx.outputs[..k], o, MintOutput(token));
      SumPush(tx.outputs[..k], o, MeltOutput(token));
      if o.kind == CreateTokenOutput || o.token != token {
        continue;
      }
      if o.authorities > 0 {
        AuthorityBits(o.authorities);
        if BitAnd(o.authorities, 1) > 0 {
          mint := mint + 1;
        }
        if BitAnd(o.authorities, 2) > 0 {
          melt := melt + 1;
        }
      } else {
        funds := funds + o.value;
      }
    }
    assert tx.outputs[..|tx.outputs|] == tx.outputs;
    ghost var outFunds, outMint, outMelt := funds, mint, melt;
    for k := 0 to |tx.inputs|
      invariant funds == outFunds - Sum(tx.inputs[..k], InputFunds(token))
      invariant mint == outMint - Sum(tx.inputs[..k], MintInput(token))
      invariant melt == outMelt - Sum(tx.inputs[..k], MeltInput(token))
    {
      var i := tx.inputs[k];
      assert tx.inputs[..k+1] == tx.inputs[..k] + [i];
      SumPush(tx.inputs[..k], i, InputFunds(token));
      SumPush(tx.inputs[..k], i, MintInput(token));
      SumPush(tx.inputs[..k], i, MeltInput(token));
      if i.token != token {
        continue;
      }
      if i.authorities > 0 {
        AuthorityBits(i.authorities);
        if BitAnd(i.authorities, 1) > 0 {
          mint := mint - 1;
        }
        if BitAnd(i.authorities, 2) > 0 {
          melt := melt - 1;
        }
      } else {
        funds := funds - i.value;
      }
    }
    assert tx.inputs[..|tx.inputs|] == tx.inputs;
    b := Balance(funds, mint, melt);
  }

  function MatchOptions(token: Uid, authorities: nat, singleBalance: int): FilterOptions {
    var base := DefaultOptions(token).(authorities := authorities, onlyAvailable := true);
    if authorities > 0 then base.(maxUtxos := singleBalance) else base.(targetAmount := singleBalance)
  }

  function Change(token: Uid, authorities: nat, value: int, address: string): DataOutput {
    DataOutput(AddressOutput, value, token, authorities, address, None, false)
  }

  /** What a matched utxo counts for: one authority, or its value. */
  function Weight(authorities: nat): Utxo -> int {
    (u: Utxo) => if authorities > 0 then 1 else u.value
  }

  /** What a proposal closes the gap by: funds in minus funds out, or utxos in minus outputs out. */
  function Closed(p: Proposal, token: Uid, authorities: nat): int {
    if authorities > 0 then |p.inputs| - |p.outputs|
    else Sum(p.inputs, InputFunds(token)) - Sum(p.outputs, OutputFunds(token))
  }

  /** The utxos chosen for a deficit; a surplus or an even balance chooses none. */
  function Chosen(s: Storage, token: Uid, authorities: nat, singleBalance: int): seq<Utxo> {
    if singleBalance > 0 then Selection(s, MatchOptions(token, authorities, singleBalance)) else []
  }

  method CollectInputs(utxos: seq<Utxo>, authorities: nat) returns (inputs: seq<DataInput>, found: int)
    ensures inputs == Map(utxos, InputFrom())
    ensures found == Sum(utxos, Weight(authorities))
  {
    inputs, found := [], 0;
    for k := 0 to |utxos|
      invariant found == Sum(utxos[..k], Weight(authorities))
      invariant inputs == Map(utxos[..k], InputFrom())
    {
      assert utxos[..k+1] == utxos[..k] + [utxos[k]];
      SumPush(utxos[..k], utxos[k], Weight(authorities));
      found := if authorities > 0 then found + 1 else found + utxos[k].value;
      inputs := inputs + [InputFromUtxo(utxos[k])];
    }
    assert utxos[..|utxos|] == utxos;
  }

  method AuthorityChange(token: Uid, authorities: nat, count: nat, changeAddress: string) returns (outputs: seq<DataOutput>)
    ensures |outputs| == count
    ensures forall o :: o in outputs ==> o == Change(token, authorities, authorities, changeAddress)
  {
    outputs := [];
    for i := 0 to count
      invariant |outputs| == i
      invariant forall o :: o in outputs ==> o == Change(token, authorities, authorities, changeAddress)
    {
      outputs := outputs + [Change(token, authorities, authorities, changeAddress)];
    }
  }

  /** Why a gap was not closed: inputs may not be chosen, they fall short, or change has no valid address. */
  predicate GapFails(s: Storage, token: Uid, authorities: nat, gap: int, changeAddressValid: bool, chooseInputs: bool, e: MatchError) {
    var found := Sum(Chosen(s, token, authorities, gap), Weight(authorities));
    || (e == CannotChooseInputs && gap > 0 && !chooseInputs)
    || (e == InsufficientFunds(found, gap) && chooseInputs && found < gap)
    || (e == InvalidChangeAddress && !changeAddressValid && (gap < 0 || (authorities == 0 && found > gap > 0)))
  }

  /** Change of the token to the given address; an authority carries its mask as value. */
  predicate IsMatchChange(o: DataOutput, token: Uid, address: string) {
    && o == Change(token, o.authorities, o.value, address)
    && (if o.authorities > 0 then o.value == o.authorities <= 2 else o.value > 0)
  }

  method MatchBalanceSelection(s: Storage, singleBalance: int, token: Uid, authorities: nat,
                               changeAddress: string, changeAddressValid: bool, chooseInputs: bool)
    returns (r: Result<Proposal, MatchError>)
    requires authorities == 0 || authorities == 1 || authorities == 2
    ensures r.Ok? ==> Closed(r.value, token, authorities) == singleBalance
    ensures r.Ok? ==> r.value.inputs == Map(Chosen(s, token, authorities, singleBalance), InputFrom())
    ensures r.Ok? ==> forall o :: o in r.value.outputs ==>
      && o == Change(token, authorities, o.value, changeAddress)
      && (if authorities > 0 then o.value == authorities else o.value > 0)
    ensures r.Ok? && singleBalance > 0 ==> chooseInputs && |r.value.outputs| <= 1
    ensures r != Err(AuthoritiesShouldBeExact)
    ensures chooseInputs && changeAddressValid ==>
      (r.Ok? <==> singleBalance <= 0 || Sum(Chosen(s, token, authorities, singleBalance), Weight(authorities)) >= singleBalance)
    ensures r.Err? ==> GapFails(s, token, authorities, singleBalance, changeAddressValid, chooseInputs, r.error)
  {
    var newInputs: seq<DataInput> := [];
    var newOutputs: seq<DataOutput> := [];
    if singleBalance > 0 {
      if !chooseInputs {
        return Err(CannotChooseInputs);
      }
      var foundAmount: int;
      newInputs, foundAmount := PickInputs(s, singleBalance, token, authorities);
      if foundAmount < singleBalance {
        return Err(InsufficientFunds(foundAmount, singleBalance));
      } else if foundAmount > singleBalance {
        if authorities > 0 {
          return Err(AuthoritiesShouldBeExact);
        }
        if !changeAddressValid {
          return Err(InvalidChangeAddress);
        }
        newOutputs := [Change(token, 0, foundAmount - singleBalance, changeAddress)];
        ChangeFunds(token, foundAmount - singleBalance, changeAddress);
      }
    } else if singleBalance < 0 {
      if !changeAddressValid {
        return Err(InvalidChangeAddress);
      }
      if authorities > 0 {
        newOutputs := AuthorityChange(token, authorities, -singleBalance, changeAddress);
      } else {
        newOutputs := [Change(token, 0, -singleBalance, changeAddress)];
        ChangeFunds(token, -singleBalance, changeAddress);
      }
    }
    r := Ok(Proposal(newInputs, newOutputs));
  }

  /** The inputs chosen for a deficit, and what they count for. */
  method PickInputs(s: Storage, singleBalance: int, token: Uid, authorities: nat) returns (inputs: seq<DataInput>, found: int)
    requires singleBalance > 0
    ensures inputs == Map(Chosen(s, token, authorities, singleBalance), InputFrom())
    ensures found == Sum(Chosen(s, token, authorities, singleBalance), Weight(authorities))
    ensures found == if authorities > 0 then |inputs| else Sum(inputs, InputFunds(token))
    ensures authorities > 0 ==> found <= singleBalance
  {
    var options := MatchOptions(token, authorities, singleBalance);
    var selection := SelectAvailable(s, options);
    ChosenMatch(s, token, authorities, singleBalance);
    inputs, found := CollectInputs(selection.value, authorities);
    FoundFunds(selection.value, token, authorities);
  }

  lemma ChangeFunds(token: Uid, value: int, address: string)
    ensures Sum([Change(token, 0, value, address)], OutputFunds(token)) == value
  {
    assert [Change(token, 0, value, address)][1..] == [];
  }

  /** The amount found is what the new inputs are worth. */
  lemma FoundFunds(us: seq<Utxo>, token: Uid, authorities: nat)
    requires authorities == 0 ==> forall u :: u in us ==> u.token == token && u.authorities == 0
    ensures authorities > 0 ==> Sum(us, Weight(authorities)) == |us|
    ensures authorities == 0 ==> Sum(us, Weight(authorities)) == Sum(Map(us, InputFrom()), InputFunds(token))
  {
    CountWeight(us, authorities);
    if authorities == 0 {
      InputsFromUtxos(us, token);
      SumCongruent(us, Weight(authorities), UtxoValue());
    }
  }

  lemma {:induction false} CountWeight(us: seq<Utxo>, authorities: nat)
    ensures authorities > 0 ==> Sum(us, Weight(authorities)) == |us|
  {
    if us != [] {
      CountWeight(us[1..], authorities);
    }
  }

  /** Every chosen utxo is of the asked token and authority, and authorities are chosen one per unit. */
  lemma ChosenMatch(s: Storage, token: Uid, authorities: nat, singleBalance: int)
    requires singleBalance > 0
    ensures forall u :: u in Chosen(s, token, authorities, singleBalance) ==>
      && u.token == token
      && (if authorities == 0 then u.authorities == 0 else BitAnd(u.authorities, authorities) > 0)
      && u.id !in s.selected
    ensures authorities > 0 ==> |Chosen(s, token, authorities, singleBalance)| <= singleBalance
  {
    var o := MatchOptions(token, authorities, singleBalance);
    SelectionMatches(s.store.utxos, s.store, WrappedOptions(s, o), 0, 0);
    SelectionStopsInTime(s.store.utxos, s.store, WrappedOptions(s, o), 0, 0);
  }

  /** A deficit that cannot be met means all available funds of the token fall short of it. */
  lemma OnlyMissingFundsFail(s: Storage, token: Uid, singleBalance: int)
    requires singleBalance > 0
    ensures Sum(Chosen(s, token, 0, singleBalance), Weight(0)) >= singleBalance
       <==> Sum(Available(s, token, Unordered), UtxoValue()) >= singleBalance
  {
    var o := MatchOptions(token, 0, singleBalance);
    var w := WrappedOptions(s, o);
    var w0 := WrappedOptions(s, FundsOptions(token, Unordered));
    var xs := s.store.utxos;
    var chosen := Chosen(s, token, 0, singleBalance);
    SelectionMatches(xs, s.store, w, 0, 0);
    UnboundedSelection(s, FundsOptions(token, Unordered));
    forall u: Utxo ensures Matches(u, s.store, w) == Matches(u, s.store, w0) {
    }
    SumCongruent(chosen, Weight(0), UtxoValue());
    SumCongruent(chosen, Weight(0), UnlockedValue(s.store, w));
    if Sum(chosen, Weight(0)) < singleBalance {
      SelectionIsExhaustive(xs, s.store, w, 0, 0);
      FilterCongruent(xs, MatchesIn(s.store, w), MatchesIn(s.store, w0));
    } else {
      SelectedPartOfFilter(xs, s.store, w, 0, 0);
      FilterCongruent(xs, MatchesIn(s.store, w), MatchesIn(s.store, w0));
      SubsequenceSum(chosen, Available(s, token, Unordered));
    }
  }

  lemma {:induction false} SelectedPartOfFilter(iter: seq<Utxo>, store: Store, o: FilterOptions, sum: int, num: nat)
    ensures IsSubsequence(SelectFrom(iter, store, o, sum, num), Filter(iter, MatchesIn(store, o)))
  {
    if iter != [] {
      var u, rest := iter[0], Filter(iter[1..], MatchesIn(store, o));
      if !Matches(u, store, o) || Overshoots(o, sum, u) {
        SelectedPartOfFilter(iter[1..], store, o, sum, num);
        PassOver(SelectFrom(iter[1..], store, o, sum, num), u, rest);
      } else {
        var sum' := sum + UnlockedValue(store, o)(u);
        SelectedPartOfFilter(iter[1..], store, o, sum', num + 1);
        KeepFirst(u, [], rest);
        KeepFirst(u, SelectFrom(iter[1..], store, o, sum', num + 1), rest);
      }
    }
  }

  lemma KeepFirst(u: Utxo, a: seq<Utxo>, b: seq<Utxo>)
    requires IsSubsequence(a, b)
    ensures IsSubsequence([u] + a, [u] + b)
  {
    assert ([u] + a)[1..] == a && ([u] + b)[1..] == b;
  }

  lemma PassOver(a: seq<Utxo>, u: Utxo, b: seq<Utxo>)
    requires IsSubsequence(a, b)
    ensures IsSubsequence(a, [u] + b)
  {
    assert ([u] + b)[1..] == b;
  }

  predicate MatchFails(s: Storage, token: Uid, balance: Balance, changeAddressValid: bool, skipAuthorities: bool, chooseInputs: bool, e: MatchError) {
    || GapFails(s, token, 0, balance.funds, changeAddressValid, chooseInputs, e)
    || (!skipAuthorities && token != HTR
        && (GapFails(s, token, 1, balance.mint, changeAddressValid, chooseInputs, e)
            || GapFails(s, token, 2, balance.melt, changeAddressValid, chooseInputs, e)))
  }

  /** `matchTokenBalance`: funds first, then, for custom tokens unless told to skip them, the mint
      and the melt authorities. Nothing is marked between the three selections. */
  method MatchTokenBalance(s: Storage, token: Uid, balance: Balance, changeAddress: string, changeAddressValid: bool,
                           skipAuthorities: bool, chooseInputs: bool)
    returns (r: Result<Proposal, MatchError>)
    ensures r.Ok? ==> exists funds, mint, melt ::
      Matched(s, token, balance, skipAuthorities, r.value, funds, mint, melt)
    ensures r.Ok? ==> forall o :: o in r.value.outputs ==> IsMatchChange(o, token, changeAddress)
    ensures r.Err? ==> MatchFails(s, token, balance, changeAddressValid, skipAuthorities, chooseInputs, r.error)
  {
    var funds :- MatchPart(s, token, 0, balance.funds, changeAddress, changeAddressValid, chooseInputs);
    if !(skipAuthorities || token == HTR) {
      var mint :- MatchPart(s, token, 1, balance.mint, changeAddress, changeAddressValid, chooseInputs);
      var melt :- MatchPart(s, token, 2, balance.melt, changeAddress, changeAddressValid, chooseInputs);
      r := Ok(Combine(funds, Combine(mint, melt)));
      MatchedFrom(s, token, balance, skipAuthorities, funds, mint, melt);
    } else {
      r := Ok(funds);
      OnlyFundsMatched(s, token, balance, skipAuthorities, funds);
    }
  }

  /** `matchBalanceSelection` as one of the three selections. */
  method MatchPart(s: Storage, token: Uid, authorities: nat, gap: int, changeAddress: string, changeAddressValid: bool, chooseInputs: bool)
    returns (r: Result<Proposal, MatchError>)
    requires authorities == 0 || authorities == 1 || authorities == 2
    ensures r.Ok? ==> Part(s, token, authorities, gap, true, r.value)
    ensures r.Ok? ==> forall o :: o in r.value.outputs ==> IsMatchChange(o, token, changeAddress)
    ensures r.Err? ==> GapFails(s, token, authorities, gap, changeAddressValid, chooseInputs, r.error)
  {
    r := MatchBalanceSelection(s, gap, token, authorities, changeAddress, changeAddressValid, chooseInputs);
  }

  lemma MatchedFrom(s: Storage, token: Uid, balance: Balance, skipAuthorities: bool, funds: Proposal, mint: Proposal, melt: Proposal)
    requires Part(s, token, 0, balance.funds, true, funds)
    requires Part(s, token, 1, balance.mint, !skipAuthorities && token != HTR, mint)
    requires Part(s, token, 2, balance.melt, !skipAuthorities && token != HTR, melt)
    ensures Matched(s, token, balance, skipAuthorities, Combine(funds, Combine(mint, melt)), funds, mint, melt)
  {
  }

  lemma OnlyFundsMatched(s: Storage, token: Uid, balance: Balance, skipAuthorities: bool, funds: Proposal)
    requires (skipAuthorities || token == HTR) && Part(s, token, 0, balance.funds, true, funds)
    ensures Matched(s, token, balance, skipAuthorities, funds, funds, Proposal([], []), Proposal([], []))
  {
    var none := Proposal([], []);
    assert Map([], InputFrom()) == [];
    assert funds == Combine(funds, Combine(none, none));
  }

  /** One of the three selections: active ones pick utxos and close their gap, idle ones add nothing. */
  ghost predicate Part(s: Storage, token: Uid, authorities: nat, gap: int, active: bool, p: Proposal) {
    && p.inputs == Map(Picked(s, token, authorities, gap, active), InputFrom())
    && ChangeOnly(p, token, authorities)
    && Closed(p, token, authorities) == if active then gap else 0
  }

  function Picked(s: Storage, token: Uid, authorities: nat, gap: int, active: bool): seq<Utxo> {
    if active then Chosen(s, token, authorities, gap) else []
  }

  ghost predicate ChangeOnly(p: Proposal, token: Uid, authorities: nat) {
    forall o :: o in p.outputs ==>
      o.kind == AddressOutput && o.token == token && o.authorities == authorities
  }

  /** `p` is made of the three selections, each of which closes its own gap. */
  ghost predicate Matched(s: Storage, token: Uid, balance: Balance, skipAuthorities: bool,
                          p: Proposal, funds: Proposal, mint: Proposal, melt: Proposal) {
    var both := !skipAuthorities && token != HTR;
    && p == Combine(funds, Combine(mint, melt))
    && Part(s, token, 0, balance.funds, true, funds)
    && Part(s, token, 1, balance.mint, both, mint)
    && Part(s, token, 2, balance.melt, both, melt)
  }

  function MaxOf(limit: Option<nat>, default: nat): nat {
    if limit.Some? && limit.value != 0 then limit.value else default
  }

  /** `fillTx`: what to add so that the token balances, or an error. The limits come from the
      network version when it is known, 255 otherwise. */
  method FillTx(s: Storage, token: Uid, tx: Proposal, changeAddress: string, changeAddressValid: bool,
                skipAuthorities: bool, chooseInputs: bool, maxInputs: Option<nat>, maxOutputs: Option<nat>)
    returns (r: Result<Proposal, MatchError>)
    ensures r.Ok? ==>
      && |tx.inputs| + |r.value.inputs| <= (if maxInputs.Some? && maxInputs.value != 0 then maxInputs.value else 255)
      && |tx.outputs| + |r.value.outputs| <= (if maxOutputs.Some? && maxOutputs.value != 0 then maxOutputs.value else 255)
      && TokenBalance(token, Combine(tx, r.value)).funds == 0
    ensures r.Ok? ==> exists funds, mint, melt ::
      Matched(s, token, TokenBalance(token, tx), skipAuthorities, r.value, funds, mint, melt)
    ensures r.Ok? ==> forall o :: o in r.value.outputs ==> IsMatchChange(o, token, changeAddress)
    ensures r.Err? ==>
      || MatchFails(s, token, TokenBalance(token, tx), changeAddressValid, skipAuthorities, chooseInputs, r.error)
      || (r.error == TooManyInputsOrOutputs && exists p, funds, mint, melt ::
            && Matched(s, token, TokenBalance(token, tx), skipAuthorities, p, funds, mint, melt)
            && (|tx.inputs| + |p.inputs| > (if maxInputs.Some? && maxInputs.value != 0 then maxInputs.value else 255)
                || |tx.outputs| + |p.outputs| > (if maxOutputs.Some? && maxOutputs.value != 0 then maxOutputs.value else 255)))
  {
    var balance := CalculateTxBalance(token, tx);
    var p :- MatchTokenBalance(s, token, balance, changeAddress, changeAddressValid, skipAuthorities, chooseInputs);
    ghost var funds, mint, melt :| Matched(s, token, balance, skipAuthorities, p, funds, mint, melt);
    if |tx.inputs| + |p.inputs| > MaxOf(maxInputs, 255) || |tx.outputs| + |p.outputs| > MaxOf(maxOutputs, 255) {
      return Err(TooManyInputsOrOutputs);
    }
    FilledBalance(s, token, tx, skipAuthorities, p, funds, mint, melt);
    r := Ok(p);
  }

  // ----- which authorities are selected, told from the store -----

  /** Of the token, neither marked nor locked. */
  predicate Free(s: Storage, token: Uid, u: Utxo) {
    u.token == token && u.id !in s.selected && !Locked(u, s.store, WrappedOptions(s, DefaultOptions(token)))
  }

  /** Free holders of the melt or of the mint authority. */
  function Holder(s: Storage, token: Uid, melt: bool): Utxo -> bool {
    (u: Utxo) => Free(s, token, u) && if melt then HasMelt(u.authorities) else HasMint(u.authorities)
  }

  /** The first `n` elements with a property. */
  function FirstOf<T>(xs: seq<T>, p: T -> bool, n: int): seq<T> {
    if xs == [] || n <= 0 then []
    else if p(xs[0]) then [xs[0]] + FirstOf(xs[1..], p, n - 1)
    else FirstOf(xs[1..], p, n)
  }

  function AuthorityOf(melt: bool): nat { if melt then 2 else 1 }

  lemma HoldersMatch(s: Storage, token: Uid, melt: bool, gap: int)
    ensures forall u :: Matches(u, s.store, WrappedOptions(s, MatchOptions(token, AuthorityOf(melt), gap))) <==> Holder(s, token, melt)(u)
  {
    forall u: Utxo
      ensures Matches(u, s.store, WrappedOptions(s, MatchOptions(token, AuthorityOf(melt), gap))) <==> Holder(s, token, melt)(u)
    {
      AuthorityBits(u.authorities);
    }
  }

  lemma {:induction false} CountedSelection(iter: seq<Utxo>, store: Store, o: FilterOptions, p: Utxo -> bool, sum: int, num: nat)
    requires o.targetAmount == 0 && o.maxAmount == 0 && num < o.maxUtxos
    requires forall u :: Matches(u, store, o) <==> p(u)
    ensures SelectFrom(iter, store, o, sum, num) == FirstOf(iter, p, o.maxUtxos - num)
  {
    if iter != [] {
      if !p(iter[0]) {
        CountedSelection(iter[1..], store, o, p, sum, num);
      } else if num + 1 < o.maxUtxos {
        CountedSelection(iter[1..], store, o, p, sum + UnlockedValue(store, o)(iter[0]), num + 1);
      } else {
        assert FirstOf(iter[1..], p, 0) == [];
      }
    }
  }

  /** The authorities chosen for a gap are the first free holders in store order, one per unit. */
  lemma ChosenAreFirst(s: Storage, token: Uid, melt: bool, gap: int)
    ensures Chosen(s, token, AuthorityOf(melt), gap) == FirstOf(s.store.utxos, Holder(s, token, melt), gap)
  {
    if gap > 0 {
      HoldersMatch(s, token, melt, gap);
      CountedSelection(s.store.utxos, s.store, WrappedOptions(s, MatchOptions(token, AuthorityOf(melt), gap)), Holder(s, token, melt), 0, 0);
    }
  }

  /** How many elements with a property precede a position. */
  function Preceding<T(!new)>(xs: seq<T>, p: T -> bool, k: nat): nat
    requires k <= |xs|
  {
    |Filter(xs[..k], p)|
  }

  lemma PrecedingShift<T(!new)>(xs: seq<T>, p: T -> bool, k: nat)
    requires 1 <= k <= |xs|
    ensures Preceding(xs, p, k) == (if p(xs[0]) then 1 else 0) + Preceding(xs[1..], p, k - 1)
  {
    assert xs[..k] == [xs[0]] + xs[1..][..k-1];
    FilterAppend([xs[0]], xs[1..][..k-1], p);
    assert [xs[0]][1..] == [];
  }

  /** An element is among the first `n` exactly when fewer than `n` precede it at one of its positions. */
  lemma {:induction false} AmongFirst<T(!new)>(xs: seq<T>, p: T -> bool, n: int, x: T)
    ensures x in FirstOf(xs, p, n) <==> exists k :: 0 <= k < |xs| && xs[k] == x && p(x) && Preceding(xs, p, k) < n
  {
    if xs != [] && n > 0 {
      var n' := if p(xs[0]) then n - 1 else n;
      AmongFirst(xs[1..], p, n', x);
      forall k | 1 <= k < |xs|
        ensures Preceding(xs, p, k) < n <==> Preceding(xs[1..], p, k - 1) < n'
      {
        PrecedingShift(xs, p, k);
      }
      assert Preceding(xs, p, 0) == 0;
      if exists k :: 0 <= k < |xs[1..]| && xs[1..][k] == x && p(x) && Preceding(xs[1..], p, k) < n' {
        var k :| 0 <= k < |xs[1..]| && xs[1..][k] == x && p(x) && Preceding(xs[1..], p, k) < n';
        assert xs[k+1] == x && Preceding(xs, p, k + 1) < n;
      }
      if k :| 1 <= k < |xs| && xs[k] == x && p(x) && Preceding(xs, p, k) < n {
        assert xs[1..][k-1] == x && Preceding(xs[1..], p, k - 1) < n';
      }
    }
  }

  /** Authorities selected for one purpose that also carry the other. */
  function Stray(us: seq<Utxo>, melt: bool): int {
    |Filter(us, (u: Utxo) => if melt then HasMelt(u.authorities) else HasMint(u.authorities))|
  }

  lemma {:induction false} AuthorityInputs(us: seq<Utxo>, token: Uid, melt: bool)
    requires forall u :: u in us ==> u.token == token
    ensures Sum(Map(us, InputFrom()), if melt then MeltInput(token) else MintInput(token)) == Stray(us, melt)
  {
    if us != [] {
      assert Map(us, InputFrom())[1..] == Map(us[1..], InputFrom());
      AuthorityInputs(us[1..], token, melt);
    }
  }

  lemma {:induction false} AllStray(us: seq<Utxo>, melt: bool)
    requires forall u :: u in us ==> if melt then HasMelt(u.authorities) else HasMint(u.authorities)
    ensures Stray(us, melt) == |us|
  {
    if us != [] {
      AllStray(us[1..], melt);
    }
  }

  lemma {:induction false} AuthorityOutputs(os: seq<DataOutput>, token: Uid, authorities: nat)
    requires authorities == 1 || authorities == 2
    requires forall o :: o in os ==> o.kind == AddressOutput && o.token == token && o.authorities == authorities
    ensures Sum(os, MintOutput(token)) == if authorities == 1 then |os| else 0
    ensures Sum(os, MeltOutput(token)) == if authorities == 2 then |os| else 0
    ensures Sum(os, OutputFunds(token)) == 0
  {
    if os != [] {
      assert os[0] in os && forall o :: o in os[1..] ==> o in os;
      AuthorityOutputs(os[1..], token, authorities);
    }
  }

  /** What one authority selection does to the balance of its token: it closes its own gap and
      overpays the other authority by the mixed utxos it picked. */
  lemma PickedHold(s: Storage, token: Uid, authorities: nat, gap: int, active: bool)
    requires authorities == 1 || authorities == 2
    ensures forall u :: u in Picked(s, token, authorities, gap, active) ==>
      u.token == token && u.authorities > 0 && (if authorities == 1 then HasMint(u.authorities) else HasMelt(u.authorities))
  {
    if active && gap > 0 {
      ChosenMatch(s, token, authorities, gap);
    }
    forall u | u in Picked(s, token, authorities, gap, active)
      ensures u.token == token && u.authorities > 0 && (if authorities == 1 then HasMint(u.authorities) else HasMelt(u.authorities))
    {
      AuthorityBits(u.authorities);
    }
  }

  lemma AuthoritySelectionBalance(s: Storage, token: Uid, authorities: nat, gap: int, active: bool, p: Proposal)
    requires authorities == 1 || authorities == 2
    requires Part(s, token, authorities, gap, active, p)
    ensures var us := Picked(s, token, authorities, gap, active);
      TokenBalance(token, p) ==
      if authorities == 1 then Balance(0, -Closed(p, token, 1), -Stray(us, true))
      else Balance(0, -Stray(us, false), -Closed(p, token, 2))
  {
    var us := Picked(s, token, authorities, gap, active);
    AuthorityOutputs(p.outputs, token, authorities);
    PickedHold(s, token, authorities, gap, active);
    PickedInputs(us, token, authorities);
  }

  lemma PickedInputs(us: seq<Utxo>, token: Uid, authorities: nat)
    requires authorities == 1 || authorities == 2
    requires forall u :: u in us ==>
      u.token == token && u.authorities > 0 && (if authorities == 1 then HasMint(u.authorities) else HasMelt(u.authorities))
    ensures var inputs := Map(us, InputFrom());
      && Sum(inputs, InputFunds(token)) == 0
      && Sum(inputs, MintInput(token)) == (if authorities == 1 then |us| else Stray(us, false))
      && Sum(inputs, MeltInput(token)) == (if authorities == 2 then |us| else Stray(us, true))
  {
    AuthorityInputs(us, token, true);
    AuthorityInputs(us, token, false);
    AllStray(us, authorities == 2);
    SumZero(Map(us, InputFrom()), InputFunds(token));
  }

  lemma FundsSelectionBalance(s: Storage, token: Uid, singleBalance: int, p: Proposal)
    requires Part(s, token, 0, singleBalance, true, p)
    ensures TokenBalance(token, p) == Balance(-Closed(p, token, 0), 0, 0)
  {
    if singleBalance > 0 {
      ChosenMatch(s, token, 0, singleBalance);
    }
    SumZero(p.inputs, MintInput(token));
    SumZero(p.inputs, MeltInput(token));
    SumZero(p.outputs, MintOutput(token));
    SumZero(p.outputs, MeltOutput(token));
  }

  lemma FourAdd(token: Uid, tx: Proposal, a: Proposal, b: Proposal, c: Proposal)
    ensures TokenBalance(token, Combine(tx, Combine(a, Combine(b, c)))) == Balance(
      TokenBalance(token, tx).funds + TokenBalance(token, a).funds + TokenBalance(token, b).funds + TokenBalance(token, c).funds,
      TokenBalance(token, tx).mint + TokenBalance(token, a).mint + TokenBalance(token, b).mint + TokenBalance(token, c).mint,
      TokenBalance(token, tx).melt + TokenBalance(token, a).melt + TokenBalance(token, b).melt + TokenBalance(token, c).melt)
  {
    BalanceAdds(token, tx, Combine(a, Combine(b, c)));
    BalanceAdds(token, a, Combine(b, c));
    BalanceAdds(token, b, c);
  }

  /** The filled transaction: its funds balance exactly. Its authorities, when they are matched,
      balance up to the mixed utxos: one that carries both authorities and was picked for one of
      them also enters the other's balance. */
  lemma FilledBalance(s: Storage, token: Uid, tx: Proposal, skipAuthorities: bool,
                      p: Proposal, funds: Proposal, mint: Proposal, melt: Proposal)
    requires Matched(s, token, TokenBalance(token, tx), skipAuthorities, p, funds, mint, melt)
    ensures TokenBalance(token, Combine(tx, p)).funds == 0
    ensures !skipAuthorities && token != HTR ==>
      && TokenBalance(token, Combine(tx, p)).mint
         == -Stray(FirstOf(s.store.utxos, Holder(s, token, true), TokenBalance(token, tx).melt), false)
      && TokenBalance(token, Combine(tx, p)).melt
         == -Stray(FirstOf(s.store.utxos, Holder(s, token, false), TokenBalance(token, tx).mint), true)
    ensures skipAuthorities || token == HTR ==>
      && TokenBalance(token, Combine(tx, p)).mint == TokenBalance(token, tx).mint
      && TokenBalance(token, Combine(tx, p)).melt == TokenBalance(token, tx).melt
  {
    var b := TokenBalance(token, tx);
    var both := !skipAuthorities && token != HTR;
    FourAdd(token, tx, funds, mint, melt);
    FundsSelectionBalance(s, token, b.funds, funds);
    FirstsBalance(s, token, false, b.mint, both, mint);
    FirstsBalance(s, token, true, b.melt, both, melt);
  }

  /** What one authority selection does, told by the first holders of the store. */
  lemma FirstsBalance(s: Storage, token: Uid, melt: bool, gap: int, active: bool, p: Proposal)
    requires Part(s, token, AuthorityOf(melt), gap, active, p)
    ensures var stray := if active then Stray(FirstOf(s.store.utxos, Holder(s, token, melt), gap), !melt) else 0;
      TokenBalance(token, p) == if melt then Balance(0, -stray, if active then -gap else 0) else Balance(0, if active then -gap else 0, -stray)
  {
    AuthoritySelectionBalance(s, token, AuthorityOf(melt), gap, active, p);
    ChosenAreFirst(s, token, melt, gap);
  }

  /** A free utxo holds both authorities and is reached by the selection of each. */
  predicate MixedInReach(s: Storage, token: Uid, balance: Balance, k: nat)
    requires k < |s.store.utxos|
  {
    var xs := s.store.utxos;
    && Holder(s, token, false)(xs[k]) && Holder(s, token, true)(xs[k])
    && Preceding(xs, Holder(s, token, false), k) < balance.mint
    && Preceding(xs, Holder(s, token, true), k) < balance.melt
  }

  /** The new inputs spend an outpoint twice exactly when some free utxo of the store holds both
      authorities, fewer mint holders precede it than mint authorities are missing, and fewer melt
      holders than melt authorities. */
  lemma DoubleSpendIffSharedAuthority(s: Storage, token: Uid, balance: Balance,
                                      p: Proposal, funds: Proposal, mint: Proposal, melt: Proposal)
    requires UniqueOutpoints(s) && token != HTR
    requires Matched(s, token, balance, false, p, funds, mint, melt)
    ensures !Distinct(Map(p.inputs, InputIdOf())) <==>
      exists k :: 0 <= k < |s.store.utxos| && MixedInReach(s, token, balance, k)
  {
    SharedIffInReach(s, token, balance);
    DistinctIffUnshared(s, token, balance, p, funds, mint, melt);
  }

  lemma SharedIffInReach(s: Storage, token: Uid, balance: Balance)
    requires UniqueOutpoints(s)
    ensures (exists u :: u in Chosen(s, token, 1, balance.mint) && u in Chosen(s, token, 2, balance.melt))
       <==> exists k :: 0 <= k < |s.store.utxos| && MixedInReach(s, token, balance, k)
  {
    ChosenAreFirst(s, token, false, balance.mint);
    ChosenAreFirst(s, token, true, balance.melt);
    if u :| u in Chosen(s, token, 1, balance.mint) && u in Chosen(s, token, 2, balance.melt) {
      var k := SharedIsInReach(s, token, balance, u);
      assert MixedInReach(s, token, balance, k);
    }
    if k :| 0 <= k < |s.store.utxos| && MixedInReach(s, token, balance, k) {
      InReachIsShared(s, token, balance, k);
      assert s.store.utxos[k] in Chosen(s, token, 1, balance.mint);
    }
  }

  lemma SharedIsInReach(s: Storage, token: Uid, balance: Balance, u: Utxo) returns (k: nat)
    requires UniqueOutpoints(s)
    requires u in FirstOf(s.store.utxos, Holder(s, token, false), balance.mint)
    requires u in FirstOf(s.store.utxos, Holder(s, token, true), balance.melt)
    ensures k < |s.store.utxos| && MixedInReach(s, token, balance, k)
  {
    var xs, mint, melt := s.store.utxos, Holder(s, token, false), Holder(s, token, true);
    AmongFirst(xs, mint, balance.mint, u);
    AmongFirst(xs, melt, balance.melt, u);
    k :| 0 <= k < |xs| && xs[k] == u && mint(u) && Preceding(xs, mint, k) < balance.mint;
    var l :| 0 <= l < |xs| && xs[l] == u && melt(u) && Preceding(xs, melt, l) < balance.melt;
    assert Map(xs, UtxoIdOf())[k] == Map(xs, UtxoIdOf())[l];
  }

  lemma InReachIsShared(s: Storage, token: Uid, balance: Balance, k: nat)
    requires k < |s.store.utxos| && MixedInReach(s, token, balance, k)
    ensures s.store.utxos[k] in FirstOf(s.store.utxos, Holder(s, token, false), balance.mint)
    ensures s.store.utxos[k] in FirstOf(s.store.utxos, Holder(s, token, true), balance.melt)
  {
    AmongFirst(s.store.utxos, Holder(s, token, false), balance.mint, s.store.utxos[k]);
    AmongFirst(s.store.utxos, Holder(s, token, true), balance.melt, s.store.utxos[k]);
  }

  /** The filled transaction balances in mint authorities exactly when no free utxo holding both is
      reached by the selection of melt authorities, and the other way round. */
  lemma AuthoritiesBalanceIff(s: Storage, token: Uid, tx: Proposal, p: Proposal, funds: Proposal, mint: Proposal, melt: Proposal)
    requires token != HTR && Matched(s, token, TokenBalance(token, tx), false, p, funds, mint, melt)
    ensures TokenBalance(token, Combine(tx, p)).mint == 0 <==> !MixedReached(s, token, true, TokenBalance(token, tx).melt)
    ensures TokenBalance(token, Combine(tx, p)).melt == 0 <==> !MixedReached(s, token, false, TokenBalance(token, tx).mint)
  {
    FilledBalance(s, token, tx, false, p, funds, mint, melt);
    StrayIffReached(s, token, true, TokenBalance(token, tx).melt);
    StrayIffReached(s, token, false, TokenBalance(token, tx).mint);
  }

  /** A free holder of both authorities is among the first `gap` holders of one of them. */
  ghost predicate MixedReached(s: Storage, token: Uid, melt: bool, gap: int) {
    var xs := s.store.utxos;
    exists k :: 0 <= k < |xs| && Holder(s, token, false)(xs[k]) && Holder(s, token, true)(xs[k]) && Preceding(xs, Holder(s, token, melt), k) < gap
  }

  lemma StrayIffReached(s: Storage, token: Uid, melt: bool, gap: int)
    ensures Stray(FirstOf(s.store.utxos, Holder(s, token, melt), gap), !melt) > 0 <==> MixedReached(s, token, melt, gap)
  {
    var xs, p := s.store.utxos, Holder(s, token, melt);
    var first := FirstOf(xs, p, gap);
    StraySome(first, !melt);
    if u :| u in first && (if melt then HasMint(u.authorities) else HasMelt(u.authorities)) {
      AmongFirst(xs, p, gap, u);
      var k :| 0 <= k < |xs| && xs[k] == u && p(u) && Preceding(xs, p, k) < gap;
      assert Holder(s, token, false)(xs[k]) && Holder(s, token, true)(xs[k]);
    }
    if MixedReached(s, token, melt, gap) {
      var k :| 0 <= k < |xs| && Holder(s, token, false)(xs[k]) && Holder(s, token, true)(xs[k]) && Preceding(xs, p, k) < gap;
      AmongFirst(xs, p, gap, xs[k]);
    }
  }

  lemma StraySome(us: seq<Utxo>, melt: bool)
    ensures Stray(us, melt) > 0 <==> exists u :: u in us && if melt then HasMelt(u.authorities) else HasMint(u.authorities)
  {
    var strays := Filter(us, (u: Utxo) => if melt then HasMelt(u.authorities) else HasMint(u.authorities));
    if strays != [] {
      assert strays[0] in strays;
    }
  }

  /** Funds and authorities never meet, and each selection alone repeats nothing. */
  lemma DistinctIffUnshared(s: Storage, token: Uid, balance: Balance,
                            p: Proposal, funds: Proposal, mint: Proposal, melt: Proposal)
    requires UniqueOutpoints(s) && token != HTR
    requires Matched(s, token, balance, false, p, funds, mint, melt)
    ensures Distinct(Map(p.inputs, InputIdOf())) <==>
      forall u :: u in Chosen(s, token, 1, balance.mint) ==> u !in Chosen(s, token, 2, balance.melt)
  {
    var f, a, b := Chosen(s, token, 0, balance.funds), Chosen(s, token, 1, balance.mint), Chosen(s, token, 2, balance.melt);
    ChosenAreDistinct(s, token, 0, balance.funds);
    ChosenAreDistinct(s, token, 1, balance.mint);
    ChosenAreDistinct(s, token, 2, balance.melt);
    IdsOfMatched(p, f, a, b);
    if forall u :: u in a ==> u !in b {
      DisjointMeansDistinct(s, f, a, b);
    } else {
      var u :| u in a && u in b;
      SharedMeansTwice(f, a, b, u);
    }
  }

  lemma IdsOfMatched(p: Proposal, f: seq<Utxo>, a: seq<Utxo>, b: seq<Utxo>)
    requires p.inputs == Map(f, InputFrom()) + (Map(a, InputFrom()) + Map(b, InputFrom()))
    ensures Map(p.inputs, InputIdOf()) == Map(f, UtxoIdOf()) + (Map(a, UtxoIdOf()) + Map(b, UtxoIdOf()))
  {
  }

  lemma DisjointMeansDistinct(s: Storage, f: seq<Utxo>, a: seq<Utxo>, b: seq<Utxo>)
    requires UniqueOutpoints(s)
    requires Distinct(Map(f, UtxoIdOf())) && Distinct(Map(a, UtxoIdOf())) && Distinct(Map(b, UtxoIdOf()))
    requires forall u :: u in f ==> u in s.store.utxos && u.authorities == 0
    requires forall u :: u in a || u in b ==> u in s.store.utxos && u.authorities > 0
    requires forall u :: u in a ==> u !in b
    ensures Distinct(Map(f, UtxoIdOf()) + (Map(a, UtxoIdOf()) + Map(b, UtxoIdOf())))
  {
    DisjointUtxosDisjointIds(s, a, b);
    DisjointUtxosDisjointIds(s, f, a);
    DisjointUtxosDisjointIds(s, f, b);
    DistinctAppend(Map(a, UtxoIdOf()), Map(b, UtxoIdOf()));
    DistinctAppend(Map(f, UtxoIdOf()), Map(a, UtxoIdOf()) + Map(b, UtxoIdOf()));
  }

  lemma SharedMeansTwice(f: seq<Utxo>, a: seq<Utxo>, b: seq<Utxo>, u: Utxo)
    requires u in a && u in b
    ensures !Distinct(Map(f, UtxoIdOf()) + (Map(a, UtxoIdOf()) + Map(b, UtxoIdOf())))
  {
    var i :| 0 <= i < |a| && a[i] == u;
    var j :| 0 <= j < |b| && b[j] == u;
    var ids := Map(f, UtxoIdOf()) + (Map(a, UtxoIdOf()) + Map(b, UtxoIdOf()));
    assert ids[|f| + i] == u.id && ids[|f| + |a| + j] == u.id;
  }

  lemma ChosenAreDistinct(s: Storage, token: Uid, authorities: nat, singleBalance: int)
    requires UniqueOutpoints(s)
    ensures Distinct(Map(Chosen(s, token, authorities, singleBalance), UtxoIdOf()))
    ensures forall u :: u in Chosen(s, token, authorities, singleBalance) ==>
      u in s.store.utxos && (if authorities == 0 then u.authorities == 0 else u.authorities > 0)
  {
    if singleBalance > 0 {
      SelectionIsAvailable(s, MatchOptions(token, authorities, singleBalance));
      ChosenMatch(s, token, authorities, singleBalance);
    }
  }

  lemma DisjointUtxosDisjointIds(s: Storage, a: seq<Utxo>, b: seq<Utxo>)
    requires UniqueOutpoints(s)
    requires forall u :: u in a + b ==> u in s.store.utxos
    requires forall u :: u in a ==> u !in b
    ensures forall id :: id in Map(a, UtxoIdOf()) ==> id !in Map(b, UtxoIdOf())
  {
    forall id | id in Map(a, UtxoIdOf()) ensures id !in Map(b, UtxoIdOf()) {
      var i :| 0 <= i < |a| && a[i].id == id;
      forall j | 0 <= j < |b| ensures b[j].id != id {
        assert a[i] in a + b && b[j] in a + b && a[i] in a && b[j] in b;
        var k :| 0 <= k < |s.store.utxos| && s.store.utxos[k] == a[i];
        var l :| 0 <= l < |s.store.utxos| && s.store.utxos[l] == b[j];
        var ids := Map(s.store.utxos, UtxoIdOf());
        assert ids[k] == a[i].id && ids[l] == b[j].id && k != l;
      }
    }
  }

  lemma OnlyHolder(s: Storage, token: Uid, u: Utxo, melt: bool)
    requires s.store.utxos == [u] && Holder(s, token, melt)(u)
    ensures Chosen(s, token, AuthorityOf(melt), 1) == [u]
  {
    ChosenAreFirst(s, token, melt, 1);
    assert FirstOf([u], Holder(s, token, melt), 1) == [u] + [];
  }

  /** It does happen: one utxo holds both authorities of a token, and a transaction needs both. */
  lemma MixedAuthorityIsSpentTwice() returns (s: Storage, token: Uid, p: Proposal, funds: Proposal, mint: Proposal, melt: Proposal)
    ensures UniqueOutpoints(s) && token != HTR
    ensures Matched(s, token, Balance(0, 1, 1), false, p, funds, mint, melt)
    ensures |p.inputs| == 2 && p.inputs[0].id == p.inputs[1].id
  {
    token := Uid("ab");
    var u := Utxo(UtxoId("cd", 0), token, "addr", 3, 3, None, 1, None, false, None, None);
    s := Storage(Store([u], 0, 0, map[]), {}, 0);
    OnlyHolder(s, token, u, false);
    OnlyHolder(s, token, u, true);
    funds, mint, melt := Proposal([], []), Proposal([InputFromUtxo(u)], []), Proposal([InputFromUtxo(u)], []);
    assert mint.inputs == Map([u], InputFrom());
    p := Combine(funds, Combine(mint, melt));
    assert p.inputs == [InputFromUtxo(u), InputFromUtxo(u)];
  }
}
