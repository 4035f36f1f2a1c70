/** Funding one token, and every custom token of a transaction: `checkUnspentInput`,
    `_prepareSendTokensData` and `prepareSendManyTokensData` of src/new/sendTransaction.ts. */
module TokenFunding {
  import opened Wrappers
  import opened SeqSums
  import opened WalletTypes
  import opened UtxoStore
  import opened UtxoSelection
  import opened SendModel

  method CheckUnspentInput(s: WalletStorage, input: DataInput, selectedToken: Uid) returns (ok: bool)
    ensures ok <==> UnspentAndMine(s, input, selectedToken)
  {
    if input.id.txId !in s.txs {
      return false;
    }
    var tx := s.txs[input.id.txId];
    if tx.voided {
      return false;
    }
    var resolved := ResolveSpentOutput(tx, input.id.index);
    if resolved == None {
      return false;
    }
    var isAuthority := resolved.value.TransparentOutput? && IsAuthorityData(resolved.value.output.tokenData);
    var address, outputToken, spent;
    match resolved.value {
      case TransparentOutput(o) => address, outputToken, spent := o.address, Some(o.token), o.spent;
      case ShieldedSlot(o) => address, outputToken, spent := o.address, o.token, o.spent;
    }
    if isAuthority {
      return false;
    }
    if address.Some? && address.value != "" {
      if address.value != input.address || address.value !in s.mine {
        return false;
      }
    } else {
      return false;
    }
    if outputToken != Some(input.token) || input.token != selectedToken {
      return false;
    }
    ok := !spent;
  }

  function ChangeAddressFor(s: WalletStorage, requested: Option<string>): Option<string> {
    if requested.Some? && requested.value != "" then
      if requested.value in s.mine then requested else None
    else Some(s.currentAddress)
  }

  /** Change goes to the requested address, which must be the wallet's own, or to its current one. */
  predicate ChangeGoesHome(s: WalletStorage, requested: Option<string>, outputs: seq<DataOutput>) {
    forall o :: o in outputs ==> ChangeAddressFor(s, requested) == Some(o.address)
  }

  function ChangeOutput(token: Uid, value: int, address: string): DataOutput {
    DataOutput(AddressOutput, value, token, 0, address, None, true)
  }

  /** Inputs the wallet selected: usable funds of the token, no outpoint twice. */
  ghost predicate SelectedInputs(s: WalletStorage, token: Uid, ins: seq<DataInput>) {
    && (forall i :: i in ins ==> FromStore(s, token, i))
    && (UniqueOutpoints(s.funds) ==> Distinct(Map(ins, InputIdOf())))
  }

  ghost predicate FromStore(s: WalletStorage, token: Uid, i: DataInput) {
    exists u :: u in s.funds.store.utxos && SpendsUtxo(i, u) && u.token == token && u.authorities == 0 && Usable(s.funds, u)
  }

  /** The inputs are the best choice of available utxos for the amount. */
  ghost predicate BestInputs(s: WalletStorage, token: Uid, amount: int, ins: seq<DataInput>) {
    exists r :: BestChoice(Available(s.funds, token, Descending), amount, r) && ins == Map(r.utxos, InputFrom())
  }

  ghost predicate CallerInputsUsable(s: WalletStorage, token: Uid, inputs: seq<DataInput>) {
    forall i :: i in inputs && i.token == token ==> UnspentAndMine(s, i, token) && CanUse(s, i.id)
  }

  /** One token funded: inputs cover outputs, fee and change exactly. */
  ghost predicate Funded(s: WalletStorage, outputs: seq<DataOutput>, inputs: seq<DataInput>, token: Uid,
                         chooseInputs: bool, fee: int, f: Funding) {
    var target := fee + Sum(outputs, ValueOut(token));
    && |f.outputs| <= 1 && (forall o :: o in f.outputs ==> IsChangeOf(o, token))
    && (chooseInputs ==>
          && SelectedInputs(s, token, f.inputs)
          && BestInputs(s, token, target, f.inputs)
          && target != 0
          && Sum(f.inputs, ValueIn(token)) == target + Sum(f.outputs, ValueOut(token)))
    && (!chooseInputs ==>
          && f.inputs == []
          && CallerInputsUsable(s, token, inputs)
          && Sum(inputs, ValueIn(token)) == target + Sum(f.outputs, ValueOut(token)))
  }

  /** Why one token could not be funded. */
  ghost predicate Refused(s: WalletStorage, outputs: seq<DataOutput>, inputs: seq<DataInput>, token: Uid, chooseInputs: bool,
                          changeAddress: Option<string>, fee: int, e: SendError) {
    var target := fee + Sum(outputs, ValueOut(token));
    if chooseInputs then SelectionRefused(s, token, target, changeAddress, e)
    else InputsRefused(s, inputs, token, target, changeAddress, e)
  }

  ghost predicate SelectionRefused(s: WalletStorage, token: Uid, target: int, changeAddress: Option<string>, e: SendError) {
    || (e == InvalidAmount && target == 0)
    || (e == InsufficientTokens(token) && (target > 0 ==> Sum(Available(s.funds, token, Descending), UtxoValue()) < target))
    || (e == ChangeAddressNotMine && ChangeAddressFor(s, changeAddress) == None)
  }

  ghost predicate InputsRefused(s: WalletStorage, inputs: seq<DataInput>, token: Uid, target: int, changeAddress: Option<string>, e: SendError) {
    || (exists i :: i in inputs && i.token == token && e == InputUnusable(i.id) && !(UnspentAndMine(s, i, token) && CanUse(s, i.id)))
    || (e == OutputsExceedInputs(token) && CallerInputsUsable(s, token, inputs) && Sum(inputs, ValueIn(token)) < target)
    || (e == ChangeAddressNotMine && ChangeAddressFor(s, changeAddress) == None)
  }

  lemma ChangeIsExact(token: Uid, value: int, address: string)
    requires value > 0
    ensures Sum([ChangeOutput(token, value, address)], ValueOut(token)) == value
    ensures IsChangeOf(ChangeOutput(token, value, address), token)
  {
    assert [ChangeOutput(token, value, address)][1..] == [];
  }

  lemma SelectedFromBest(s: WalletStorage, token: Uid, amount: int, r: Selected)
    requires BestChoice(Available(s.funds, token, Descending), amount, r)
    ensures SelectedInputs(s, token, Map(r.utxos, InputFrom()))
    ensures Sum(Map(r.utxos, InputFrom()), ValueIn(token)) == r.amount
  {
    var ins := Map(r.utxos, InputFrom());
    var xs := Available(s.funds, token, Descending);
    UtxosOfBest(s, token, amount, r);
    forall i | i in ins ensures FromStore(s, token, i) {
      var k :| 0 <= k < |ins| && ins[k] == i;
      assert r.utxos[k] in r.utxos;
    }
    SumPointwise(ins, r.utxos, ValueIn(token), UtxoValue());
    if UniqueOutpoints(s.funds) {
      BestChoiceIsSound(s.funds, token, amount, r);
      assert Map(ins, InputIdOf()) == Map(r.utxos, UtxoIdOf());
    }
  }

  lemma UtxosOfBest(s: WalletStorage, token: Uid, amount: int, r: Selected)
    requires BestChoice(Available(s.funds, token, Descending), amount, r)
    ensures Total(r.utxos, r.amount)
    ensures forall u :: u in r.utxos ==>
      u in s.funds.store.utxos && u.token == token && u.authorities == 0 && Usable(s.funds, u)
  {
    SelectionIsEligible(s.funds, FundsOptions(token, Descending));
    if |r.utxos| == 1 {
      assert r.utxos == [r.utxos[0]] && r.utxos[1..] == [];
    }
    forall u | u in r.utxos ensures u in Available(s.funds, token, Descending) {
    }
  }

  /** `_prepareSendTokensData` */
  method PrepareSendTokensData(s: WalletStorage, outputs: seq<DataOutput>, inputs: seq<DataInput>, token: Uid,
                               chooseInputs: bool, changeAddress: Option<string>, fee: int)
    returns (r: Result<Funding, SendError>)
    ensures r.Ok? ==> Funded(s, outputs, inputs, token, chooseInputs, fee, r.value)
    ensures r.Ok? ==> ChangeGoesHome(s, changeAddress, r.value.outputs)
    ensures r.Err? ==> Refused(s, outputs, inputs, token, chooseInputs, changeAddress, fee, r.error)
  {
    var outputAmount := SumOutputs(outputs, token, fee);
    if chooseInputs {
      r := SelectAndGiveChange(s, token, outputAmount, changeAddress);
    } else {
      r := CheckAndGiveChange(s, inputs, token, outputAmount, changeAddress);
    }
  }

  /** The fee and the outputs of the token together. */
  method SumOutputs(outputs: seq<DataOutput>, token: Uid, fee: int) returns (outputAmount: int)
    ensures outputAmount == fee + Sum(outputs, ValueOut(token))
  {
    outputAmount := fee;
    for k := 0 to |outputs|
      invariant outputAmount == fee + Sum(outputs[..k], ValueOut(token))
    {
      assert outputs[..k+1] == outputs[..k] + [outputs[k]];
      SumPush(outputs[..k], outputs[k], ValueOut(token));
      if outputs[k].kind == CreateTokenOutput || outputs[k].token != token {
        continue;
      }
      outputAmount := outputAmount + outputs[k].value;
    }
    assert outputs[..|outputs|] == outputs;
  }

  method SelectAndGiveChange(s: WalletStorage, token: Uid, outputAmount: int, changeAddress: Option<string>)
    returns (r: Result<Funding, SendError>)
    ensures r.Ok? ==> ChangeGoesHome(s, changeAddress, r.value.outputs)
    ensures r.Ok? ==>
      && outputAmount != 0 && |r.value.outputs| <= 1 && (forall o :: o in r.value.outputs ==> IsChangeOf(o, token))
      && SelectedInputs(s, token, r.value.inputs) && BestInputs(s, token, outputAmount, r.value.inputs)
      && Sum(r.value.inputs, ValueIn(token)) == outputAmount + Sum(r.value.outputs, ValueOut(token))
    ensures r.Err? ==> SelectionRefused(s, token, outputAmount, changeAddress, r.error)
  {
    if outputAmount == 0 {
      return Err(InvalidAmount);
    }
    var newUtxos := BestUtxoSelection(s.funds, token, outputAmount);
    if outputAmount > 0 {
      BestChoiceFindsFunds(Available(s.funds, token, Descending), outputAmount, newUtxos);
    }
    if newUtxos.amount < outputAmount {
      return Err(InsufficientTokens(token));
    }
    SelectedFromBest(s, token, outputAmount, newUtxos);
    var inputs := Map(newUtxos.utxos, InputFrom());
    var change: seq<DataOutput> := [];
    if newUtxos.amount > outputAmount {
      var address := ChangeAddressFor(s, changeAddress);
      if address == None {
        return Err(ChangeAddressNotMine);
      }
      change := [ChangeOutput(token, newUtxos.amount - outputAmount, address.value)];
      ChangeIsExact(token, newUtxos.amount - outputAmount, address.value);
    }
    r := Ok(Funding(inputs, change));
  }

  method CheckAndGiveChange(s: WalletStorage, inputs: seq<DataInput>, token: Uid, outputAmount: int, changeAddress: Option<string>)
    returns (r: Result<Funding, SendError>)
    ensures r.Ok? ==> ChangeGoesHome(s, changeAddress, r.value.outputs)
    ensures r.Ok? ==>
      && r.value.inputs == [] && |r.value.outputs| <= 1 && (forall o :: o in r.value.outputs ==> IsChangeOf(o, token))
      && CallerInputsUsable(s, token, inputs)
      && Sum(inputs, ValueIn(token)) == outputAmount + Sum(r.value.outputs, ValueOut(token))
    ensures r.Err? ==> InputsRefused(s, inputs, token, outputAmount, changeAddress, r.error)
  {
    var inputAmount := 0;
    for k := 0 to |inputs|
      invariant inputAmount == Sum(inputs[..k], ValueIn(token))
      invariant forall j :: 0 <= j < k && inputs[j].token == token ==> UnspentAndMine(s, inputs[j], token) && CanUse(s, inputs[j].id)
    {
      var input := inputs[k];
      assert inputs[..k+1] == inputs[..k] + [input];
      SumPush(inputs[..k], input, ValueIn(token));
      if input.token != token {
        continue;
      }
      var unspent := CheckUnspentInput(s, input, token);
      if !unspent || !CanUse(s, input.id) {
        return Err(InputUnusable(input.id));
      }
      inputAmount := inputAmount + input.value;
    }
    assert inputs[..|inputs|] == inputs;
    if inputAmount < outputAmount {
      return Err(OutputsExceedInputs(token));
    }
    var change: seq<DataOutput> := [];
    if inputAmount > outputAmount {
      var address := ChangeAddressFor(s, changeAddress);
      if address == None {
        return Err(ChangeAddressNotMine);
      }
      change := [ChangeOutput(token, inputAmount - outputAmount, address.value)];
      ChangeIsExact(token, inputAmount - outputAmount, address.value);
    }
    r := Ok(Funding([], change));
  }

  /** JavaScript's insertion-ordered map from token to "may the wallet choose its inputs". */
  datatype TokenMap = TokenMap(order: seq<Uid>, choose: map<Uid, bool>)

  ghost predicate WellFormed(m: TokenMap) {
    Distinct(m.order) && forall t: Uid :: t in m.order <==> t in m.choose
  }

  /** The wallet may only choose inputs for a token the caller brought none of. */
  ghost predicate ChooseOnlyUnfunded(m: TokenMap, inputs: seq<DataInput>) {
    forall i :: i in inputs ==> i.token !in m.choose || !m.choose[i.token]
  }

  ghost predicate Balances(outputs: seq<DataOutput>, inputs: seq<DataInput>, t: Uid, f: Funding) {
    Sum(inputs, ValueIn(t)) + Sum(f.inputs, ValueIn(t)) == Sum(outputs, ValueOut(t)) + Sum(f.outputs, ValueOut(t))
  }

  /** What is added is change of the listed tokens, and store utxos of those the wallet may choose for. */
  ghost predicate AddsOnly(s: WalletStorage, m: TokenMap, done: seq<Uid>, f: Funding) {
    && (forall o :: o in f.outputs ==> o.token in done && IsChangeOf(o, o.token))
    && (forall i :: i in f.inputs ==>
          i.token in done && i.token in m.choose && m.choose[i.token] && FromStore(s, i.token, i))
  }

  /** Every token of the list balances, no other token is touched, and the wallet adds inputs only
      where it may choose them. */
  ghost predicate ManyFunded(s: WalletStorage, outputs: seq<DataOutput>, inputs: seq<DataInput>, m: TokenMap, done: seq<Uid>, f: Funding) {
    && (forall t :: t in done ==> Balances(outputs, inputs, t, f))
    && AddsOnly(s, m, done, f)
    && (forall t :: t in done && t in m.choose && !m.choose[t] ==> CallerInputsUsable(s, t, inputs))
    && (UniqueOutpoints(s.funds) ==> Distinct(Map(f.inputs, InputIdOf())))
  }

  function Join(f: Funding, g: Funding): Funding { Funding(f.inputs + g.inputs, f.outputs + g.outputs) }

  lemma OldTokenKeepsBalance(s: WalletStorage, outputs: seq<DataOutput>, inputs: seq<DataInput>, m: TokenMap,
                             token: Uid, t: Uid, f: Funding, g: Funding)
    requires Balances(outputs, inputs, t, f) && t != token
    requires (forall o :: o in g.outputs ==> o.token == token) && (forall i :: i in g.inputs ==> i.token == token)
    ensures Balances(outputs, inputs, t, Join(f, g))
  {
    SumAppend(f.inputs, g.inputs, ValueIn(t));
    SumAppend(f.outputs, g.outputs, ValueOut(t));
    SumZero(g.inputs, ValueIn(t));
    SumZero(g.outputs, ValueOut(t));
  }

  lemma NewTokenBalances(s: WalletStorage, outputs: seq<DataOutput>, inputs: seq<DataInput>, m: TokenMap,
                         done: seq<Uid>, token: Uid, f: Funding, g: Funding)
    requires AddsOnly(s, m, done, f) && token !in done && token in m.choose && ChooseOnlyUnfunded(m, inputs)
    requires Funded(s, outputs, inputs, token, m.choose[token], 0, g)
    ensures Balances(outputs, inputs, token, Join(f, g))
  {
    SumAppend(f.inputs, g.inputs, ValueIn(token));
    SumAppend(f.outputs, g.outputs, ValueOut(token));
    SumZero(f.inputs, ValueIn(token));
    SumZero(f.outputs, ValueOut(token));
    if m.choose[token] {
      SumZero(inputs, ValueIn(token));
    }
  }

  lemma ManyFundedStep(s: WalletStorage, outputs: seq<DataOutput>, inputs: seq<DataInput>, m: TokenMap,
                       done: seq<Uid>, token: Uid, f: Funding, g: Funding)
    requires token in m.choose && token !in done && ChooseOnlyUnfunded(m, inputs)
    requires ManyFunded(s, outputs, inputs, m, done, f)
    requires Funded(s, outputs, inputs, token, m.choose[token], 0, g)
    ensures ManyFunded(s, outputs, inputs, m, done + [token], Join(f, g))
  {
    FundedAdds(s, outputs, inputs, m, token, g);
    AddsOnlyStep(s, m, done, token, f, g);
    forall t | t in done + [token] ensures Balances(outputs, inputs, t, Join(f, g)) {
      if t == token {
        NewTokenBalances(s, outputs, inputs, m, done, token, f, g);
      } else {
        OldTokenKeepsBalance(s, outputs, inputs, m, token, t, f, g);
      }
    }
  }

  /** One funded token adds its own change, and its own utxos if the wallet may choose them. */
  lemma FundedAdds(s: WalletStorage, outputs: seq<DataOutput>, inputs: seq<DataInput>, m: TokenMap, token: Uid, g: Funding)
    requires token in m.choose && Funded(s, outputs, inputs, token, m.choose[token], 0, g)
    ensures AddsOnly(s, m, [token], g)
    ensures UniqueOutpoints(s.funds) ==> Distinct(Map(g.inputs, InputIdOf()))
    ensures !m.choose[token] ==> CallerInputsUsable(s, token, inputs)
  {
    forall i | i in g.inputs ensures i.token == token && m.choose[token] && FromStore(s, token, i) {
    }
  }

  lemma AddsOnlyStep(s: WalletStorage, m: TokenMap, done: seq<Uid>, token: Uid, f: Funding, g: Funding)
    requires AddsOnly(s, m, done, f) && AddsOnly(s, m, [token], g) && token !in done
    requires UniqueOutpoints(s.funds) ==> Distinct(Map(f.inputs, InputIdOf())) && Distinct(Map(g.inputs, InputIdOf()))
    ensures AddsOnly(s, m, done + [token], Join(f, g))
    ensures UniqueOutpoints(s.funds) ==> Distinct(Map(Join(f, g).inputs, InputIdOf()))
  {
    if UniqueOutpoints(s.funds) {
      DifferentTokensDifferentIds(s, f.inputs, g.inputs, token);
      assert Map(f.inputs + g.inputs, InputIdOf()) == Map(f.inputs, InputIdOf()) + Map(g.inputs, InputIdOf());
      DistinctAppend(Map(f.inputs, InputIdOf()), Map(g.inputs, InputIdOf()));
    }
  }

  lemma SameIdSameUtxo(s: WalletStorage, a: Utxo, b: Utxo)
    requires UniqueOutpoints(s.funds) && a in s.funds.store.utxos && b in s.funds.store.utxos && a.id == b.id
    ensures a == b
  {
    var ids := Map(s.funds.store.utxos, UtxoIdOf());
    var i :| 0 <= i < |s.funds.store.utxos| && s.funds.store.utxos[i] == a;
    var j :| 0 <= j < |s.funds.store.utxos| && s.funds.store.utxos[j] == b;
    assert ids[i] == ids[j];
  }

  lemma OneTokenPerOutpoint(s: WalletStorage, i: DataInput, j: DataInput)
    requires UniqueOutpoints(s.funds) && FromStore(s, i.token, i) && FromStore(s, j.token, j) && i.token != j.token
    ensures i.id != j.id
  {
    var u :| u in s.funds.store.utxos && SpendsUtxo(i, u) && u.token == i.token;
    var v :| v in s.funds.store.utxos && SpendsUtxo(j, v) && v.token == j.token;
    if u.id == v.id {
      SameIdSameUtxo(s, u, v);
    }
  }

  lemma DifferentTokensDifferentIds(s: WalletStorage, a: seq<DataInput>, b: seq<DataInput>, token: Uid)
    requires UniqueOutpoints(s.funds)
    requires forall i :: i in a ==> i.token != token && FromStore(s, i.token, i)
    requires forall i :: i in b ==> i.token == token && FromStore(s, token, i)
    ensures forall id :: id in Map(a, InputIdOf()) ==> id !in Map(b, InputIdOf())
  {
    forall k, l | 0 <= k < |a| && 0 <= l < |b| ensures a[k].id != b[l].id {
      assert a[k] in a && b[l] in b;
      OneTokenPerOutpoint(s, a[k], b[l]);
    }
  }

  ghost predicate OneRefused(s: WalletStorage, outputs: seq<DataOutput>, inputs: seq<DataInput>, m: TokenMap,
                             changeAddress: Option<string>, e: SendError) {
    exists t :: t in m.choose && Refused(s, outputs, inputs, t, m.choose[t], changeAddress, 0, e)
  }

  lemma NextToken(m: TokenMap, k: nat)
    requires WellFormed(m) && k < |m.order|
    ensures m.order[k] in m.choose && m.order[k] !in m.order[..k]
    ensures m.order[..k+1] == m.order[..k] + [m.order[k]]
  {
    assert m.order[k] in m.order;
  }

  /** `prepareSendManyTokensData` */
  method PrepareSendManyTokensData(s: WalletStorage, outputs: seq<DataOutput>, inputs: seq<DataInput>, m: TokenMap,
                                   changeAddress: Option<string>)
    returns (r: Result<Funding, SendError>)
    requires WellFormed(m) && ChooseOnlyUnfunded(m, inputs)
    ensures r.Ok? ==> ManyFunded(s, outputs, inputs, m, m.order, r.value)
    ensures r.Ok? ==> ChangeGoesHome(s, changeAddress, r.value.outputs)
    ensures r.Err? ==> OneRefused(s, outputs, inputs, m, changeAddress, r.error)
  {
    var partial := Funding([], []);
    for k := 0 to |m.order|
      invariant ManyFunded(s, outputs, inputs, m, m.order[..k], partial)
      invariant ChangeGoesHome(s, changeAddress, partial.outputs)
    {
      var token := m.order[k];
      NextToken(m, k);
      var proposed :- PrepareSendTokensData(s, outputs, inputs, token, m.choose[token], changeAddress, 0);
      ManyFundedStep(s, outputs, inputs, m, m.order[..k], token, partial, proposed);
      partial := Join(partial, proposed);
    }
    assert m.order[..|m.order|] == m.order;
    r := Ok(partial);
  }
}
