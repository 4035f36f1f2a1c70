/** `NanoContractTransactionBuilder` (src/nano_contracts/builder.ts), for transactions that create no
    token: the object, its `execute…` methods, fee selection and `build`. */
module NanoTransactionBuilder {
  import opened Wrappers
  import opened SeqSums
  import opened WalletTypes
  import opened UtxoStore
  import opened SendModel
  import opened NanoWallet
  import opened NanoBuilder
  import opened NanoActions
  import Fee

  /** The custom tokens of the actions, each once. */
  ghost predicate TokenList(actions: seq<Action>, tokens: seq<Uid>) {
    Distinct(tokens) && forall t: Uid :: t in tokens <==> t != HTR && UsedToken(actions, t)
  }

  method CollectTokens(actions: seq<Action>) returns (tokens: seq<Uid>)
    ensures TokenList(actions, tokens)
  {
    tokens := [];
    for k := 0 to |actions|
      invariant TokenList(actions[..k], tokens)
    {
      var a := actions[k];
      assert actions[..k+1] == actions[..k] + [a];
      UsedAdds(actions[..k], a);
      assert forall t: Uid :: UsedToken(actions[..k+1], t) ==> UsedToken(actions[..k], t) || t == a.token;
      if a.token != HTR && a.token !in tokens {
        DistinctAppend(tokens, [a.token]);
        tokens := tokens + [a.token];
      }
    }
    assert actions[..|actions|] == actions;
  }

  /** `getTokenIndex`: 0 for HTR, else one more than the position in the list. */
  function TokenIndex(tokens: seq<Uid>, t: Uid): (i: nat)
    ensures t == HTR ==> i == 0
    ensures t != HTR && t in tokens ==> 1 <= i <= |tokens| && tokens[i - 1] == t
  {
    if t == HTR then 0 else Position(tokens, t)
  }

  /** `mapActionToActionHeader` */
  function HeaderFor(tokens: seq<Uid>): Action -> HeaderAction {
    (a: Action) =>
      HeaderAction(KindOf(a), TokenIndex(tokens, a.token),
                   if a.Deposit? || a.Withdrawal? then a.amount else AuthorityMask(a.authority))
  }

  /** The header tells each action by its kind, names its token by 0 for HTR or the place in the token list
      counted from 1, and states its amount, or 1 for mint and 2 for melt. */
  ghost predicate HeaderMatches(actions: seq<Action>, tokens: seq<Uid>, header: seq<HeaderAction>) {
    |header| == |actions| && forall k :: 0 <= k < |actions| ==> HeaderTells(actions[k], tokens, header[k])
  }

  predicate HeaderTells(a: Action, tokens: seq<Uid>, h: HeaderAction) {
    && (if h.tokenIndex == 0 then a.token == Uid("00") else h.tokenIndex <= |tokens| && tokens[h.tokenIndex - 1] == a.token)
    && match a
       case Deposit(_, amount, _, _) => h.kind == Fee.Deposit && h.amount == amount
       case Withdrawal(_, amount, _) => h.kind == Fee.Withdrawal && h.amount == amount
       case GrantAuthority(_, authority, _, _) => h.kind == Fee.GrantAuthority && h.amount == if authority == "mint" then 1 else 2
       case AcquireAuthority(_, authority, _) => h.kind == Fee.AcquireAuthority && h.amount == if authority == "mint" then 1 else 2
  }

  lemma HeaderIsFaithful(actions: seq<Action>, tokens: seq<Uid>)
    requires TokenList(actions, tokens)
    ensures HeaderMatches(actions, tokens, Map(actions, HeaderFor(tokens)))
  {
    forall k | 0 <= k < |actions| ensures actions[k].token == HTR || actions[k].token in tokens {
      assert UsedToken(actions, actions[k].token) by { assert actions[k] in actions; }
    }
  }

  /** A finished transaction without its fee: balanced when `paid` is the fee it pays. */
  ghost predicate Settled(s0: WalletStorage, actions: seq<Action>, ins: seq<DataInput>, outs: seq<DataOutput>, paid: int) {
    && AllBalanced(actions, ins, outs, paid)
    && WellBuilt(outs)
    && AtHome(s0, outs)
    && GrantsSpent(actions, ins)
    && InputsFresh(s0, ins)
  }

  ghost predicate FeeFor(s0: WalletStorage, actions: seq<Action>, ins: seq<DataInput>, outs: seq<DataOutput>, fee: int) {
    Fee.FeeResult(ins, outs, s0.tokens, FeeActions(actions)) == Ok(fee)
  }

  /** Paying the fee from outputs and extra HTR inputs. */
  lemma PaymentSettles(s0: WalletStorage, actions: seq<Action>, ins: seq<DataInput>, outs: seq<DataOutput>,
                       more: seq<DataInput>, outs': seq<DataOutput>, fee: int)
    requires Built(s0, actions, ins, outs) && WellBuilt(outs') && SameButHtrFunds(outs, outs')
    requires AtHome(s0, outs') && InputsFresh(s0, ins + more) && forall i :: i in more ==> i.token == HTR && i.authorities == 0
    requires Sum(more, InputFunds(HTR)) == Sum(outs', OutputFunds(HTR)) - Sum(outs, OutputFunds(HTR)) + fee
    ensures Settled(s0, actions, ins + more, outs', fee)
  {
    SameButHtrSums(outs, outs');
    FilterAppend(ins, more, HasAuthority());
    FilterNone(more, HasAuthority());
    forall t: Uid ensures Balanced(actions, ins + more, outs', t, fee) {
      assert Balanced(actions, ins, outs, t, 0);
      SumAppend(ins, more, InputFunds(t));
      if t != HTR {
        SumZero(more, InputFunds(t));
      }
    }
  }

  /** The fee computed before it was paid is the fee of the transaction that pays it. */
  lemma PaymentKeepsFee(s0: WalletStorage, actions: seq<Action>, ins: seq<DataInput>, outs: seq<DataOutput>,
                        more: seq<DataInput>, outs': seq<DataOutput>, fee: int)
    requires SameButHtrFunds(outs, outs') && (forall i :: i in more ==> i.token == HTR)
    requires FeeFor(s0, actions, ins, outs, fee)
    ensures FeeFor(s0, actions, ins + more, outs', fee)
  {
    SameButHtrSums(outs, outs');
    NativeInputsAdded(ins, more);
    Fee.FeeIgnoresNativeFundsAndOrder(Map(ins, Fee.InputElement()), Map(ins + more, Fee.InputElement()), Map(outs, Fee.OutputElement()),
                                      Map(outs', Fee.OutputElement()), s0.tokens, FeeActions(actions));
  }

  lemma NativeInputsAdded(ins: seq<DataInput>, more: seq<DataInput>)
    requires forall i :: i in more ==> i.token == HTR
    ensures Fee.SameCustomFunds(Map(ins, Fee.InputElement()), Map(ins + more, Fee.InputElement()))
  {
    var ie := Fee.InputElement();
    Fee.SameCustomFundsNative(Map(ins, ie), Map(more, ie));
    assert Map(ins + more, ie) == Map(ins, ie) + Map(more, ie);
  }

  /** A transaction whose fee is settled: it funds what is really paid and nothing else, owes the fee it
      declares, and its outputs are those asked for. */
  ghost predicate PaidOff(s0: WalletStorage, actions: seq<Action>, ins: seq<DataInput>, outs: seq<DataOutput>,
                          fee: int, paid: int, contractPays: bool) {
    && Settled(s0, actions, ins, outs, paid) && (AllBalanced(actions, ins, outs, fee) <==> paid == fee)
    && FeeFor(s0, actions, ins, outs, fee) && AsRequested(actions, outs, contractPays)
  }

  /** A finished transaction: paid off, with a fee that is not negative, its token list and its header. */
  ghost predicate Finished(s0: WalletStorage, actions: seq<Action>, tx: NanoTx, paid: int, contractPays: bool) {
    && PaidOff(s0, actions, tx.inputs, tx.outputs, tx.fee, paid, contractPays) && tx.fee >= 0
    && TokenList(actions, tx.tokens) && HeaderMatches(actions, tx.tokens, tx.actions)
  }

  lemma NowFinished(s0: WalletStorage, actions: seq<Action>, paidWith: Funding, tokens: seq<Uid>, fee: int, paid: int, contractPays: bool)
    requires PaidOff(s0, actions, paidWith.inputs, paidWith.outputs, fee, paid, contractPays) && fee >= 0 && TokenList(actions, tokens)
    ensures Finished(s0, actions, NanoTx(paidWith.inputs, paidWith.outputs, tokens, Map(actions, HeaderFor(tokens)), fee), paid, contractPays)
  {
    HeaderIsFaithful(actions, tokens);
  }

  /** Why finished actions did not become a transaction: a token is unknown, the fee is above the maximum
      or, where one is owed and paid here, not payable, or the vertex type is not one to build. */
  ghost predicate CompletionRefused(s0: WalletStorage, actions: seq<Action>, ins: seq<DataInput>, outs: seq<DataOutput>,
                                    vertex: Vertex, maxFee: Option<int>, contractPays: bool, marked: bool, e: BuildError) {
    var fee := Fee.FeeResult(ins, outs, s0.tokens, FeeActions(actions));
    if fee.Err? then e == BuildError.UnknownToken && !TokensKnown(s0.tokens, actions)
    else
      || (e == InvalidVertex && !vertex.PlainTransaction?)
      || (e == FeeExceedsMaximum && maxFee.Some? && fee.value > maxFee.value)
      || (OwesFee(s0.tokens, actions) && (contractPays || !marked)
          && PaymentRefused(WithSpent(s0, ins), outs, fee.value, contractPays, e))
  }

  lemma WalletPaid(s0: WalletStorage, actions: seq<Action>, ins: seq<DataInput>, outs: seq<DataOutput>,
                   more: seq<DataInput>, outs': seq<DataOutput>, fee: int)
    requires Built(s0, actions, ins, outs) && FeeFor(s0, actions, ins, outs, fee)
    requires WellBuilt(outs') && SameButHtrFunds(outs, outs') && Filter(outs', NotChange()) == Filter(outs, NotChange())
    requires AtHome(s0, outs') && InputsFresh(s0, ins + more) && forall i :: i in more ==> i.token == HTR && i.authorities == 0
    requires Sum(more, InputFunds(HTR)) == Sum(outs', OutputFunds(HTR)) - Sum(outs, OutputFunds(HTR)) + fee
    ensures PaidOff(s0, actions, ins + more, outs', fee, fee, false)
  {
    PaymentSettles(s0, actions, ins, outs, more, outs', fee);
    OneFeeBalances(actions, ins + more, outs', fee, fee);
    PaymentKeepsFee(s0, actions, ins, outs, more, outs', fee);
  }

  lemma OutputsPaid(s0: WalletStorage, actions: seq<Action>, ins: seq<DataInput>, outs: seq<DataOutput>,
                    outs': seq<DataOutput>, fee: int, paid: int, contractPays: bool)
    requires Built(s0, actions, ins, outs) && FeeFor(s0, actions, ins, outs, fee)
    requires WellBuilt(outs') && SameButHtrFunds(outs, outs') && AtHome(s0, outs') && (contractPays || outs' == outs)
    requires Sum(outs', OutputFunds(HTR)) + paid == Sum(outs, OutputFunds(HTR))
    ensures PaidOff(s0, actions, ins, outs', fee, paid, contractPays)
  {
    assert ins + [] == ins;
    PaymentSettles(s0, actions, ins, outs, [], outs', paid);
    OneFeeBalances(actions, ins, outs', paid, fee);
    PaymentKeepsFee(s0, actions, ins, outs, [], outs', fee);
    if contractPays {
      ContractKeepsRequested(actions, outs, outs');
    }
  }

  lemma SameOutputs(outs: seq<DataOutput>, mid: seq<DataOutput>, change: seq<DataOutput>)
    requires SameButHtrFunds(outs, mid) && forall o :: o in change ==> IsHtrFund()(o)
    ensures SameButHtrFunds(outs, mid + change)
  {
    FilterAppend(mid, change, NotHtrFund());
    FilterNone(change, NotHtrFund());
  }

  /** Releasing what was marked since `s0` gives `s0` back. */
  lemma ReleaseRestores(s0: WalletStorage, s: WalletStorage, ins: seq<DataInput>)
    requires InputsFresh(s0, ins) && s == WithMarks(s0, Marked(s0, IdsOf(ins)))
    ensures WithMarks(s, s.funds.selected - set id | id in IdsOf(ins) && Known(s, id)) == s0
  {
    MarksKeepHistory(s0, Marked(s0, IdsOf(ins)));
    forall id | id in IdsOf(ins) ensures id !in s0.funds.selected {
      var k :| 0 <= k < |ins| && IdsOf(ins)[k] == id;
      assert ins[k] in ins;
    }
    var left := s.funds.selected - set id | id in IdsOf(ins) && Known(s, id);
    assert left == s0.funds.selected;
  }

  /** At most one fee balances a transaction. */
  lemma OneFeeBalances(actions: seq<Action>, ins: seq<DataInput>, outs: seq<DataOutput>, paid: int, fee: int)
    requires AllBalanced(actions, ins, outs, paid)
    ensures AllBalanced(actions, ins, outs, fee) <==> paid == fee
  {
    assert Balanced(actions, ins, outs, HTR, paid);
    if AllBalanced(actions, ins, outs, fee) {
      assert Balanced(actions, ins, outs, HTR, fee);
    }
  }

  lemma TakeAll(actions: seq<Action>)
    ensures actions[..|actions|] == actions
  {
  }

  /** The change output of a deposit or of the fee, if there is change. */
  function ChangeOutput(token: Uid, change: nat, address: string): seq<DataOutput> {
    if change == 0 then [] else [DataOutput(AddressOutput, change, token, 0, address, None, true)]
  }

  lemma ChangeOutputSum(token: Uid, change: nat, address: string)
    ensures var outs := ChangeOutput(token, change, address);
      && Sum(outs, OutputFunds(token)) == change && WellBuilt(outs)
      && forall o :: o in outs ==> IsChangeOf(o, token) && o.address == address
  {
    var outs := ChangeOutput(token, change, address);
    assert outs != [] ==> outs[1..] == [];
  }

  /** The input spends a utxo free to use that carries the authority granted, at the asked address. */
  ghost predicate SpendsCarrier(s: WalletStorage, a: Action, i: DataInput)
    requires a.GrantAuthority?
  {
    exists u :: u in s.funds.store.utxos && SpendsUtxo(i, u) && IsCarrier(s, u, a.token, a.authority, a.address, true)
  }

  /** What a grant spends: nothing if there is no such authority, else one utxo that carries it. */
  lemma GrantStep(s: WalletStorage, a: Action)
    requires a.GrantAuthority?
    requires a.authority in {"mint", "melt"}
    ensures GrantInputs(s, a) == [] <==> NoAuthorityFor(s, a.token, a.authority, a.address)
    ensures var ins := GrantInputs(s, a);
      ins != [] ==>
        |ins| == 1 && SpendsCarrier(s, a, ins[0])
        && PickedFrom(s, a.token, ins) && Step(s, a, ins, RequestedOf(a))
  {
    var utxos := Selection(s.funds, AuthorityOptions(a.token, AuthorityMask(a.authority), a.address));
    GrantedIsPicked(s, a.token, a.authority, a.address);
    if utxos != [] {
      var ins := GrantInputs(s, a);
      assert ins == [InputFromUtxo(utxos[0])];
      assert SpendsUtxo(ins[0], utxos[0]);
      OneGrant(a, ins[0]);
      AuthorityStep(s, a, ins);
    }
  }

  class NanoContractTransactionBuilder {
    const wallet: HathorWallet
    var actions: seq<Action>
    var vertex: Vertex
    var tokenFeeAddedInDeposit: bool
    var maxFee: Option<int>
    var contractPaysFees: bool
    var changeAddress: Option<string>

    constructor (wallet: HathorWallet)
      ensures this.wallet == wallet && actions == [] && vertex == NoVertex && !tokenFeeAddedInDeposit
      ensures maxFee == None && !contractPaysFees && changeAddress == None
    {
      this.wallet, actions, vertex := wallet, [], NoVertex;
      tokenFeeAddedInDeposit, maxFee, contractPaysFees, changeAddress := false, None, false, None;
    }

    /** An HTR deposit also queries for the HTR that creating the token costs. */
    predicate AddsTokenFee(a: Action)
      reads `vertex, `contractPaysFees
    {
      a.token == HTR && vertex.CreateToken? && !vertex.options.contractPaysTokenDeposit && !contractPaysFees
    }

    function DepositExtra(a: Action): nat
      reads `vertex, `contractPaysFees
    {
      if !AddsTokenFee(a) then 0
      else if vertex.options.version == Fee.FeeToken then FEE_PER_OUTPUT + vertex.options.dataFee
      else vertex.options.htrDeposit
    }

    /** What a deposit takes from the wallet's utxos. */
    function TakenFor(a: Action): int
      requires a.Deposit?
      reads `vertex, `contractPaysFees
    {
      a.amount + DepositExtra(a)
    }

    function ChangeAddressOf(param: Option<string>): string
      reads `changeAddress, wallet
    {
      if Present(param) then param.value
      else if Present(changeAddress) then changeAddress.value
      else wallet.storage.currentAddress
    }

    /** Beside its amount, an HTR deposit of a token creation takes what the token costs, unless the contract
        pays: one HTR unit and the data fee for a token that charges fees, else the token's deposit. Change
        goes to the address of the action, else of the builder, else to the current one. */
    lemma DepositTerms(a: Action)
      requires a.Deposit?
      ensures TakenFor(a) == a.amount +
        if vertex.CreateToken? && a.token == Uid("00") && !vertex.options.contractPaysTokenDeposit && !contractPaysFees
        then (if vertex.options.version == Fee.FeeToken then 1 + vertex.options.dataFee else vertex.options.htrDeposit)
        else 0
      ensures ChangeAddressOf(a.changeAddress) ==
        if a.changeAddress.Some? && a.changeAddress.value != "" then a.changeAddress.value
        else if changeAddress.Some? && changeAddress.value != "" then changeAddress.value
        else wallet.storage.currentAddress
    {
    }

    /** `verify` checked the change address. */
    predicate ChangeChecked()
      reads `changeAddress, wallet
    {
      Present(changeAddress) ==> changeAddress.value in wallet.storage.mine
    }

    /** `executeDeposit` */
    method ExecuteDeposit(a: Action) returns (r: Result<(seq<DataInput>, seq<DataOutput>), BuildError>)
      requires a.Deposit?
      modifies wallet, this`tokenFeeAddedInDeposit
      ensures r.Ok? ==>
        && PickedFrom(old(wallet.storage), a.token, r.value.0)
        && wallet.storage == WithMarks(old(wallet.storage), Marked(old(wallet.storage), IdsOf(r.value.0)))
        && Sum(r.value.0, InputFunds(a.token)) == TakenFor(a) + Sum(r.value.1, OutputFunds(a.token))
        && (forall i :: i in r.value.0 ==> i.authorities == 0 && SpendsFunds(old(wallet.storage), a.token, a.address, i))
        && |r.value.1| <= 1 && (forall o :: o in r.value.1 ==> IsChangeOf(o, a.token) && o.address == ChangeAddressOf(a.changeAddress))
      ensures r.Ok? && Present(a.changeAddress) ==> a.changeAddress.value in wallet.storage.mine
      ensures r.Ok? <==> DepositAccepted(old(wallet.storage), a, TakenFor(a))
      ensures r.Ok? ==> r.value.0 == DepositInputs(old(wallet.storage), a, TakenFor(a))
      ensures r.Err? ==> wallet.storage == old(wallet.storage) && DepositRefused(wallet.storage, a, TakenFor(a), r.error)
      ensures tokenFeeAddedInDeposit
        <==> old(tokenFeeAddedInDeposit) || (AddsTokenFee(a) && (r.Ok? || r.error == NotEnoughForDeposit))
    {
      if a.amount == 0 {
        return Err(MissingField);
      }
      if Present(a.changeAddress) && a.changeAddress.value !in wallet.storage.mine {
        return Err(ForeignAddress);
      }
      var amount := TakenFor(a);
      if AddsTokenFee(a) {
        tokenFeeAddedInDeposit := true;
      }
      var address := ChangeAddressOf(a.changeAddress);
      r := SpendDeposit(a, amount, address);
      assert amount == TakenFor(a) && address == ChangeAddressOf(a.changeAddress);
    }

    /** The inputs, marks and change of a deposit. */
    method SpendDeposit(a: Action, amount: int, address: string) returns (r: Result<(seq<DataInput>, seq<DataOutput>), BuildError>)
      requires a.Deposit? && a.amount != 0 && (Present(a.changeAddress) ==> a.changeAddress.value in wallet.storage.mine)
      modifies wallet
      ensures r.Ok? ==>
        && r.value.0 == DepositInputs(old(wallet.storage), a, amount) && PickedFrom(old(wallet.storage), a.token, r.value.0)
        && wallet.storage == WithMarks(old(wallet.storage), Marked(old(wallet.storage), IdsOf(r.value.0)))
        && Sum(r.value.0, InputFunds(a.token)) == amount + Sum(r.value.1, OutputFunds(a.token))
        && (forall i :: i in r.value.0 ==> i.authorities == 0 && SpendsFunds(old(wallet.storage), a.token, a.address, i))
        && |r.value.1| <= 1 && (forall o :: o in r.value.1 ==> IsChangeOf(o, a.token) && o.address == address)
      ensures r.Ok? <==> DepositAccepted(old(wallet.storage), a, amount)
      ensures r.Err? ==> wallet.storage == old(wallet.storage) && r.error == NotEnoughForDeposit && DepositRefused(wallet.storage, a, amount, r.error)
      ensures wallet.storage.mine == old(wallet.storage.mine)
    {
      var spent := wallet.SpendForAmount(amount, a.token, a.address);
      if spent.None? {
        return Err(NotEnoughForDeposit);
      }
      ChangeOutputSum(a.token, spent.value.1, address);
      r := Ok((spent.value.0, ChangeOutput(a.token, spent.value.1, address)));
    }

    /** What a withdrawal leaves for the output. */
    function WithdrawalAmount(a: Action): int
      requires a.Withdrawal?
      reads `vertex
    {
      if vertex.CreateToken? && a.token == HTR && vertex.options.contractPaysTokenDeposit && vertex.options.version == Fee.DepositToken
      then a.amount - vertex.options.htrDeposit else a.amount
    }

    /** `executeWithdrawal`; when the contract pays a token deposit, the output is what is left. */
    method ExecuteWithdrawal(a: Action) returns (r: Result<Option<DataOutput>, BuildError>)
      requires a.Withdrawal?
      ensures r.Ok? && r.value.Some? ==>
        && WithdrawalAmount(a) > 0 && Present(a.address)
        && r.value.value == WithdrawalOutput(a.token, WithdrawalAmount(a), a.address.value)
      ensures r.Ok? && r.value.None? <==> a.amount != 0 && WithdrawalAmount(a) == 0
      ensures WithdrawalAmount(a) == a.amount -
        if vertex.CreateToken? && a.token == Uid("00") && vertex.options.contractPaysTokenDeposit && vertex.options.version == Fee.DepositToken
        then vertex.options.htrDeposit else 0
      ensures r.Ok? && r.value.Some? ==>
        r.value.value == DataOutput(AddressOutput, WithdrawalAmount(a), a.token, 0, a.address.value, None, false)
      ensures r.Ok? <==> a.amount != 0 && WithdrawalAmount(a) >= 0 && (WithdrawalAmount(a) > 0 ==> Present(a.address))
      ensures r.Err? ==>
        || (r.error == MissingField && (a.amount == 0 || !Present(a.address)))
        || (r.error == NegativeWithdrawal && WithdrawalAmount(a) < 0)
    {
      if a.amount == 0 {
        return Err(MissingField);
      }
      var amount := a.amount;
      if vertex.CreateToken? && a.token == HTR && vertex.options.contractPaysTokenDeposit && vertex.options.version == Fee.DepositToken {
        amount := amount - vertex.options.htrDeposit;
      }
      if amount == 0 {
        return Ok(None);
      }
      if amount < 0 {
        return Err(NegativeWithdrawal);
      }
      if !Present(a.address) {
        return Err(MissingField);
      }
      r := Ok(Some(DataOutput(AddressOutput, amount, a.token, 0, a.address.value, None, false)));
    }

    /** `executeGrantAuthority` */
    method ExecuteGrantAuthority(a: Action) returns (r: Result<(seq<DataInput>, seq<DataOutput>), BuildError>)
      requires a.GrantAuthority?
      modifies wallet
      ensures r.Ok? ==>
        && PickedFrom(old(wallet.storage), a.token, r.value.0)
        && |r.value.0| == 1 && SpendsCarrier(old(wallet.storage), a, r.value.0[0])
        && wallet.storage == WithMarks(old(wallet.storage), Marked(old(wallet.storage), IdsOf(r.value.0)))
        && r.value.1 == RequestedOf(a) && Step(old(wallet.storage), a, r.value.0, r.value.1)
      ensures r.Ok? ==>
        if Present(a.authorityAddress) then |r.value.1| == 1 && HoldsAuthority(r.value.1[0], a.token, a.authority, a.authorityAddress.value)
        else r.value.1 == []
      ensures r.Ok? <==> GrantAccepted(old(wallet.storage), a)
      ensures r.Ok? ==> r.value.0 == GrantInputs(old(wallet.storage), a)
      ensures r.Err? ==> wallet.storage == old(wallet.storage) && GrantRefused(wallet.storage, a, r.error)
    {
      if a.authority == "" {
        return Err(MissingField);
      }
      if Present(a.authorityAddress) && a.authorityAddress.value !in wallet.storage.mine {
        return Err(ForeignAddress);
      }
      var utxos := GetAuthorityUtxo(wallet.storage, a.token, a.authority, a.address, false, true);
      if utxos.Some? {
        GrantStep(wallet.storage, a);
      }
      if utxos.None? || |utxos.value| == 0 {
        return Err(NoAuthorityUtxo);
      }
      var inputs := wallet.MarkAndConvert(utxos.value);
      var outputs: seq<DataOutput> := [];
      if Present(a.authorityAddress) {
        outputs := [AuthorityOutput(a, a.authorityAddress.value)];
      }
      r := Ok((inputs, outputs));
    }

    /** `executeAcquireAuthority` */
    method ExecuteAcquireAuthority(a: Action) returns (r: Result<DataOutput, BuildError>)
      requires a.AcquireAuthority?
      ensures r.Ok? <==> a.authority != "" && Present(a.address)
      ensures r.Ok? ==> [r.value] == RequestedOf(a)
      ensures r.Ok? ==> HoldsAuthority(r.value, a.token, a.authority, a.address.value)
      ensures r.Err? ==> r.error == MissingField
    {
      if !Present(a.address) || a.authority == "" {
        return Err(MissingField);
      }
      r := Ok(AuthorityOutput(a, a.address.value));
    }

    /** The switch over the action type, for a transaction that creates no token. */
    method ExecuteAction(a: Action, ghost s: WalletStorage) returns (r: Result<(seq<DataInput>, seq<DataOutput>), BuildError>)
      requires !vertex.CreateToken? && ChangeChecked() && s == wallet.storage
      modifies wallet, this`tokenFeeAddedInDeposit
      ensures tokenFeeAddedInDeposit == old(tokenFeeAddedInDeposit)
      ensures r.Ok? ==> Performed(s, a, r.value.0, r.value.1) && wallet.storage == WithSpent(s, r.value.0)
      ensures r.Err? ==> wallet.storage == s && !Accepted(s, a) && ActionRefused(s, a, r.error)
    {
      match a {
        case Deposit(_, _, _, _) =>
          r := PlainDeposit(a, s);
        case Withdrawal(_, _, _) =>
          r := Receive(a, s);
        case GrantAuthority(_, _, _, _) =>
          r := Grant(a, s);
        case AcquireAuthority(_, _, _) =>
          r := Receive(a, s);
      }
    }

    /** `executeGrantAuthority` as one of the actions. */
    method Grant(a: Action, ghost s: WalletStorage) returns (r: Result<(seq<DataInput>, seq<DataOutput>), BuildError>)
      requires a.GrantAuthority? && s == wallet.storage
      modifies wallet
      ensures r.Ok? ==> Performed(s, a, r.value.0, r.value.1) && wallet.storage == WithSpent(s, r.value.0)
      ensures r.Err? ==> wallet.storage == s && !Accepted(s, a) && ActionRefused(s, a, r.error)
    {
      r := ExecuteGrantAuthority(a);
    }

    /** The actions that only add an output. */
    method Receive(a: Action, ghost s: WalletStorage) returns (r: Result<(seq<DataInput>, seq<DataOutput>), BuildError>)
      requires (a.Withdrawal? || a.AcquireAuthority?) && !vertex.CreateToken? && ChangeChecked() && s == wallet.storage
      ensures r.Ok? ==> Performed(s, a, r.value.0, r.value.1) && wallet.storage == WithSpent(s, r.value.0)
      ensures r.Err? ==> wallet.storage == s && !Accepted(s, a) && ActionRefused(s, a, r.error)
    {
      if a.Withdrawal? {
        var output := ExecuteWithdrawal(a);
        if output.Err? {
          return Err(output.error);
        }
        WithdrawalDone(s, a);
        r := Ok(([], [output.value.value]));
      } else {
        var output := ExecuteAcquireAuthority(a);
        if output.Err? {
          return Err(output.error);
        }
        AcquireDone(s, a);
        r := Ok(([], [output.value]));
      }
    }

    /** `executeDeposit` where no token is created: nothing is taken on beside the deposit. */
    method PlainDeposit(a: Action, ghost s: WalletStorage) returns (r: Result<(seq<DataInput>, seq<DataOutput>), BuildError>)
      requires a.Deposit? && !vertex.CreateToken? && ChangeChecked() && s == wallet.storage
      modifies wallet, this`tokenFeeAddedInDeposit
      ensures tokenFeeAddedInDeposit == old(tokenFeeAddedInDeposit)
      ensures r.Ok? ==> Performed(s, a, r.value.0, r.value.1) && wallet.storage == WithSpent(s, r.value.0)
      ensures r.Err? ==> wallet.storage == s && !Accepted(s, a) && ActionRefused(s, a, r.error)
    {
      assert TakenFor(a) == a.amount;
      r := ExecuteDeposit(a);
      if r.Ok? {
        DepositDone(s, a, r.value.0, r.value.1);
      }
    }

    /** `buildInputsOutputs`. A failing action leaves the inputs of the `done` actions before it marked. */
    method BuildInputsOutputs(ghost s0: WalletStorage, ghost todo: seq<Action>)
      returns (r: Result<(seq<DataInput>, seq<DataOutput>), BuildError>, tokens: seq<Uid>, ghost done: nat, ghost left: Funding)
      requires !vertex.CreateToken? && ChangeChecked() && s0 == wallet.storage && todo == actions
      modifies wallet, this`tokenFeeAddedInDeposit
      ensures tokenFeeAddedInDeposit == old(tokenFeeAddedInDeposit)
      ensures TokenList(todo, tokens)
      ensures Phase(s0, todo, done, left.inputs, left.outputs) && wallet.storage == WithSpent(s0, left.inputs)
      ensures r.Ok? ==> done == |todo| && left == Funding(r.value.0, r.value.1)
      ensures r.Err? ==> done < |todo| && !Accepted(wallet.storage, todo[done]) && ActionRefused(wallet.storage, todo[done], r.error)
    {
      tokens := CollectTokens(actions);
      var inputs: seq<DataInput> := [];
      var outputs: seq<DataOutput> := [];
      PhaseStart(s0, todo);
      for k := 0 to |actions|
        invariant tokenFeeAddedInDeposit == old(tokenFeeAddedInDeposit)
        invariant Phase(s0, todo, k, inputs, outputs)
        invariant wallet.storage == WithSpent(s0, inputs)
      {
        done, left := k, Funding(inputs, outputs);
        var step := NextAction(s0, todo, k, inputs, outputs);
        if step.Err? {
          return Err(step.error), tokens, done, left;
        }
        inputs, outputs := inputs + step.value.0, outputs + step.value.1;
      }
      done, left := |actions|, Funding(inputs, outputs);
      r := Ok((inputs, outputs));
    }

    /** The action at `k`, after those before it. */
    method NextAction(ghost s0: WalletStorage, ghost todo: seq<Action>, k: nat, ghost inputs: seq<DataInput>, ghost outputs: seq<DataOutput>)
      returns (r: Result<(seq<DataInput>, seq<DataOutput>), BuildError>)
      requires !vertex.CreateToken? && ChangeChecked() && todo == actions && k < |actions|
      requires Phase(s0, todo, k, inputs, outputs) && wallet.storage == WithSpent(s0, inputs)
      modifies wallet, this`tokenFeeAddedInDeposit
      ensures tokenFeeAddedInDeposit == old(tokenFeeAddedInDeposit)
      ensures r.Ok? ==>
        && Phase(s0, todo, k + 1, inputs + r.value.0, outputs + r.value.1)
        && wallet.storage == WithSpent(s0, inputs + r.value.0)
      ensures r.Err? ==>
        wallet.storage == WithSpent(s0, inputs) && !Accepted(wallet.storage, todo[k]) && ActionRefused(wallet.storage, todo[k], r.error)
    {
      r := ExecuteAction(actions[k], wallet.storage);
      if r.Ok? {
        PhaseStep(s0, todo, k, inputs, outputs, r.value.0, r.value.1);
      }
    }

    /** `selectFeeInputs` */
    method SelectFeeInputs(amount: int) returns (r: Result<(seq<DataInput>, seq<DataOutput>), BuildError>)
      requires amount > 0
      modifies wallet
      ensures r.Ok? ==>
        && PickedFrom(old(wallet.storage), HTR, r.value.0)
        && wallet.storage == WithMarks(old(wallet.storage), Marked(old(wallet.storage), IdsOf(r.value.0)))
        && Sum(r.value.0, InputFunds(HTR)) == amount + Sum(r.value.1, OutputFunds(HTR))
        && WellBuilt(r.value.1)
        && (forall i :: i in r.value.0 ==> i.authorities == 0 && SpendsFunds(old(wallet.storage), HTR, None, i))
        && (forall o :: o in r.value.1 ==> IsChangeOf(o, HTR) && o.address == ChangeAddressOf(None))
      ensures r.Err? ==> r.error == NotEnoughForFee && wallet.storage == old(wallet.storage)
      ensures r.Err? <==> Sum(Spendable(old(wallet.storage), HTR, None), UtxoValue()) < amount
    {
      var spent := wallet.SpendForAmount(amount, HTR, None);
      if spent.None? {
        return Err(NotEnoughForFee);
      }
      var address := ChangeAddressOf(None);
      ChangeOutputSum(HTR, spent.value.1, address);
      r := Ok((spent.value.0, ChangeOutput(HTR, spent.value.1, address)));
    }

    /** What the transaction really pays: a fee marked as added to a deposit is not funded here. */
    function Paid(fee: int): int
      reads `contractPaysFees, `tokenFeeAddedInDeposit
    {
      if contractPaysFees || !tokenFeeAddedInDeposit then fee else 0
    }

    /** Paying from the deposit's change first, and from fresh HTR for what remains. */
    method PayFromWallet(ghost s0: WalletStorage, inputs: seq<DataInput>, outputs: seq<DataOutput>, fee: int)
      returns (r: Result<Funding, BuildError>, ghost more: seq<DataInput>)
      requires fee > 0 && WellBuilt(outputs) && InputsFresh(s0, inputs) && AtHome(s0, outputs) && ChangeChecked()
      requires wallet.storage == WithMarks(s0, Marked(s0, IdsOf(inputs)))
      modifies wallet
      ensures r.Ok? ==>
        && r.value.inputs == inputs + more && (forall i :: i in more ==> i.token == HTR && i.authorities == 0)
        && Filter(r.value.outputs, NotChange()) == Filter(outputs, NotChange()) && AtHome(s0, r.value.outputs)
        && InputsFresh(s0, r.value.inputs)
        && WellBuilt(r.value.outputs) && SameButHtrFunds(outputs, r.value.outputs)
        && Sum(more, InputFunds(HTR)) == Sum(r.value.outputs, OutputFunds(HTR)) - Sum(outputs, OutputFunds(HTR)) + fee
        && wallet.storage == WithMarks(s0, Marked(s0, IdsOf(r.value.inputs)))
      ensures r.Err? ==> wallet.storage == old(wallet.storage) && PaymentRefused(wallet.storage, outputs, fee, false, r.error)
    {
      more := [];
      assert inputs + more == inputs;
      var outs, remaining := PayFromChange(s0, outputs, fee);
      if remaining == 0 {
        return Ok(Funding(inputs, outs)), more;
      }
      ghost var s := wallet.storage;
      var extra := SelectFeeInputs(remaining);
      if extra.Err? {
        return Err(extra.error), more;
      }
      more := extra.value.0;
      FreshAdds(s0, s, HTR, inputs, more);
      MarksAdd(s0, s, inputs, more);
      SameOutputs(outputs, outs, extra.value.1);
      SumAppend(outs, extra.value.1, OutputFunds(HTR));
      FilterAppend(outs, extra.value.1, NotChange());
      FilterNone(extra.value.1, NotChange());
      r := Ok(Funding(inputs + extra.value.0, outs + extra.value.1));
    }

    method PayFeeFromWallet(ghost s0: WalletStorage, ghost todo: seq<Action>, inputs: seq<DataInput>, outputs: seq<DataOutput>, fee: int)
      returns (r: Result<Funding, BuildError>)
      requires fee > 0 && Built(s0, todo, inputs, outputs) && ChangeChecked()
      requires FeeFor(s0, todo, inputs, outputs, fee)
      requires wallet.storage == WithMarks(s0, Marked(s0, IdsOf(inputs)))
      modifies wallet
      ensures r.Ok? ==> PaidOff(s0, todo, r.value.inputs, r.value.outputs, fee, fee, false)
      ensures r.Ok? ==> wallet.storage == WithMarks(s0, Marked(s0, IdsOf(r.value.inputs)))
      ensures r.Err? ==> wallet.storage == old(wallet.storage) && PaymentRefused(wallet.storage, outputs, fee, false, r.error)
    {
      ghost var more;
      r, more := PayFromWallet(s0, inputs, outputs, fee);
      if r.Ok? {
        WalletPaid(s0, todo, inputs, outputs, more, r.value.outputs, fee);
      }
    }

    /** The fee settlement of `build`. */
    method PayFee(ghost s0: WalletStorage, ghost todo: seq<Action>, inputs: seq<DataInput>, outputs: seq<DataOutput>, fee: int)
      returns (r: Result<Funding, BuildError>)
      requires fee >= 0 && Built(s0, todo, inputs, outputs) && ChangeChecked()
      requires FeeFor(s0, todo, inputs, outputs, fee)
      requires wallet.storage == WithMarks(s0, Marked(s0, IdsOf(inputs)))
      modifies wallet
      ensures r.Ok? ==> PaidOff(s0, todo, r.value.inputs, r.value.outputs, fee, Paid(fee), contractPaysFees)
      ensures r.Ok? ==> wallet.storage == WithMarks(s0, Marked(s0, IdsOf(r.value.inputs)))
      ensures r.Err? ==> wallet.storage == old(wallet.storage) && PaymentRefused(wallet.storage, outputs, fee, contractPaysFees, r.error)
      ensures r.Err? ==> fee > 0 && (contractPaysFees || !tokenFeeAddedInDeposit)
    {
      if fee > 0 && !contractPaysFees && !tokenFeeAddedInDeposit {
        r := PayFeeFromWallet(s0, todo, inputs, outputs, fee);
        return;
      }
      var outs := outputs;
      if fee > 0 && contractPaysFees {
        outs :- PayFromContract(s0, outputs, fee);
      }
      OutputsPaid(s0, todo, inputs, outputs, outs, fee, Paid(fee), contractPaysFees);
      r := Ok(Funding(inputs, outs));
    }

    /** `calculateFee`; without a token to create there is no data output fee. */
    method CalculateFee(inputs: seq<DataInput>, outputs: seq<DataOutput>) returns (r: Option<int>)
      ensures r.Some? ==> r.value >= 0 && FeeFor(wallet.storage, actions, inputs, outputs, r.value)
      ensures r.None? ==> Fee.FeeResult(inputs, outputs, wallet.storage.tokens, FeeActions(actions)).Err?
    {
      var fee := Fee.Calculate(inputs, outputs, wallet.storage.tokens, FeeActions(actions));
      r := if fee.Ok? then Some(fee.value) else None;
    }

    /** The fee, checked against the maximum. */
    method FeeDue(ghost s0: WalletStorage, ghost todo: seq<Action>, inputs: seq<DataInput>, outputs: seq<DataOutput>)
      returns (r: Result<int, BuildError>)
      requires todo == actions && Built(s0, todo, inputs, outputs) && wallet.storage.tokens == s0.tokens
      ensures r.Ok? ==> r.value >= 0 && FeeFor(s0, todo, inputs, outputs, r.value)
      ensures r.Ok? ==> (r.value > 0 <==> OwesFee(s0.tokens, todo)) && (maxFee.Some? ==> r.value <= maxFee.value)
      ensures r.Err? ==>
        CompletionRefused(s0, todo, inputs, outputs, vertex, maxFee, contractPaysFees, tokenFeeAddedInDeposit, r.error)
    {
      var fee := CalculateFee(inputs, outputs);
      FeeKnown(s0.tokens, todo, inputs, outputs);
      if fee.None? {
        return Err(BuildError.UnknownToken);
      }
      FeeOwed(s0.tokens, todo, inputs, outputs, fee.value);
      if maxFee.Some? && fee.value > maxFee.value {
        return Err(FeeExceedsMaximum);
      }
      r := Ok(fee.value);
    }

    /** Everything after `buildInputsOutputs`. */
    method Complete(ghost s0: WalletStorage, ghost todo: seq<Action>, inputs: seq<DataInput>, outputs: seq<DataOutput>, tokens: seq<Uid>)
      returns (r: Result<NanoTx, BuildError>)
      requires todo == actions && Built(s0, todo, inputs, outputs) && TokenList(todo, tokens) && ChangeChecked()
      requires wallet.storage == WithMarks(s0, Marked(s0, IdsOf(inputs)))
      modifies wallet
      ensures r.Ok? ==> Finished(s0, todo, r.value, Paid(r.value.fee), contractPaysFees)
      ensures r.Ok? ==> (r.value.fee > 0 <==> OwesFee(s0.tokens, todo))
      ensures r.Ok? ==> maxFee.Some? ==> r.value.fee <= maxFee.value
      ensures r.Ok? ==> wallet.storage == WithSpent(s0, r.value.inputs) && vertex.PlainTransaction?
      ensures r.Err? ==>
        wallet.storage == s0 && CompletionRefused(s0, todo, inputs, outputs, vertex, maxFee, contractPaysFees, tokenFeeAddedInDeposit, r.error)
    {
      var fee := FeeDue(s0, todo, inputs, outputs);
      if fee.Err? {
        Undo(s0, inputs);
        return Err(fee.error);
      }
      var paid := PayFee(s0, todo, inputs, outputs, fee.value);
      if paid.Err? {
        Undo(s0, inputs);
        return Err(paid.error);
      }
      if !vertex.PlainTransaction? {
        Undo(s0, paid.value.inputs);
        return Err(InvalidVertex);
      }
      NowFinished(s0, todo, paid.value, tokens, fee.value, Paid(fee.value), contractPaysFees);
      r := Ok(NanoTx(paid.value.inputs, paid.value.outputs, tokens, Map(actions, HeaderFor(tokens)), fee.value));
    }

    /** The `catch` of `build`: releasing the inputs restores the marks of the start. */
    method Undo(ghost s0: WalletStorage, inputs: seq<DataInput>)
      requires InputsFresh(s0, inputs) && wallet.storage == WithMarks(s0, Marked(s0, IdsOf(inputs)))
      modifies wallet
      ensures wallet.storage == s0
    {
      ReleaseRestores(s0, wallet.storage, inputs);
      wallet.Release(inputs);
    }

    /** `build`. Whatever the actions and whoever pays the fee, the result balances in every token
        exactly when no earlier token creation left its fee mark on the builder, or the contract
        pays, or no action moves a token that owes a fee. A failure leaves the wallet as it was exactly
        when it came after the action phase, or no action before the failing one spent an outpoint the
        history knows as unspent; where the history knows every utxo, no deposit and no grant before it. */
    method Build() returns (r: Result<NanoTx, BuildError>, ghost done: nat, ghost left: Funding)
      requires !vertex.CreateToken?
      modifies wallet, this`tokenFeeAddedInDeposit
      ensures tokenFeeAddedInDeposit == old(tokenFeeAddedInDeposit)
      ensures r.Ok? ==> Finished(old(wallet.storage), actions, r.value, Paid(r.value.fee), contractPaysFees)
      ensures r.Ok? ==>
        (AllBalanced(actions, r.value.inputs, r.value.outputs, r.value.fee)
         <==> !tokenFeeAddedInDeposit || contractPaysFees || !OwesFee(old(wallet.storage.tokens), actions))
      ensures r.Ok? ==> maxFee.Some? ==> r.value.fee <= maxFee.value
      ensures r.Ok? ==> wallet.storage == WithSpent(old(wallet.storage), r.value.inputs)
      ensures r.Ok? ==> done == |actions| && vertex.PlainTransaction?
      ensures Phase(old(wallet.storage), actions, done, left.inputs, left.outputs)
      ensures !old(ChangeChecked()) ==> done == 0 && r == Err(ForeignAddress)
      ensures r.Err? && old(ChangeChecked()) ==>
        if done < |actions|
        then !Accepted(wallet.storage, actions[done]) && ActionRefused(wallet.storage, actions[done], r.error)
          && wallet.storage == WithSpent(old(wallet.storage), left.inputs)
        else CompletionRefused(old(wallet.storage), actions, left.inputs, left.outputs,
                               vertex, maxFee, contractPaysFees, tokenFeeAddedInDeposit, r.error)
      ensures r.Err? ==>
        (wallet.storage == old(wallet.storage) <==> done == |actions| || !LeavesMark(old(wallet.storage), actions[..done]))
      ensures r.Err? && UtxosKnown(old(wallet.storage)) ==>
        (wallet.storage == old(wallet.storage) <==> done == |actions| || !AnySpends(actions[..done]))
    {
      ghost var s0, todo := wallet.storage, actions;
      if Present(changeAddress) && changeAddress.value !in wallet.storage.mine {
        NothingDone(s0, todo);
        return Err(ForeignAddress), 0, Funding([], []);
      }
      r, done, left := BuildChecked(s0, todo);
    }

    /** `build` once the change address is checked. */
    method BuildChecked(ghost s0: WalletStorage, ghost todo: seq<Action>)
      returns (r: Result<NanoTx, BuildError>, ghost done: nat, ghost left: Funding)
      requires !vertex.CreateToken? && ChangeChecked() && s0 == wallet.storage && todo == actions
      modifies wallet, this`tokenFeeAddedInDeposit
      ensures tokenFeeAddedInDeposit == old(tokenFeeAddedInDeposit)
      ensures r.Ok? ==> Finished(s0, todo, r.value, Paid(r.value.fee), contractPaysFees)
      ensures r.Ok? ==> (r.value.fee > 0 <==> OwesFee(s0.tokens, todo))
      ensures r.Ok? ==> maxFee.Some? ==> r.value.fee <= maxFee.value
      ensures r.Ok? ==> wallet.storage == WithSpent(s0, r.value.inputs)
      ensures r.Ok? ==> done == |todo| && vertex.PlainTransaction?
      ensures Phase(s0, todo, done, left.inputs, left.outputs)
      ensures r.Err? && done < |todo| ==>
        && !Accepted(wallet.storage, todo[done]) && ActionRefused(wallet.storage, todo[done], r.error)
        && wallet.storage == WithSpent(s0, left.inputs)
      ensures r.Err? ==> (wallet.storage == s0 <==> done == |todo| || !LeavesMark(s0, todo[..done]))
      ensures r.Err? && UtxosKnown(s0) ==> (wallet.storage == s0 <==> done == |todo| || !AnySpends(todo[..done]))
      ensures r.Err? && done == |todo| ==>
        && wallet.storage == s0
        && CompletionRefused(s0, todo, left.inputs, left.outputs, vertex, maxFee, contractPaysFees, tokenFeeAddedInDeposit, r.error)
    {
      var built, tokens;
      built, tokens, done, left := BuildInputsOutputs(s0, todo);
      if built.Err? {
        UnchangedIffUnmarked(s0, todo, done, left.inputs, left.outputs);
        return Err(built.error), done, left;
      }
      TakeAll(todo);
      r := Complete(s0, todo, built.value.0, built.value.1, tokens);
    }
  }
}
