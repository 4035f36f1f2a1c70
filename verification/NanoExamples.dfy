/** Two runs of the nano contract builder that show where it does not keep its promises. */
module NanoExamples {
  import opened Wrappers
  import opened SeqSums
  import opened WalletTypes
  import opened UtxoStore
  import opened SendModel
  import opened NanoWallet
  import opened NanoBuilder
  import opened NanoActions
  import opened NanoTransactionBuilder
  import Fee

  const FEE_TOKEN: Uid := Uid("ab")

  function Coin(txId: string, token: Uid, value: nat): Utxo {
    Utxo(UtxoId(txId, 0), token, "home", value, 0, None, 1, None, false, None, None)
  }

  function CoinTx(token: Uid, value: nat): HistoryTx {
    HistoryTx([HistoryOutput(value, token, 0, Some("home"), false, None)], [], false, None)
  }

  /** A wallet with 5 HTR and 7 of a token that pays fees, nothing marked. */
  function TwoCoins(): WalletStorage {
    WalletStorage(Storage(Store([Coin("aa", HTR, 5), Coin("bb", FEE_TOKEN, 7)], 0, 0, map[]), {}, 0),
                  map["aa" := CoinTx(HTR, 5), "bb" := CoinTx(FEE_TOKEN, 7)], {"home"}, "home", map[FEE_TOKEN := Fee.FeeToken], None)
  }

  lemma MemberSum(us: seq<Utxo>, u: Utxo)
    requires u in us
    ensures Sum(us, UtxoValue()) >= u.value
  {
    var i :| 0 <= i < |us| && us[i] == u;
    SumSplitAt(us, i, UtxoValue());
    SumNonNegative(us[..i], UtxoValue());
    SumNonNegative(us[i+1..], UtxoValue());
  }

  /** A free utxo of the token can always be spent. */
  lemma FreeIsSpendable(s: WalletStorage, token: Uid, address: Option<string>, u: Utxo)
    requires u in s.funds.store.utxos && Matches(u, s.funds.store, WrappedOptions(s.funds, AmountOptions(token, address)))
    ensures Sum(Spendable(s, token, address), UtxoValue()) >= u.value
  {
    var o := AmountOptions(token, address);
    var iter := Ordered(s.funds.store.utxos, Descending);
    OrderedPermutes(s.funds.store.utxos, Descending);
    assert u in multiset(iter);
    SelectionIsExhaustive(iter, s.funds.store, WrappedOptions(s.funds, o), 0, 0);
    assert u in Selection(s.funds, o);
    MemberSum(Spendable(s, token, address), u);
  }

  /** A coin of `TwoCoins` that is not marked. */
  lemma CoinIsSpendable(s: WalletStorage, token: Uid)
    requires s == WithMarks(TwoCoins(), s.funds.selected)
    ensures UtxoId("aa", 0) !in s.funds.selected ==> Sum(Spendable(s, HTR, None), UtxoValue()) >= 5
    ensures UtxoId("bb", 0) !in s.funds.selected ==> Sum(Spendable(s, FEE_TOKEN, None), UtxoValue()) >= 7
  {
    if UtxoId("aa", 0) !in s.funds.selected {
      FreeIsSpendable(s, HTR, None, Coin("aa", HTR, 5));
    }
    if UtxoId("bb", 0) !in s.funds.selected {
      FreeIsSpendable(s, FEE_TOKEN, None, Coin("bb", FEE_TOKEN, 7));
    }
  }

  /** Spending the HTR marks its only coin. */
  lemma HtrMarks(ins: seq<DataInput>)
    requires ins != [] && forall i :: i in ins ==> i.token == HTR && InStore(TwoCoins(), i)
    ensures WithSpent(TwoCoins(), ins) == WithMarks(TwoCoins(), {UtxoId("aa", 0)})
  {
    var s := TwoCoins();
    forall i | i in ins ensures i.id == UtxoId("aa", 0) {
      var u :| u in s.funds.store.utxos && SpendsUtxo(i, u);
    }
    assert ins[0] in ins && IdsOf(ins)[0] == ins[0].id;
    assert forall k :: 0 <= k < |ins| ==> IdsOf(ins)[k] == ins[k].id && ins[k] in ins;
    assert Resolve(s, UtxoId("aa", 0)) == Some(TransparentOutput(HistoryOutput(5, HTR, 0, Some("home"), false, None)));
    assert Marked(s, IdsOf(ins)) == {UtxoId("aa", 0)};
  }

  /** A failing second action: `build` throws, and the coin of the first action stays marked. */
  method FailureKeepsMark() returns (r: Result<NanoTx, BuildError>, before: WalletStorage, after: WalletStorage)
    ensures r.Err? && before.funds.selected == {} && after == WithMarks(before, {UtxoId("aa", 0)})
  {
    before := TwoCoins();
    var wallet := new HathorWallet(before);
    var builder := new NanoContractTransactionBuilder(wallet);
    var deposit := Deposit(HTR, 5, None, None);
    builder.vertex, builder.actions := PlainTransaction, [deposit, Withdrawal(HTR, 0, None)];
    ghost var done, left;
    r, done, left := BuildOrStop(builder, before, builder.actions);
    after := wallet.storage;
    FirstOnly(before, builder.actions, deposit, done, left.inputs, left.outputs);
    HtrMarks(left.inputs);
  }

  /** Where a build without a change address stopped, if it did. */
  method BuildOrStop(builder: NanoContractTransactionBuilder, ghost s: WalletStorage, ghost todo: seq<Action>)
    returns (r: Result<NanoTx, BuildError>, ghost done: nat, ghost left: Funding)
    requires builder.vertex == PlainTransaction && builder.changeAddress == None && builder.maxFee == None && !builder.contractPaysFees
    requires builder.wallet.storage == s && builder.actions == todo
    modifies builder.wallet, builder`tokenFeeAddedInDeposit
    ensures Phase(s, todo, done, left.inputs, left.outputs)
    ensures done < |todo| ==> r.Err? && builder.wallet.storage == WithSpent(s, left.inputs) && !Accepted(builder.wallet.storage, todo[done])
    ensures done == |todo| && r.Err? ==>
      CompletionRefused(s, todo, left.inputs, left.outputs, PlainTransaction, None, false, old(builder.tokenFeeAddedInDeposit), r.error)
    ensures r.Ok? && old(builder.tokenFeeAddedInDeposit) && OwesFee(s.tokens, todo) ==>
      !AllBalanced(todo, r.value.inputs, r.value.outputs, r.value.fee)
  {
    r, done, left := builder.Build();
  }

  lemma FirstOnly(s: WalletStorage, actions: seq<Action>, deposit: Action, done: nat, ins: seq<DataInput>, outs: seq<DataOutput>)
    requires s == TwoCoins() && deposit == Deposit(HTR, 5, None, None) && actions == [deposit, Withdrawal(HTR, 0, None)]
    requires Phase(s, actions, done, ins, outs) && (done == 0 ==> !Accepted(WithSpent(s, ins), deposit))
    ensures done == 1 && ins != [] && forall i :: i in ins ==> i.token == HTR && InStore(s, i)
  {
    if done == 0 {
      PhaseStart(s, actions);
      CoinIsSpendable(s, HTR);
      assert false;
    }
    if done == 2 {
      assert false;
    }
    assert actions[..1] == [deposit];
    SpentIffDeposited(s, actions[..1]);
    assert deposit in actions[..1];
  }

  /** A deposit for a token creation marks the builder. */
  method DepositMarks(builder: NanoContractTransactionBuilder) returns (r: Result<(seq<DataInput>, seq<DataOutput>), BuildError>)
    requires !builder.contractPaysFees && Sum(Spendable(builder.wallet.storage, HTR, None), UtxoValue()) >= 5
    modifies builder, builder.wallet
    ensures builder.tokenFeeAddedInDeposit && unchanged(builder`contractPaysFees, builder`maxFee, builder`changeAddress)
    ensures r.Ok? && PickedFrom(old(builder.wallet.storage), HTR, r.value.0)
    ensures builder.wallet.storage == WithSpent(old(builder.wallet.storage), r.value.0)
  {
    builder.vertex := CreateToken(CreateOptions(false, Fee.DepositToken, 1, 0));
    var deposit := Deposit(HTR, 4, None, None);
    assert builder.AddsTokenFee(deposit) && builder.DepositExtra(deposit) == 1;
    r := builder.ExecuteDeposit(deposit);
  }

  method MarkedBuilder() returns (builder: NanoContractTransactionBuilder)
    ensures fresh(builder) && fresh(builder.wallet) && builder.tokenFeeAddedInDeposit
    ensures !builder.contractPaysFees && builder.maxFee == None && builder.changeAddress == None
    ensures FeeCoinFree(builder.wallet.storage)
  {
    ghost var s := TwoCoins();
    var wallet := new HathorWallet(TwoCoins());
    builder := new NanoContractTransactionBuilder(wallet);
    CoinIsSpendable(s, HTR);
    var first := DepositMarks(builder);
    FeeCoinLeft(wallet.storage, first.value.0);
  }

  /** A plain transaction built next with the same builder leaves its fee unpaid. */
  method BuildMarked(builder: NanoContractTransactionBuilder, actions: seq<Action>, ghost s: WalletStorage) returns (r: Result<NanoTx, BuildError>)
    requires builder.tokenFeeAddedInDeposit && !builder.contractPaysFees && builder.maxFee == None && builder.changeAddress == None
    requires builder.vertex == PlainTransaction && builder.actions == actions == [Deposit(FEE_TOKEN, 7, None, None)]
    requires FeeCoinFree(s) && builder.wallet.storage == s
    modifies builder.wallet, builder`tokenFeeAddedInDeposit
    ensures r.Ok? && !AllBalanced(actions, r.value.inputs, r.value.outputs, r.value.fee)
  {
    ghost var done, left;
    r, done, left := BuildOrStop(builder, s, actions);
    DepositOwes(s, actions, done, left.inputs, left.outputs);
    MarkedNotRefused(s, actions, left.inputs, left.outputs);
  }

  lemma MarkedNotRefused(s: WalletStorage, actions: seq<Action>, ins: seq<DataInput>, outs: seq<DataOutput>)
    requires TokensKnown(s.tokens, actions)
    ensures forall e :: !CompletionRefused(s, actions, ins, outs, PlainTransaction, None, false, true, e)
  {
  }

  method StaleFeeMark() returns (actions: seq<Action>, r: Result<NanoTx, BuildError>)
    ensures r.Ok? && !AllBalanced(actions, r.value.inputs, r.value.outputs, r.value.fee)
  {
    var builder := MarkedBuilder();
    ghost var s := builder.wallet.storage;
    actions := [Deposit(FEE_TOKEN, 7, None, None)];
    builder.vertex, builder.actions := PlainTransaction, actions;
    r := BuildMarked(builder, actions, s);
  }

  ghost predicate FeeCoinFree(s: WalletStorage) {
    s.tokens == map[FEE_TOKEN := Fee.FeeToken] && Sum(Spendable(s, FEE_TOKEN, None), UtxoValue()) >= 7
  }

  lemma DepositOwes(s: WalletStorage, actions: seq<Action>, done: nat, ins: seq<DataInput>, outs: seq<DataOutput>)
    requires FeeCoinFree(s) && actions == [Deposit(FEE_TOKEN, 7, None, None)] && Phase(s, actions, done, ins, outs)
    ensures OwesFee(s.tokens, actions) && TokensKnown(s.tokens, actions)
    ensures done == 0 ==> Accepted(WithSpent(s, ins), actions[0])
  {
    assert actions[0] in actions;
    PhaseStart(s, actions);
  }

  /** Marks on HTR leave the other coin free. */
  lemma FeeCoinLeft(s: WalletStorage, ins: seq<DataInput>)
    requires PickedFrom(TwoCoins(), HTR, ins) && s == WithSpent(TwoCoins(), ins)
    ensures FeeCoinFree(s)
  {
    forall id | id in IdsOf(ins) ensures id == UtxoId("aa", 0) {
      var k :| 0 <= k < |ins| && IdsOf(ins)[k] == id;
      assert ins[k] in ins;
      var u :| u in TwoCoins().funds.store.utxos && ins[k] == InputFromUtxo(u);
    }
    CoinIsSpendable(s, FEE_TOKEN);
  }
}
