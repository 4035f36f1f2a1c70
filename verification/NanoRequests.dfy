/** A finished nano contract transaction told from the actions alone: what each action became, what is
    spent and what is owed, in the fields of the actions and of the wallet's utxos
    (src/nano_contracts/builder.ts). */
module NanoRequests {
  import opened Wrappers
  import opened SeqSums
  import opened WalletTypes
  import opened UtxoStore
  import opened SendModel
  import opened NanoWallet
  import opened NanoBuilder
  import opened NanoActions
  import opened NanoTransactionBuilder
  import opened FeeSchedule
  import UtxoSelection
  import Fee

  // ----- outputs -----

  /** An output that was asked for: no change, no timelock. */
  function Paid(address: string, token: Uid, value: int, authorities: nat): DataOutput -> bool {
    (o: DataOutput) => o == DataOutput(AddressOutput, value, token, authorities, address, None, false)
  }

  predicate AtNamed(named: Option<string>, address: string) { named == Some(address) && address != "" }

  /** A withdrawal asks for its amount at its address; a grant or acquisition of mint or melt, for an
      authority output of 1 or 2 at its address, if it has one. */
  function Asked(address: string, token: Uid, value: int, authorities: nat): Action -> bool {
    (a: Action) =>
      match a
      case Deposit(_, _, _, _) => false
      case Withdrawal(t, amount, named) => t == token && amount == value && authorities == 0 && AtNamed(named, address)
      case GrantAuthority(t, authority, _, named) =>
        t == token && value == authorities == (if authority == "mint" then 1 else 2) && AtNamed(named, address)
      case AcquireAuthority(t, authority, named) =>
        t == token && value == authorities == (if authority == "mint" then 1 else 2) && AtNamed(named, address)
  }

  /** For every address, token, value and authority there are as many outputs as actions that ask for them;
      where the contract pays the fee, HTR may be missing from its withdrawals. */
  ghost predicate OutputsAsAsked(actions: seq<Action>, outs: seq<DataOutput>, contractPays: bool) {
    forall address, token: Uid, value, authorities: nat :: (contractPays ==> token != Uid("00") || authorities != 0) ==>
      Count(outs, Paid(address, token, value, authorities)) == Count(actions, Asked(address, token, value, authorities))
  }

  lemma AsksOnce(a: Action, address: string, token: Uid, value: int, authorities: nat)
    ensures Count(RequestedOf(a), Paid(address, token, value, authorities)) == One(Asked(address, token, value, authorities))(a)
  {
    var outs, p := RequestedOf(a), Paid(address, token, value, authorities);
    if outs != [] {
      SumPush([], outs[0], One(p));
      assert [] + [outs[0]] == outs;
      assert p(outs[0]) <==> Asked(address, token, value, authorities)(a);
    }
  }

  lemma {:induction false} RequestedCount(actions: seq<Action>, address: string, token: Uid, value: int, authorities: nat)
    ensures Count(RequestedOfActions(actions), Paid(address, token, value, authorities))
         == Count(actions, Asked(address, token, value, authorities))
  {
    if actions != [] {
      var init, last := actions[..|actions| - 1], actions[|actions| - 1];
      assert actions == init + [last];
      RequestedCount(init, address, token, value, authorities);
      SumAppend(RequestedOfActions(init), RequestedOf(last), One(Paid(address, token, value, authorities)));
      AsksOnce(last, address, token, value, authorities);
      SumPush(init, last, One(Asked(address, token, value, authorities)));
    }
  }

  /** What a filter drops does not count if only what it keeps can. */
  lemma CountFiltered(outs: seq<DataOutput>, keep: DataOutput -> bool, p: DataOutput -> bool)
    requires forall o :: p(o) ==> keep(o)
    ensures Count(outs, p) == Count(Filter(outs, keep), p)
  {
    var drop := (o: DataOutput) => !keep(o);
    SumFilterSplit(outs, keep, drop, One(p));
    SumZero(Filter(outs, drop), One(p));
  }

  lemma RequestsBecomeOutputs(actions: seq<Action>, outs: seq<DataOutput>, contractPays: bool)
    requires AsRequested(actions, outs, contractPays)
    ensures OutputsAsAsked(actions, outs, contractPays)
  {
    forall address, token: Uid, value, authorities: nat | contractPays ==> token != Uid("00") || authorities != 0
      ensures Count(outs, Paid(address, token, value, authorities)) == Count(actions, Asked(address, token, value, authorities))
    {
      var p := Paid(address, token, value, authorities);
      CountFiltered(outs, NotChange(), p);
      if contractPays {
        CountFiltered(Filter(outs, NotChange()), NotHtrFund(), p);
        CountFiltered(RequestedOfActions(actions), NotHtrFund(), p);
      }
      RequestedCount(actions, address, token, value, authorities);
    }
  }

  // ----- inputs -----

  /** Each input repeats a utxo of the store that was not marked and is past its locks. */
  ghost predicate InputsAsStored(s0: WalletStorage, ins: seq<DataInput>) {
    forall i :: i in ins ==> i.id !in s0.funds.selected && exists u :: u in s0.funds.store.utxos && SpendsUtxo(i, u) && IsRipe(s0, u)
  }

  /** The grants, in order, spend one authority each, and of the kind they name; nothing else does. */
  ghost predicate GrantsAsAsked(actions: seq<Action>, ins: seq<DataInput>) {
    var grants, spent := Filter(actions, IsGrant()), Filter(ins, HasAuthority());
    && |grants| == |spent|
    && forall k :: 0 <= k < |grants| ==>
         && grants[k].GrantAuthority? && spent[k].token == grants[k].token
         && (if grants[k].authority == "mint" then HasMint(spent[k].authorities) else grants[k].authority == "melt" && HasMelt(spent[k].authorities))
  }

  /** What one action spends: a deposit, funds of its token at its address, at least its amount; a grant,
      the one utxo that carries its authority; the others nothing. */
  ghost predicate SpendsAsAsked(s: WalletStorage, a: Action, ins: seq<DataInput>) {
    match a
    case Deposit(token, amount, address, _) =>
      (forall i :: i in ins ==> SpendsFunds(s, token, address, i)) && Sum(ins, InputFunds(token)) >= amount
    case GrantAuthority(_, _, _, _) => |ins| == 1 && SpendsCarrier(s, a, ins[0])
    case _ => ins == []
  }

  lemma ActionSpends(s: WalletStorage, a: Action)
    requires Accepted(s, a)
    ensures SpendsAsAsked(s, a, InputsFor(s, a))
  {
    match a {
      case Deposit(token, amount, address, _) =>
        UtxoSelection.ScanReaches(Spendable(s, token, address), [], amount);
        DepositSpends(s, token, amount, address);
      case GrantAuthority(_, _, _, _) =>
        GrantStep(s, a);
      case _ =>
    }
  }

  lemma DepositSpends(s: WalletStorage, token: Uid, amount: int, address: Option<string>)
    requires amount > 0 && Sum(Spendable(s, token, address), UtxoValue()) >= amount
    ensures var ins := Map(UtxoSelection.Scan(Spendable(s, token, address), [], amount), InputFrom());
      (forall i :: i in ins ==> SpendsFunds(s, token, address, i)) && Sum(ins, InputFunds(token)) >= amount
  {
    var us := UtxoSelection.Scan(Spendable(s, token, address), [], amount);
    UtxoSelection.WholeScan(Spendable(s, token, address), amount);
    SpendableIsPicked(s, token, address, us);
  }

  /** An action is accepted exactly so, told by its fields and the utxos of the store. */
  lemma AcceptedMeans(s: WalletStorage, a: Action)
    ensures Accepted(s, a) <==>
      match a
      case Deposit(token, amount, address, change) =>
        && amount > 0 && (forall c :: change == Some(c) && c != "" ==> c in s.mine)
        && Sum(Filter(s.funds.store.utxos, IsSpendable(s, token, address)), UtxoValue()) >= amount
      case Withdrawal(_, amount, address) => amount > 0 && exists c :: AtNamed(address, c)
      case GrantAuthority(token, authority, address, home) =>
        && (forall c :: home == Some(c) && c != "" ==> c in s.mine)
        && exists u :: u in s.funds.store.utxos && IsCarrier(s, u, token, authority, address, true)
      case AcquireAuthority(_, authority, address) => authority != "" && exists c :: AtNamed(address, c)
  {
    match a {
      case Deposit(token, _, address, _) =>
        SpendableMeans(s, token, address);
      case Withdrawal(_, _, address) =>
        assert Present(address) ==> AtNamed(address, address.value);
      case GrantAuthority(_, _, _, _) =>
      case AcquireAuthority(_, _, address) =>
        assert Present(address) ==> AtNamed(address, address.value);
    }
  }

  // ----- fee -----

  function Deposits(t: Uid): Action -> bool { (a: Action) => a.Deposit? && a.token == t }

  function Withdraws(t: Uid): Action -> bool { (a: Action) => a.Withdrawal? && a.token == t }

  /** What a token owes: one HTR unit for each output and deposit of it; without any, one if it is taken
      from an input or withdrawn. Only a custom token that charges fees owes anything. */
  function Owed(ins: seq<DataInput>, outs: seq<DataOutput>, actions: seq<Action>, tokens: map<Uid, Fee.TokenVersion>): Uid -> int {
    (t: Uid) =>
      if t == Uid("00") || t !in tokens || !tokens[t].FeeToken? then 0
      else
        var given := Count(outs, FundsOut(t)) + Count(actions, Deposits(t));
        if given == 0 && Count(ins, FundsIn(t)) + Count(actions, Withdraws(t)) > 0 then 1 else given
  }

  /** The tokens of the transaction and of its actions, HTR aside. */
  ghost predicate InvolvesToken(ins: seq<DataInput>, outs: seq<DataOutput>, actions: seq<Action>, t: Uid) {
    t != Uid("00") && (Touches(ins, outs, [], t) || exists a :: a in actions && a.token == t)
  }

  /** The fee is what the tokens involved owe, and every one of them is known. */
  ghost predicate FeeAsOwed(ins: seq<DataInput>, outs: seq<DataOutput>, actions: seq<Action>, tokens: map<Uid, Fee.TokenVersion>, fee: int) {
    && (forall t: Uid :: InvolvesToken(ins, outs, actions, t) ==> t in tokens)
    && forall ts :: Distinct(ts) && (forall t: Uid :: InvolvesToken(ins, outs, actions, t) ==> t in ts) ==>
         fee == Sum(ts, Owed(ins, outs, actions, tokens))
  }

  lemma KindsCount(actions: seq<Action>, t: Uid)
    ensures Count(FeeActions(actions), DepositOf(t)) == Count(actions, Deposits(t))
    ensures Count(FeeActions(actions), WithdrawalOf(t)) == Count(actions, Withdraws(t))
  {
    SumPointwise(FeeActions(actions), actions, One(DepositOf(t)), One(Deposits(t)));
    SumPointwise(FeeActions(actions), actions, One(WithdrawalOf(t)), One(Withdraws(t)));
  }

  lemma TokensInvolved(ins: seq<DataInput>, outs: seq<DataOutput>, actions: seq<Action>, t: Uid)
    requires t != Uid("00")
    ensures Touches(ins, outs, FeeActions(actions), t) <==> InvolvesToken(ins, outs, actions, t)
  {
    var fees := FeeActions(actions);
    if k :| 0 <= k < |actions| && actions[k].token == t {
      assert fees[k] in fees && fees[k].token == t;
    }
    if f :| f in fees && f.token == t {
      var k :| 0 <= k < |fees| && fees[k] == f;
      assert actions[k] in actions && actions[k].token == t;
    }
  }

  lemma SameDues(ins: seq<DataInput>, outs: seq<DataOutput>, actions: seq<Action>, tokens: map<Uid, Fee.TokenVersion>, ts: seq<Uid>)
    ensures Sum(ts, DueOf(ins, outs, FeeActions(actions), tokens)) == Sum(ts, Owed(ins, outs, actions, tokens))
  {
    forall t | t in ts ensures DueOf(ins, outs, FeeActions(actions), tokens)(t) == Owed(ins, outs, actions, tokens)(t) {
      KindsCount(actions, t);
    }
    SumCongruent(ts, DueOf(ins, outs, FeeActions(actions), tokens), Owed(ins, outs, actions, tokens));
  }

  lemma FeeIsOwed(ins: seq<DataInput>, outs: seq<DataOutput>, actions: seq<Action>, tokens: map<Uid, Fee.TokenVersion>, fee: int)
    requires Fee.FeeResult(ins, outs, tokens, FeeActions(actions)) == Ok(fee)
    ensures FeeAsOwed(ins, outs, actions, tokens, fee)
  {
    FeeNeedsVersions(ins, outs, FeeActions(actions), tokens);
    forall t: Uid | t != Uid("00")
      ensures Touches(ins, outs, FeeActions(actions), t) <==> InvolvesToken(ins, outs, actions, t)
    {
      TokensInvolved(ins, outs, actions, t);
    }
    forall ts | Distinct(ts) && (forall t: Uid :: InvolvesToken(ins, outs, actions, t) ==> t in ts)
      ensures fee == Sum(ts, Owed(ins, outs, actions, tokens))
    {
      FeeIsWhatIsDue(ins, outs, FeeActions(actions), tokens, ts);
      SameDues(ins, outs, actions, tokens, ts);
    }
  }

  // ----- the whole transaction -----

  /** Change is positive and stays in the wallet. */
  ghost predicate ChangeStays(s0: WalletStorage, outs: seq<DataOutput>) {
    forall o :: o in outs && o.isChange ==>
      o.kind == AddressOutput && (o.authorities == 0 ==> o.value > 0) && (o.address in s0.mine || o.address == s0.currentAddress)
  }

  /** All that was asked for, and the balance of every token: what comes in from utxos and from the contract
      is what goes out to outputs, to the contract and, in HTR, to the fee that is paid. */
  ghost predicate AsAsked(s0: WalletStorage, actions: seq<Action>, tx: NanoTx, paid: int, contractPays: bool) {
    && OutputsAsAsked(actions, tx.outputs, contractPays)
    && InputsAsStored(s0, tx.inputs) && GrantsAsAsked(actions, tx.inputs) && ChangeStays(s0, tx.outputs)
    && FeeAsOwed(tx.inputs, tx.outputs, actions, s0.tokens, tx.fee) && tx.fee >= 0
    && AllBalanced(actions, tx.inputs, tx.outputs, paid)
    && TokenList(actions, tx.tokens) && HeaderMatches(actions, tx.tokens, tx.actions)
  }

  /** Whatever `build` finishes is what the actions ask for. */
  lemma FinishedAsAsked(s0: WalletStorage, actions: seq<Action>, tx: NanoTx, paid: int, contractPays: bool)
    requires Finished(s0, actions, tx, paid, contractPays)
    ensures AsAsked(s0, actions, tx, paid, contractPays)
  {
    RequestsBecomeOutputs(actions, tx.outputs, contractPays);
    FeeIsOwed(tx.inputs, tx.outputs, actions, s0.tokens, tx.fee);
    GrantsAreNamed(actions, tx.inputs);
  }

  lemma GrantsAreNamed(actions: seq<Action>, ins: seq<DataInput>)
    requires GrantsSpent(actions, ins)
    ensures GrantsAsAsked(actions, ins)
  {
    var grants, spent := Filter(actions, IsGrant()), Filter(ins, HasAuthority());
    forall k | 0 <= k < |grants|
      ensures grants[k].GrantAuthority? && SpendsGrant(grants[k], spent[k])
    {
    }
  }
}
