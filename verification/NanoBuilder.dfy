/** The nano contract transaction builder (src/nano_contracts/builder.ts): turning actions into inputs
    and outputs, paying the fee, and what the finished transaction guarantees. */
module NanoBuilder {
  import opened Wrappers
  import opened SeqSums
  import opened WalletTypes
  import opened UtxoStore
  import opened SendModel
  import opened NanoWallet
  import Fee

  datatype Action =
    | Deposit(token: Uid, amount: int, address: Option<string>, changeAddress: Option<string>)
    | Withdrawal(token: Uid, amount: int, address: Option<string>)
    | GrantAuthority(token: Uid, authority: string, address: Option<string>, authorityAddress: Option<string>)
    | AcquireAuthority(token: Uid, authority: string, address: Option<string>)

  /** `htrDeposit` and `dataFee` are what the token utilities compute for the token to create. */
  datatype CreateOptions = CreateOptions(contractPaysTokenDeposit: bool, version: Fee.TokenVersion, htrDeposit: nat, dataFee: nat)

  datatype Vertex = NoVertex | PlainTransaction | CreateToken(options: CreateOptions)

  datatype BuildError =
    | MissingField
    | ForeignAddress
    | NotEnoughForDeposit
    | NegativeWithdrawal
    | NoAuthorityUtxo
    | UnknownToken
    | FeeExceedsMaximum
    | NotEnoughForFee
    | NoHtrOutput
    | WithdrawalBelowFee
    | InvalidVertex

  datatype HeaderAction = HeaderAction(kind: Fee.ActionKind, tokenIndex: nat, amount: int)

  datatype NanoTx = NanoTx(inputs: seq<DataInput>, outputs: seq<DataOutput>, tokens: seq<Uid>, actions: seq<HeaderAction>, fee: int)

  // ----- what the actions ask for -----

  function Deposited(t: Uid): Action -> int { (a: Action) => if a.Deposit? && a.token == t then a.amount else 0 }

  function Withdrawn(t: Uid): Action -> int { (a: Action) => if a.Withdrawal? && a.token == t then a.amount else 0 }

  /** Inputs and withdrawals cover outputs, deposits and, for HTR, a fee. */
  ghost predicate Balanced(actions: seq<Action>, ins: seq<DataInput>, outs: seq<DataOutput>, t: Uid, fee: int) {
    Sum(ins, InputFunds(t)) + Sum(actions, Withdrawn(t))
    == Sum(outs, OutputFunds(t)) + Sum(actions, Deposited(t)) + if t == HTR then fee else 0
  }

  ghost predicate AllBalanced(actions: seq<Action>, ins: seq<DataInput>, outs: seq<DataOutput>, fee: int) {
    forall t: Uid :: Balanced(actions, ins, outs, t, fee)
  }

  ghost predicate PositiveFunds(outs: seq<DataOutput>) {
    forall o :: o in outs && o.authorities == 0 ==> o.value > 0
  }

  function NotChange(): DataOutput -> bool { (o: DataOutput) => !o.isChange }

  function IsGrant(): Action -> bool { (a: Action) => a.GrantAuthority? }

  function HasAuthority(): DataInput -> bool { (i: DataInput) => i.authorities != 0 }

  function AuthorityOutput(a: Action, address: string): DataOutput
    requires a.GrantAuthority? || a.AcquireAuthority?
  {
    DataOutput(AddressOutput, AuthorityMask(a.authority), a.token, AuthorityMask(a.authority), address, None, false)
  }

  /** An authority output: value and authorities 1 for mint, 2 for melt. */
  predicate HoldsAuthority(o: DataOutput, token: Uid, authority: string, address: string) {
    var n := if authority == "mint" then 1 else 2;
    && o.kind == AddressOutput && o.value == n && o.authorities == n && o.token == token
    && o.address == address && o.timelock == None && !o.isChange
  }

  predicate Present(address: Option<string>) { address.Some? && address.value != "" }

  function WithdrawalOutput(token: Uid, amount: int, address: string): DataOutput {
    DataOutput(AddressOutput, amount, token, 0, address, None, false)
  }

  /** The outputs an action asks for: what is withdrawn, a granted authority that is kept, and an
      acquired one. */
  function RequestedOf(a: Action): seq<DataOutput> {
    match a
    case Withdrawal(token, amount, address) => if Present(address) then [WithdrawalOutput(token, amount, address.value)] else []
    case GrantAuthority(_, _, _, address) => if Present(address) then [AuthorityOutput(a, address.value)] else []
    case AcquireAuthority(_, _, address) => if Present(address) then [AuthorityOutput(a, address.value)] else []
    case _ => []
  }

  function RequestedOfActions(actions: seq<Action>): seq<DataOutput> {
    if actions == [] then []
    else RequestedOfActions(actions[..|actions| - 1]) + RequestedOf(actions[|actions| - 1])
  }

  /** Each grant spends one authority of its kind, and no other authority is spent. */
  ghost predicate GrantsSpent(actions: seq<Action>, ins: seq<DataInput>) {
    var grants, spent := Filter(actions, IsGrant()), Filter(ins, HasAuthority());
    |grants| == |spent| && forall k :: 0 <= k < |grants| ==> SpendsGrant(grants[k], spent[k])
  }

  predicate SpendsGrant(a: Action, i: DataInput) {
    a.GrantAuthority? && i.token == a.token && Names(a.authority, i.authorities)
  }

  /** Change goes to an address of the wallet. */
  predicate AtHome(s: WalletStorage, outs: seq<DataOutput>) {
    forall o :: o in outs && o.isChange ==> IsHome(s, o.address)
  }

  predicate IsHome(s: WalletStorage, address: string) { address in s.mine || address == s.currentAddress }

  ghost predicate UsedToken(actions: seq<Action>, t: Uid) { exists a :: a in actions && a.token == t }

  /** Only these actions move funds; the others move authorities. */
  predicate MovesFunds(a: Action) { a.Deposit? || a.Withdrawal? }

  ghost predicate MovedToken(actions: seq<Action>, t: Uid) { exists a :: a in actions && a.token == t && MovesFunds(a) }

  /** Everything the action phase keeps, relative to the wallet as the phase found it. */
  ghost predicate Built(s0: WalletStorage, actions: seq<Action>, ins: seq<DataInput>, outs: seq<DataOutput>) {
    && AllBalanced(actions, ins, outs, 0)
    && PositiveFunds(outs)
    && Filter(outs, NotChange()) == RequestedOfActions(actions)
    && AtHome(s0, outs)
    && GrantsSpent(actions, ins)
    && InputsFresh(s0, ins)
    && (forall i :: i in ins ==> UsedToken(actions, i.token))
    && (forall o :: o in outs ==> UsedToken(actions, o.token) && o.kind == AddressOutput)
    && FundsMoved(actions, ins, outs)
  }

  /** Funds enter and leave for deposits and withdrawals only. */
  ghost predicate FundsMoved(actions: seq<Action>, ins: seq<DataInput>, outs: seq<DataOutput>) {
    && (forall i :: i in ins && i.authorities == 0 ==> MovedToken(actions, i.token))
    && (forall o :: o in outs && o.authorities == 0 ==> MovedToken(actions, o.token))
  }

  ghost predicate InputsFresh(s0: WalletStorage, ins: seq<DataInput>) {
    && (forall i :: i in ins ==> i.id !in s0.funds.selected && InStore(s0, i))
    && (UtxosKnown(s0) && UniqueOutpoints(s0.funds) ==> Distinct(Map(ins, InputIdOf())))
  }

  function IdsOf(ins: seq<DataInput>): seq<UtxoId> { Map(ins, InputIdOf()) }

  // ----- why an action fails -----

  ghost predicate DepositRefused(s: WalletStorage, a: Action, amount: int, e: BuildError)
    requires a.Deposit?
  {
    || (e == MissingField && a.amount == 0)
    || (e == ForeignAddress && Present(a.changeAddress) && a.changeAddress.value !in s.mine)
    || (e == NotEnoughForDeposit && (amount <= 0 || Sum(Spendable(s, a.token, a.address), UtxoValue()) < amount))
  }

  ghost predicate GrantRefused(s: WalletStorage, a: Action, e: BuildError)
    requires a.GrantAuthority?
  {
    || (e == MissingField && a.authority == "")
    || (e == ForeignAddress && Present(a.authorityAddress) && a.authorityAddress.value !in s.mine)
    || (e == NoAuthorityUtxo
        && (a.authority !in {"mint", "melt"} || NoAuthorityFor(s, a.token, a.authority, a.address)))
  }

  /** For a transaction that creates no token. */
  ghost predicate ActionRefused(s: WalletStorage, a: Action, e: BuildError) {
    match a
    case Deposit(_, amount, _, _) => DepositRefused(s, a, amount, e)
    case Withdrawal(_, amount, address) =>
      (e == MissingField && (amount == 0 || !Present(address))) || (e == NegativeWithdrawal && amount < 0)
    case GrantAuthority(_, _, _, _) => GrantRefused(s, a, e)
    case AcquireAuthority(_, authority, address) => e == MissingField && (authority == "" || !Present(address))
  }

  /** Why a fee could not be paid: the contract's HTR output is missing or too small, or the change and
      the wallet's HTR together fall short. */
  ghost predicate PaymentRefused(s: WalletStorage, outs: seq<DataOutput>, fee: int, contractPays: bool, e: BuildError) {
    if contractPays then
      || (e == NoHtrOutput && forall o :: o in outs ==> !IsHtrFund()(o))
      || (e == WithdrawalBelowFee && FirstValue(outs, IsHtrFund()) < fee)
    else
      && e == NotEnoughForFee
      && FirstValue(outs, IsHtrChangeOutput()) + Sum(Spendable(s, HTR, None), UtxoValue()) < fee
  }

  // ----- one action -----

  /** One action done: its balance, its outputs, its inputs. */
  ghost predicate Step(s: WalletStorage, a: Action, ins: seq<DataInput>, outs: seq<DataOutput>) {
    && AllBalanced([a], ins, outs, 0)
    && PositiveFunds(outs)
    && Filter(outs, NotChange()) == RequestedOf(a)
    && AtHome(s, outs)
    && GrantsSpent([a], ins)
    && PickedFrom(s, a.token, ins)
    && (forall o :: o in outs ==> o.token == a.token && o.kind == AddressOutput)
    && ((exists i :: i in ins && i.authorities == 0) || (exists o :: o in outs && o.authorities == 0) ==> MovesFunds(a))
  }

  lemma SingleAction(a: Action, t: Uid)
    ensures Sum([a], Deposited(t)) == Deposited(t)(a) && Sum([a], Withdrawn(t)) == Withdrawn(t)(a)
  {
    assert [a][1..] == [];
  }

  lemma OtherTokensZero(ins: seq<DataInput>, outs: seq<DataOutput>, token: Uid, t: Uid)
    requires t != token
    requires (forall i :: i in ins ==> i.token == token) && (forall o :: o in outs ==> o.token == token)
    ensures Sum(ins, InputFunds(t)) == 0 && Sum(outs, OutputFunds(t)) == 0
  {
    OtherTokensUntouched(ins, outs, token, t);
  }

  lemma DepositStep(s: WalletStorage, a: Action, ins: seq<DataInput>, outs: seq<DataOutput>)
    requires a.Deposit? && PickedFrom(s, a.token, ins) && forall i :: i in ins ==> i.authorities == 0
    requires forall o :: o in outs ==> IsChangeOf(o, a.token) && IsHome(s, o.address)
    requires Sum(ins, InputFunds(a.token)) == a.amount + Sum(outs, OutputFunds(a.token))
    ensures Step(s, a, ins, outs)
  {
    forall t: Uid ensures Balanced([a], ins, outs, t, 0) {
      SingleAction(a, t);
      if t != a.token {
        OtherTokensZero(ins, outs, a.token, t);
      }
    }
    FilterNone(outs, NotChange());
    NoGrant(a, ins);
  }

  lemma NoGrant(a: Action, ins: seq<DataInput>)
    requires !a.GrantAuthority? && forall i :: i in ins ==> i.authorities == 0
    ensures GrantsSpent([a], ins)
  {
    FilterNone(ins, HasAuthority());
    FilterNone([a], IsGrant());
  }

  lemma OneGrant(a: Action, i: DataInput)
    requires SpendsGrant(a, i) && i.authorities != 0
    ensures GrantsSpent([a], [i])
  {
    FilterPush([], a, IsGrant());
    FilterPush([], i, HasAuthority());
    assert [] + [a] == [a] && [] + [i] == [i];
  }

  lemma WithdrawalStep(s: WalletStorage, a: Action, outs: seq<DataOutput>)
    requires a.Withdrawal? && a.amount > 0 && Present(a.address) && outs == RequestedOf(a)
    ensures Step(s, a, [], outs)
  {
    assert outs == [outs[0]] && outs[1..] == [];
    NoGrant(a, []);
    FilterAll(outs, NotChange());
    forall t: Uid ensures Balanced([a], [], outs, t, 0) {
      SingleAction(a, t);
    }
  }

  lemma AuthorityStep(s: WalletStorage, a: Action, ins: seq<DataInput>)
    requires a.GrantAuthority? || a.AcquireAuthority?
    requires PickedFrom(s, a.token, ins) && GrantsSpent([a], ins) && forall i :: i in ins ==> i.authorities != 0
    ensures Step(s, a, ins, RequestedOf(a))
  {
    var outs := RequestedOf(a);
    forall t: Uid ensures Balanced([a], ins, outs, t, 0) {
      SingleAction(a, t);
      SumZero(ins, InputFunds(t));
      SumZero(outs, OutputFunds(t));
    }
    FilterAll(outs, NotChange());
  }

  // ----- from one action to the next -----

  lemma BuiltStep(s0: WalletStorage, s: WalletStorage, actions: seq<Action>, a: Action,
                  ins: seq<DataInput>, outs: seq<DataOutput>, ins': seq<DataInput>, outs': seq<DataOutput>)
    requires Built(s0, actions, ins, outs) && s == WithMarks(s0, Marked(s0, IdsOf(ins)))
    requires Step(s, a, ins', outs')
    ensures Built(s0, actions + [a], ins + ins', outs + outs')
    ensures WithMarks(s, Marked(s, IdsOf(ins'))) == WithMarks(s0, Marked(s0, IdsOf(ins + ins')))
  {
    BalanceAdds(actions, a, ins, outs, ins', outs');
    FilterAppend(outs, outs', NotChange());
    GrantsAdd(actions, a, ins, ins');
    assert (actions + [a])[..|actions|] == actions;
    FreshAdds(s0, s, a.token, ins, ins');
    MarksAdd(s0, s, ins, ins');
    UsedAdds(actions, a);
    FundsMovedAdds(s, actions, a, ins, outs, ins', outs');
  }

  lemma FundsMovedAdds(s: WalletStorage, actions: seq<Action>, a: Action,
                       ins: seq<DataInput>, outs: seq<DataOutput>, ins': seq<DataInput>, outs': seq<DataOutput>)
    requires FundsMoved(actions, ins, outs) && Step(s, a, ins', outs')
    ensures FundsMoved(actions + [a], ins + ins', outs + outs')
  {
    MovedAdds(actions, a);
  }

  lemma MovedAdds(actions: seq<Action>, a: Action)
    ensures forall t: Uid :: MovedToken(actions, t) || (t == a.token && MovesFunds(a)) ==> MovedToken(actions + [a], t)
  {
    assert a in actions + [a];
    forall t: Uid | MovedToken(actions, t) ensures MovedToken(actions + [a], t) {
      var b :| b in actions && b.token == t && MovesFunds(b);
      assert b in actions + [a];
    }
  }

  lemma GrantsAdd(actions: seq<Action>, a: Action, ins: seq<DataInput>, ins': seq<DataInput>)
    requires GrantsSpent(actions, ins) && GrantsSpent([a], ins')
    ensures GrantsSpent(actions + [a], ins + ins')
  {
    FilterAppend(actions, [a], IsGrant());
    FilterAppend(ins, ins', HasAuthority());
  }

  lemma UsedAdds(actions: seq<Action>, a: Action)
    ensures forall t: Uid :: UsedToken(actions, t) || t == a.token ==> UsedToken(actions + [a], t)
  {
    forall t: Uid | UsedToken(actions, t) || t == a.token ensures UsedToken(actions + [a], t) {
      if t == a.token {
        assert a in actions + [a];
      } else {
        var b :| b in actions && b.token == t;
        assert b in actions + [a];
      }
    }
  }

  lemma BalanceAdds(actions: seq<Action>, a: Action, ins: seq<DataInput>, outs: seq<DataOutput>, ins': seq<DataInput>, outs': seq<DataOutput>)
    requires AllBalanced(actions, ins, outs, 0) && AllBalanced([a], ins', outs', 0)
    ensures AllBalanced(actions + [a], ins + ins', outs + outs', 0)
  {
    forall t: Uid ensures Balanced(actions + [a], ins + ins', outs + outs', t, 0) {
      assert Balanced(actions, ins, outs, t, 0) && Balanced([a], ins', outs', t, 0);
      SumAppend(ins, ins', InputFunds(t));
      SumAppend(outs, outs', OutputFunds(t));
      SumAppend(actions, [a], Withdrawn(t));
      SumAppend(actions, [a], Deposited(t));
    }
  }

  lemma MarksAdd(s0: WalletStorage, s: WalletStorage, ins: seq<DataInput>, ins': seq<DataInput>)
    requires s == WithMarks(s0, Marked(s0, IdsOf(ins)))
    ensures WithMarks(s, Marked(s, IdsOf(ins'))) == WithMarks(s0, Marked(s0, IdsOf(ins + ins')))
  {
    MarksKeepHistory(s0, Marked(s0, IdsOf(ins)));
    assert IdsOf(ins + ins') == IdsOf(ins) + IdsOf(ins');
    assert Marked(s, IdsOf(ins')) == Marked(s0, IdsOf(ins + ins'));
  }

  /** Marking before the next selection keeps the inputs disjoint. */
  lemma FreshAdds(s0: WalletStorage, s: WalletStorage, token: Uid, ins: seq<DataInput>, ins': seq<DataInput>)
    requires InputsFresh(s0, ins) && s == WithMarks(s0, Marked(s0, IdsOf(ins)))
    requires PickedFrom(s, token, ins')
    ensures InputsFresh(s0, ins + ins')
  {
    forall i | i in ins' ensures i.id !in s0.funds.selected && InStore(s0, i) {
      assert InStore(s, i);
      var u :| u in s.funds.store.utxos && SpendsUtxo(i, u) && IsRipe(s, u);
      assert u in s0.funds.store.utxos && IsRipe(s0, u);
    }
    if UtxosKnown(s0) && UniqueOutpoints(s0.funds) {
      MarkedAreAvoided(s0, s, token, ins, ins');
      DistinctAppend(IdsOf(ins), IdsOf(ins'));
      assert IdsOf(ins + ins') == IdsOf(ins) + IdsOf(ins');
    }
  }

  lemma MarkedAreAvoided(s0: WalletStorage, s: WalletStorage, token: Uid, ins: seq<DataInput>, ins': seq<DataInput>)
    requires InputsFresh(s0, ins) && s == WithMarks(s0, Marked(s0, IdsOf(ins)))
    requires PickedFrom(s, token, ins') && UtxosKnown(s0)
    ensures forall id :: id in IdsOf(ins) ==> id !in IdsOf(ins')
  {
    forall k, l | 0 <= k < |ins| && 0 <= l < |ins'| ensures ins[k].id != ins'[l].id {
      assert ins[k] in ins && ins'[l] in ins';
      assert InStore(s0, ins[k]);
      assert ins[k].id == IdsOf(ins)[k];
      assert ins[k].id in Marked(s0, IdsOf(ins));
    }
  }

  // ----- changing HTR funds only -----

  function IsHtrFund(): DataOutput -> bool { (o: DataOutput) => o.token == HTR && o.authorities == 0 }

  function NotHtrFund(): DataOutput -> bool { (o: DataOutput) => !(o.token == HTR && o.authorities == 0) }

  /** The outputs differ in HTR funds only. */
  ghost predicate SameButHtrFunds(outs: seq<DataOutput>, outs': seq<DataOutput>) {
    Filter(outs, NotHtrFund()) == Filter(outs', NotHtrFund())
  }

  lemma SameButHtrSums(outs: seq<DataOutput>, outs': seq<DataOutput>)
    requires SameButHtrFunds(outs, outs')
    ensures forall t: Uid :: t != HTR ==> Sum(outs, OutputFunds(t)) == Sum(outs', OutputFunds(t))
    ensures Fee.SameCustomFunds(Map(outs, Fee.OutputElement()), Map(outs', Fee.OutputElement()))
  {
    forall t: Uid | t != HTR ensures Sum(outs, OutputFunds(t)) == Sum(outs', OutputFunds(t)) {
      CustomSum(outs, t);
      CustomSum(outs', t);
    }
    CustomElements(outs);
    CustomElements(outs');
  }

  lemma CustomSum(outs: seq<DataOutput>, t: Uid)
    requires t != HTR
    ensures Sum(outs, OutputFunds(t)) == Sum(Filter(outs, NotHtrFund()), OutputFunds(t))
  {
    SumFilterSplit(outs, NotHtrFund(), IsHtrFund(), OutputFunds(t));
    SumZero(Filter(outs, IsHtrFund()), OutputFunds(t));
  }

  lemma {:induction false} FiltersCommute(outs: seq<DataOutput>, p: DataOutput -> bool, q: DataOutput -> bool)
    ensures Filter(Filter(outs, p), q) == Filter(Filter(outs, q), p)
  {
    if outs != [] {
      FiltersCommute(outs[1..], p, q);
      var ps, qs := Filter(outs[1..], p), Filter(outs[1..], q);
      assert ([outs[0]] + ps)[1..] == ps && ([outs[0]] + qs)[1..] == qs;
    }
  }

  /** Outside HTR funds, the outputs that are no change are the requested ones; where the contract pays
      no fee, HTR funds are no exception. */
  ghost predicate AsRequested(actions: seq<Action>, outs: seq<DataOutput>, contractPays: bool) {
    if contractPays
    then Filter(Filter(outs, NotChange()), NotHtrFund()) == Filter(RequestedOfActions(actions), NotHtrFund())
    else Filter(outs, NotChange()) == RequestedOfActions(actions)
  }

  lemma ContractKeepsRequested(actions: seq<Action>, outs: seq<DataOutput>, outs': seq<DataOutput>)
    requires Filter(outs, NotChange()) == RequestedOfActions(actions) && SameButHtrFunds(outs, outs')
    ensures AsRequested(actions, outs', true)
  {
    FiltersCommute(outs, NotChange(), NotHtrFund());
    FiltersCommute(outs', NotChange(), NotHtrFund());
  }

  lemma {:induction false} CustomElements(outs: seq<DataOutput>)
    ensures Fee.SameCustomFunds(Map(outs, Fee.OutputElement()), Map(Filter(outs, NotHtrFund()), Fee.OutputElement()))
  {
    if outs == [] {
      assert Map(outs, Fee.OutputElement()) == Map(Filter(outs, NotHtrFund()), Fee.OutputElement());
    } else {
      var n := |outs| - 1;
      var init, last := outs[..n], outs[n];
      assert outs == init + [last];
      CustomElements(init);
      FilterPush(init, last, NotHtrFund());
      MapPush(init, last, Fee.OutputElement());
      MapPush(Filter(init, NotHtrFund()), last, Fee.OutputElement());
      Fee.FundPush(Map(init, Fee.OutputElement()), Fee.OutputElement()(last));
      Fee.FundPush(Map(Filter(init, NotHtrFund()), Fee.OutputElement()), Fee.OutputElement()(last));
    }
  }

  lemma ReplaceHtrFund(outs: seq<DataOutput>, i: nat, value: int)
    requires i < |outs| && IsHtrFund()(outs[i]) && outs[i].kind == AddressOutput
    ensures SameButHtrFunds(outs, outs[i := outs[i].(value := value)])
    ensures Sum(outs[i := outs[i].(value := value)], OutputFunds(HTR)) == Sum(outs, OutputFunds(HTR)) - outs[i].value + value
  {
    var o := outs[i].(value := value);
    var outs' := outs[i := o];
    AroundSkipped(outs, i, NotHtrFund());
    AroundSkipped(outs', i, NotHtrFund());
    assert outs'[..i] == outs[..i] && outs'[i+1..] == outs[i+1..];
    SumSplitAt(outs, i, OutputFunds(HTR));
    SumSplitAt(outs', i, OutputFunds(HTR));
  }

  lemma DropHtrFund(outs: seq<DataOutput>, i: nat)
    requires i < |outs| && IsHtrFund()(outs[i]) && outs[i].kind == AddressOutput
    ensures SameButHtrFunds(outs, RemoveAt(outs, i))
    ensures Sum(RemoveAt(outs, i), OutputFunds(HTR)) == Sum(outs, OutputFunds(HTR)) - outs[i].value
  {
    AroundSkipped(outs, i, NotHtrFund());
    FilterAppend(outs[..i], outs[i+1..], NotHtrFund());
    SumSplitAt(outs, i, OutputFunds(HTR));
    SumAppend(outs[..i], outs[i+1..], OutputFunds(HTR));
  }

  lemma SplitAround(outs: seq<DataOutput>, i: nat)
    requires i < |outs|
    ensures outs == (outs[..i] + [outs[i]]) + outs[i+1..]
    ensures forall o :: o in RemoveAt(outs, i) ==> o in outs
  {
  }

  lemma AroundSkipped(outs: seq<DataOutput>, i: nat, p: DataOutput -> bool)
    requires i < |outs| && !p(outs[i])
    ensures Filter(outs, p) == Filter(outs[..i], p) + Filter(outs[i+1..], p)
  {
    SplitAround(outs, i);
    FilterAppend(outs[..i] + [outs[i]], outs[i+1..], p);
    FilterPush(outs[..i], outs[i], p);
  }

  /** Shrinking or dropping a change output leaves the requested ones. */
  lemma ShrinkingKeepsRequested(outs: seq<DataOutput>, i: nat, value: int)
    requires i < |outs| && outs[i].isChange
    ensures Filter(outs[i := outs[i].(value := value)], NotChange()) == Filter(outs, NotChange())
  {
    var outs' := outs[i := outs[i].(value := value)];
    AroundSkipped(outs, i, NotChange());
    AroundSkipped(outs', i, NotChange());
    assert outs'[..i] == outs[..i] && outs'[i+1..] == outs[i+1..];
  }

  lemma DroppingKeepsRequested(outs: seq<DataOutput>, i: nat)
    requires i < |outs| && outs[i].isChange
    ensures Filter(RemoveAt(outs, i), NotChange()) == Filter(outs, NotChange())
  {
    AroundSkipped(outs, i, NotChange());
    FilterAppend(outs[..i], outs[i+1..], NotChange());
  }

  // ----- paying the fee -----

  /** `findIndex`: the first match, or the length. */
  method FindIndex(outs: seq<DataOutput>, p: DataOutput -> bool) returns (i: nat)
    ensures i <= |outs| && (i < |outs| ==> p(outs[i]))
    ensures forall j :: 0 <= j < i ==> !p(outs[j])
  {
    i := 0;
    while i < |outs| && !p(outs[i])
      invariant i <= |outs| && forall j :: 0 <= j < i ==> !p(outs[j])
    {
      i := i + 1;
    }
  }

  /** The value of the first match, or zero. */
  function FirstValue(outs: seq<DataOutput>, p: DataOutput -> bool): int {
    if outs == [] then 0 else if p(outs[0]) then outs[0].value else FirstValue(outs[1..], p)
  }

  lemma {:induction false} FirstFound(outs: seq<DataOutput>, i: nat, p: DataOutput -> bool)
    requires i <= |outs| && (i < |outs| ==> p(outs[i])) && forall j :: 0 <= j < i ==> !p(outs[j])
    ensures FirstValue(outs, p) == if i < |outs| then outs[i].value else 0
  {
    if i > 0 {
      FirstFound(outs[1..], i - 1, p);
    }
  }

  function IsHtrChangeOutput(): DataOutput -> bool {
    (o: DataOutput) => o.token == HTR && o.authorities == 0 && o.isChange
  }

  ghost predicate WellBuilt(outs: seq<DataOutput>) {
    PositiveFunds(outs) && forall o :: o in outs ==> o.kind == AddressOutput
  }

  /** The outputs differ in HTR funds only, are as well built, and request the same. */
  ghost predicate StillBuilt(s: WalletStorage, outs: seq<DataOutput>, outs': seq<DataOutput>) {
    && WellBuilt(outs') && SameButHtrFunds(outs, outs')
    && Filter(outs', NotChange()) == Filter(outs, NotChange()) && AtHome(s, outs')
  }

  lemma ChangeShrunk(s: WalletStorage, outs: seq<DataOutput>, i: nat, value: int)
    requires i < |outs| && IsHtrChangeOutput()(outs[i]) && WellBuilt(outs) && AtHome(s, outs) && value > 0
    ensures StillBuilt(s, outs, outs[i := outs[i].(value := value)])
    ensures Sum(outs[i := outs[i].(value := value)], OutputFunds(HTR)) == Sum(outs, OutputFunds(HTR)) - outs[i].value + value
  {
    assert outs[i] in outs;
    ReplaceHtrFund(outs, i, value);
    ShrinkingKeepsRequested(outs, i, value);
  }

  lemma ChangeDropped(s: WalletStorage, outs: seq<DataOutput>, i: nat)
    requires i < |outs| && IsHtrChangeOutput()(outs[i]) && WellBuilt(outs) && AtHome(s, outs)
    ensures StillBuilt(s, outs, RemoveAt(outs, i)) && outs[i].value > 0
    ensures Sum(RemoveAt(outs, i), OutputFunds(HTR)) == Sum(outs, OutputFunds(HTR)) - outs[i].value
  {
    assert outs[i] in outs;
    DropHtrFund(outs, i);
    DroppingKeepsRequested(outs, i);
    SplitAround(outs, i);
  }

  /** Paying from the change of an HTR deposit: the change shrinks, or goes when it is not larger. */
  method PayFromChange(ghost s: WalletStorage, outputs: seq<DataOutput>, fee: int) returns (outs: seq<DataOutput>, remaining: int)
    requires WellBuilt(outputs) && fee > 0 && AtHome(s, outputs)
    ensures StillBuilt(s, outputs, outs) && 0 <= remaining <= fee
    ensures Sum(outs, OutputFunds(HTR)) + (fee - remaining) == Sum(outputs, OutputFunds(HTR))
    ensures remaining == if FirstValue(outputs, IsHtrChangeOutput()) > fee then 0 else fee - FirstValue(outputs, IsHtrChangeOutput())
    ensures remaining == fee ==> outs == outputs && forall o :: o in outputs ==> !IsHtrChangeOutput()(o)
  {
    outs, remaining := outputs, fee;
    var i := FindIndex(outputs, IsHtrChangeOutput());
    FirstFound(outputs, i, IsHtrChangeOutput());
    if i != |outputs| {
      var change := outputs[i];
      if change.value > fee {
        ChangeShrunk(s, outputs, i, change.value - fee);
        outs := outputs[i := change.(value := change.value - fee)];
        remaining := 0;
      } else {
        ChangeDropped(s, outputs, i);
        outs := RemoveAt(outputs, i);
        remaining := fee - change.value;
      }
    }
  }

  /** Paying from the contract's HTR output. */
  method PayFromContract(ghost s: WalletStorage, outputs: seq<DataOutput>, fee: int) returns (r: Result<seq<DataOutput>, BuildError>)
    requires WellBuilt(outputs) && fee > 0 && AtHome(s, outputs)
    ensures r.Ok? ==> AtHome(s, r.value)
    ensures r.Ok? ==> WellBuilt(r.value) && SameButHtrFunds(outputs, r.value)
    ensures r.Ok? ==> Sum(r.value, OutputFunds(HTR)) + fee == Sum(outputs, OutputFunds(HTR))
    ensures r.Err? ==> r.error in {NoHtrOutput, WithdrawalBelowFee}
    ensures r == Err(NoHtrOutput) <==> forall o :: o in outputs ==> !IsHtrFund()(o)
    ensures r.Ok? <==> FirstValue(outputs, IsHtrFund()) >= fee
  {
    var i := FindIndex(outputs, IsHtrFund());
    FirstFound(outputs, i, IsHtrFund());
    if i == |outputs| {
      return Err(NoHtrOutput);
    }
    var value := outputs[i].value - fee;
    assert outputs[i] in outputs;
    if value < 0 {
      return Err(WithdrawalBelowFee);
    }
    if value == 0 {
      DropHtrFund(outputs, i);
      return Ok(RemoveAt(outputs, i));
    }
    ReplaceHtrFund(outputs, i, value);
    r := Ok(outputs[i := outputs[i].(value := value)]);
  }
}
