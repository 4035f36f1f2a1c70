/** The action phase of the nano contract builder (src/nano_contracts/builder.ts:343-640) as a function
    of the wallet it starts from: which actions succeed, what they spend, and what stays marked when a
    later one fails; and when the finished actions owe a fee. For transactions that create no token. */
module NanoActions {
  import opened Wrappers
  import opened SeqSums
  import opened WalletTypes
  import opened UtxoStore
  import opened SendModel
  import opened NanoWallet
  import opened NanoBuilder
  import UtxoSelection
  import Fee

  // ----- which actions succeed, and what they spend -----

  predicate DepositAccepted(s: WalletStorage, a: Action, amount: int)
    requires a.Deposit?
  {
    && a.amount != 0
    && (Present(a.changeAddress) ==> a.changeAddress.value in s.mine)
    && amount > 0 && Sum(Spendable(s, a.token, a.address), UtxoValue()) >= amount
  }

  ghost predicate GrantAccepted(s: WalletStorage, a: Action)
    requires a.GrantAuthority?
  {
    && (Present(a.authorityAddress) ==> a.authorityAddress.value in s.mine)
    && a.authority in {"mint", "melt"}
    && !NoAuthorityFor(s, a.token, a.authority, a.address)
  }

  ghost predicate Accepted(s: WalletStorage, a: Action) {
    match a
    case Deposit(_, amount, _, _) => DepositAccepted(s, a, amount)
    case Withdrawal(_, amount, address) => amount > 0 && Present(address)
    case GrantAuthority(_, _, _, _) => GrantAccepted(s, a)
    case AcquireAuthority(_, authority, address) => authority != "" && Present(address)
  }

  function DepositInputs(s: WalletStorage, a: Action, amount: int): seq<DataInput> {
    Map(UtxoSelection.Scan(Spendable(s, a.token, a.address), [], amount), InputFrom())
  }

  function GrantInputs(s: WalletStorage, a: Action): seq<DataInput>
    requires a.GrantAuthority?
  {
    Map(Selection(s.funds, AuthorityOptions(a.token, AuthorityMask(a.authority), a.address)), InputFrom())
  }

  /** What an accepted action spends. */
  function InputsFor(s: WalletStorage, a: Action): seq<DataInput> {
    match a
    case Deposit(_, amount, _, _) => DepositInputs(s, a, amount)
    case GrantAuthority(_, _, _, _) => GrantInputs(s, a)
    case _ => []
  }

  /** An accepted action spends exactly that and is done. */
  ghost predicate Performed(s: WalletStorage, a: Action, ins: seq<DataInput>, outs: seq<DataOutput>) {
    Accepted(s, a) && ins == InputsFor(s, a) && Step(s, a, ins, outs)
  }

  function WithSpent(s0: WalletStorage, ins: seq<DataInput>): WalletStorage { WithMarks(s0, Marked(s0, IdsOf(ins))) }

  /** What the actions spend, each on the wallet as the ones before it left it. */
  function InputsOf(s0: WalletStorage, actions: seq<Action>): seq<DataInput> {
    if actions == [] then []
    else
      var before := InputsOf(s0, actions[..|actions| - 1]);
      before + InputsFor(WithSpent(s0, before), actions[|actions| - 1])
  }

  /** The wallet as successful actions leave it. */
  function After(s0: WalletStorage, actions: seq<Action>): WalletStorage { WithSpent(s0, InputsOf(s0, actions)) }

  /** Each action is accepted by the wallet as the ones before it left it. */
  ghost predicate AllAccepted(s0: WalletStorage, actions: seq<Action>) {
    actions != [] ==>
      var init := actions[..|actions| - 1];
      AllAccepted(s0, init) && Accepted(After(s0, init), actions[|actions| - 1])
  }

  lemma AcceptedNext(s0: WalletStorage, actions: seq<Action>, k: nat)
    requires k < |actions| && AllAccepted(s0, actions[..k]) && Accepted(After(s0, actions[..k]), actions[k])
    ensures AllAccepted(s0, actions[..k+1])
    ensures InputsOf(s0, actions[..k+1]) == InputsOf(s0, actions[..k]) + InputsFor(After(s0, actions[..k]), actions[k])
  {
    assert actions[..k+1][..k] == actions[..k];
  }

  /** The action phase after its first `done` actions. */
  ghost predicate Phase(s0: WalletStorage, actions: seq<Action>, done: nat, ins: seq<DataInput>, outs: seq<DataOutput>) {
    && done <= |actions| && AllAccepted(s0, actions[..done])
    && ins == InputsOf(s0, actions[..done]) && Built(s0, actions[..done], ins, outs)
  }

  lemma NothingSpent(s: WalletStorage)
    ensures WithSpent(s, []) == s
  {
    assert Map([], InputIdOf()) == [];
    assert Marked(s, []) == s.funds.selected;
  }

  lemma DepositDone(s: WalletStorage, a: Action, ins: seq<DataInput>, outs: seq<DataOutput>)
    requires a.Deposit? && DepositAccepted(s, a, a.amount) && ins == DepositInputs(s, a, a.amount)
    requires PickedFrom(s, a.token, ins) && forall i :: i in ins ==> i.authorities == 0
    requires forall o :: o in outs ==> IsChangeOf(o, a.token) && IsHome(s, o.address)
    requires Sum(ins, InputFunds(a.token)) == a.amount + Sum(outs, OutputFunds(a.token))
    ensures Performed(s, a, ins, outs)
  {
    DepositStep(s, a, ins, outs);
  }

  lemma WithdrawalDone(s: WalletStorage, a: Action)
    requires a.Withdrawal? && a.amount > 0 && Present(a.address)
    ensures Performed(s, a, [], RequestedOf(a)) && WithSpent(s, []) == s
  {
    WithdrawalStep(s, a, RequestedOf(a));
    NothingSpent(s);
  }

  lemma AcquireDone(s: WalletStorage, a: Action)
    requires a.AcquireAuthority? && a.authority != "" && Present(a.address)
    ensures Performed(s, a, [], RequestedOf(a)) && WithSpent(s, []) == s
  {
    NoGrant(a, []);
    AuthorityStep(s, a, []);
    NothingSpent(s);
  }

  lemma TakeNext(actions: seq<Action>, k: nat)
    requires k < |actions|
    ensures actions[..k+1] == actions[..k] + [actions[k]]
  {
  }

  lemma PhaseStep(s0: WalletStorage, actions: seq<Action>, k: nat, ins: seq<DataInput>, outs: seq<DataOutput>,
                  ins': seq<DataInput>, outs': seq<DataOutput>)
    requires Phase(s0, actions, k, ins, outs) && k < |actions|
    requires Performed(WithSpent(s0, ins), actions[k], ins', outs')
    ensures Phase(s0, actions, k + 1, ins + ins', outs + outs')
    ensures WithSpent(WithSpent(s0, ins), ins') == WithSpent(s0, ins + ins')
  {
    TakeNext(actions, k);
    BuiltStep(s0, WithSpent(s0, ins), actions[..k], actions[k], ins, outs, ins', outs');
    AcceptedNext(s0, actions, k);
  }

  lemma PhaseStart(s0: WalletStorage, actions: seq<Action>)
    ensures Phase(s0, actions, 0, [], []) && WithSpent(s0, []) == s0
  {
    assert actions[..0] == [] && Map([], InputIdOf()) == [];
    assert forall t: Uid :: Balanced([], [], [], t, 0);
    NothingSpent(s0);
  }

  // ----- what stays marked -----

  /** One of the actions spends an outpoint the history knows as unspent. */
  ghost predicate LeavesMark(s0: WalletStorage, actions: seq<Action>) {
    exists i :: i in InputsOf(s0, actions) && Markable(s0, i.id)
  }

  lemma NothingDone(s0: WalletStorage, actions: seq<Action>)
    ensures Phase(s0, actions, 0, [], []) && !LeavesMark(s0, actions[..0]) && !AnySpends(actions[..0])
  {
    PhaseStart(s0, actions);
  }

  /** Marking fresh inputs changes nothing exactly when the history knows none of them as unspent. */
  lemma MarkedIffKnown(s0: WalletStorage, ins: seq<DataInput>)
    requires forall i :: i in ins ==> i.id !in s0.funds.selected
    ensures WithSpent(s0, ins) == s0 <==> forall i :: i in ins ==> !Markable(s0, i.id)
  {
    var ids := IdsOf(ins);
    forall i | i in ins ensures i.id in ids {
      var k :| 0 <= k < |ins| && ins[k] == i;
      assert ids[k] == i.id;
    }
    if i :| i in ins && Markable(s0, i.id) {
      assert i.id in Marked(s0, ids);
    } else {
      forall id | id in ids ensures !Markable(s0, id) {
        var k :| 0 <= k < |ids| && ids[k] == id;
        assert ins[k] in ins;
      }
      assert Marked(s0, ids) == s0.funds.selected;
    }
  }

  predicate SpendsUtxos(a: Action) { a.Deposit? || a.GrantAuthority? }

  predicate AnySpends(actions: seq<Action>) { exists a :: a in actions && SpendsUtxos(a) }

  /** An accepted deposit or grant spends at least one utxo, the other actions none. */
  lemma SpendsIffDeposited(s: WalletStorage, a: Action)
    requires Accepted(s, a)
    ensures InputsFor(s, a) != [] <==> SpendsUtxos(a)
  {
    match a {
      case Deposit(token, amount, address, _) =>
        UtxoSelection.ScanReaches(Spendable(s, token, address), [], amount);
      case GrantAuthority(token, authority, address, _) =>
        GrantedIsPicked(s, token, authority, address);
      case _ =>
    }
  }

  lemma {:induction false} SpentIffDeposited(s0: WalletStorage, actions: seq<Action>)
    requires AllAccepted(s0, actions)
    ensures InputsOf(s0, actions) != [] <==> AnySpends(actions)
  {
    if actions != [] {
      var n := |actions| - 1;
      SpentIffDeposited(s0, actions[..n]);
      SpendsIffDeposited(After(s0, actions[..n]), actions[n]);
      AnySpendsLast(actions);
    }
  }

  lemma AnySpendsLast(actions: seq<Action>)
    requires actions != []
    ensures AnySpends(actions) <==> AnySpends(actions[..|actions| - 1]) || SpendsUtxos(actions[|actions| - 1])
  {
    var n := |actions| - 1;
    assert actions == actions[..n] + [actions[n]];
    assert actions[n] in actions;
  }

  /** When the history knows every utxo, any deposit or grant leaves a mark. */
  lemma MarkIffDeposited(s0: WalletStorage, actions: seq<Action>)
    requires AllAccepted(s0, actions) && UtxosKnown(s0) && InputsFresh(s0, InputsOf(s0, actions))
    ensures LeavesMark(s0, actions) <==> AnySpends(actions)
  {
    SpentIffDeposited(s0, actions);
    var ins := InputsOf(s0, actions);
    if ins != [] {
      assert ins[0] in ins;
      assert InStore(s0, ins[0]);
    }
  }

  /** Successful actions leave the wallet as it was exactly when they leave no mark. */
  lemma UnchangedIffUnmarked(s0: WalletStorage, actions: seq<Action>, done: nat, ins: seq<DataInput>, outs: seq<DataOutput>)
    requires Phase(s0, actions, done, ins, outs)
    ensures After(s0, actions[..done]) == s0 <==> !LeavesMark(s0, actions[..done])
    ensures UtxosKnown(s0) ==> (LeavesMark(s0, actions[..done]) <==> AnySpends(actions[..done]))
  {
    MarkedIffKnown(s0, ins);
    if UtxosKnown(s0) {
      MarkIffDeposited(s0, actions[..done]);
    }
  }

  // ----- when a fee is due -----

  function KindOf(a: Action): Fee.ActionKind {
    match a
    case Deposit(_, _, _, _) => Fee.Deposit
    case Withdrawal(_, _, _) => Fee.Withdrawal
    case GrantAuthority(_, _, _, _) => Fee.GrantAuthority
    case AcquireAuthority(_, _, _) => Fee.AcquireAuthority
  }

  function FeeActionOf(): Action -> Fee.FeeAction { (a: Action) => Fee.FeeAction(KindOf(a), a.token) }

  function FeeActions(actions: seq<Action>): seq<Fee.FeeAction> { Map(actions, FeeActionOf()) }

  /** Some deposit or withdrawal is of a custom token that pays fees. */
  predicate OwesFee(tokens: map<Uid, Fee.TokenVersion>, actions: seq<Action>) {
    exists a :: a in actions && MovesFunds(a) && Fee.PaysFee(tokens, a.token)
  }

  /** The wallet knows the version of every custom token of the actions. */
  predicate TokensKnown(tokens: map<Uid, Fee.TokenVersion>, actions: seq<Action>) {
    forall a :: a in actions ==> a.token == HTR || a.token in tokens
  }

  lemma FundTokensMoved(actions: seq<Action>, ins: seq<DataInput>, outs: seq<DataOutput>, t: Uid)
    requires FundsMoved(actions, ins, outs)
    requires t in Fee.FundTokens(Map(ins, Fee.InputElement())) || t in Fee.FundTokens(Map(outs, Fee.OutputElement()))
    ensures MovedToken(actions, t)
  {
    if t in Fee.FundTokens(Map(ins, Fee.InputElement())) {
      var e := FundElement(Map(ins, Fee.InputElement()), t);
      var k :| 0 <= k < |ins| && Map(ins, Fee.InputElement())[k] == e;
      assert ins[k] in ins;
    } else {
      var e := FundElement(Map(outs, Fee.OutputElement()), t);
      var k :| 0 <= k < |outs| && Map(outs, Fee.OutputElement())[k] == e;
      assert outs[k] in outs;
    }
  }

  lemma FundElement(es: seq<Fee.Element>, t: Uid) returns (e: Fee.Element)
    requires t in Fee.FundTokens(es)
    ensures e in es && e.token == t && e.authorities == 0
  {
    var funds := Filter(es, Fee.IsFund());
    var k :| 0 <= k < |funds| && Fee.FundTokens(es)[k] == t;
    e := funds[k];
    assert e in funds;
  }

  lemma ActionMoves(actions: seq<Action>, t: Uid)
    ensures MovedToken(actions, t)
       <==> exists a :: a in FeeActions(actions) && a.token == t && (a.kind == Fee.Deposit || a.kind == Fee.Withdrawal)
  {
    if MovedToken(actions, t) {
      var a :| a in actions && a.token == t && MovesFunds(a);
      var k :| 0 <= k < |actions| && actions[k] == a;
      assert FeeActions(actions)[k] in FeeActions(actions);
    }
    if a :| a in FeeActions(actions) && a.token == t && (a.kind == Fee.Deposit || a.kind == Fee.Withdrawal) {
      var k :| 0 <= k < |actions| && FeeActions(actions)[k] == a;
      assert actions[k] in actions;
    }
  }

  /** Whatever the actions selected, a fee is due exactly when one of them moves a fee-paying token. */
  lemma FeeOwed(tokens: map<Uid, Fee.TokenVersion>, actions: seq<Action>, ins: seq<DataInput>, outs: seq<DataOutput>, fee: int)
    requires FundsMoved(actions, ins, outs) && Fee.FeeResult(ins, outs, tokens, FeeActions(actions)) == Ok(fee)
    ensures fee > 0 <==> OwesFee(tokens, actions)
  {
    var ies, oes := Map(ins, Fee.InputElement()), Map(outs, Fee.OutputElement());
    Fee.FeeIsDue(ies, oes, FeeActions(actions), tokens);
    forall t: Uid ensures Fee.Moved(ies, oes, FeeActions(actions), t) <==> MovedToken(actions, t) {
      ActionMoves(actions, t);
      if t in Fee.FundTokens(ies) || t in Fee.FundTokens(oes) {
        FundTokensMoved(actions, ins, outs, t);
      }
    }
    if OwesFee(tokens, actions) {
      var a :| a in actions && MovesFunds(a) && Fee.PaysFee(tokens, a.token);
      assert MovedToken(actions, a.token);
    }
  }

  /** The fee can be calculated exactly when the version of every custom token is known. */
  lemma FeeKnown(tokens: map<Uid, Fee.TokenVersion>, actions: seq<Action>, ins: seq<DataInput>, outs: seq<DataOutput>)
    requires FundsMoved(actions, ins, outs)
    ensures Fee.FeeResult(ins, outs, tokens, FeeActions(actions)).Ok? <==> TokensKnown(tokens, actions)
  {
    var ies, oes := Map(ins, Fee.InputElement()), Map(outs, Fee.OutputElement());
    var order := Fee.FeeTokens(ies, oes, FeeActions(actions));
    forall t: Uid ensures t in order <==> t != HTR && UsedToken(actions, t) {
      CustomActions(actions, t);
      if t in Fee.FundTokens(ies) || t in Fee.FundTokens(oes) {
        FundTokensMoved(actions, ins, outs, t);
        var a :| a in actions && a.token == t && MovesFunds(a);
      }
    }
    forall k | 0 <= k < |order| && TokensKnown(tokens, actions) ensures order[k] in tokens {
      assert order[k] in order;
    }
    forall a | a in actions && a.token != HTR && a.token !in tokens ensures exists k :: 0 <= k < |order| && order[k] !in tokens {
      assert UsedToken(actions, a.token);
      assert a.token in order;
    }
  }

  lemma CustomActions(actions: seq<Action>, t: Uid)
    ensures t in Map(Filter(FeeActions(actions), Fee.IsCustom()), Fee.ActionToken()) <==> t != HTR && UsedToken(actions, t)
  {
    Fee.ActionTokens(FeeActions(actions), Fee.IsCustom(), t);
    if t != HTR && UsedToken(actions, t) {
      var a :| a in actions && a.token == t;
      var k :| 0 <= k < |actions| && actions[k] == a;
      assert FeeActions(actions)[k] in FeeActions(actions);
    }
    if a :| a in FeeActions(actions) && Fee.IsCustom()(a) && a.token == t {
      var k :| 0 <= k < |actions| && FeeActions(actions)[k] == a;
      assert actions[k] in actions;
    }
  }
}
