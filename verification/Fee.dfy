/** The transaction fee of src/utils/fee.ts: `Fee.calculate`. */
module Fee {
  import opened Wrappers
  import opened SeqSums
  import opened WalletTypes

  datatype TokenVersion = NativeToken | DepositToken | FeeToken

  datatype ActionKind = Deposit | Withdrawal | GrantAuthority | AcquireAuthority

  /** A nano contract action, as far as the fee is concerned. */
  datatype FeeAction = FeeAction(kind: ActionKind, token: Uid)

  datatype FeeError = TokenNotFound

  /** An input or output: only its token and whether it is an authority matter. */
  datatype Element = Element(token: Uid, authorities: nat)

  function InputElement(): DataInput -> Element { (i: DataInput) => Element(i.token, i.authorities) }

  function OutputElement(): DataOutput -> Element { (o: DataOutput) => Element(o.token, o.authorities) }

  function ElementToken(): Element -> Uid { (e: Element) => e.token }

  function IsFund(): Element -> bool { (e: Element) => e.authorities == 0 }

  function IsDeposit(): FeeAction -> bool { (a: FeeAction) => a.kind == Deposit && a.token != HTR }

  function IsWithdrawal(): FeeAction -> bool { (a: FeeAction) => a.kind == Withdrawal && a.token != HTR }

  function IsCustom(): FeeAction -> bool { (a: FeeAction) => a.token != HTR }

  function ActionToken(): FeeAction -> Uid { (a: FeeAction) => a.token }

  /** The tokens of the non-authority elements, with repetitions. */
  function FundTokens(es: seq<Element>): seq<Uid> { Map(Filter(es, IsFund()), ElementToken()) }

  /** The custom tokens a transaction touches, each once. */
  function FeeTokens(ins: seq<Element>, outs: seq<Element>, actions: seq<FeeAction>): seq<Uid> {
    Without(Dedup(FundTokens(ins) + FundTokens(outs) + Map(Filter(actions, IsCustom()), ActionToken())), HTR)
  }

  /** One FEE token pays one per output, deposits included; with inputs or withdrawals but no
      output at all it is a melt and pays one. */
  function TokenFee(ins: multiset<Uid>, outs: multiset<Uid>, deposits: multiset<Uid>, withdrawals: multiset<Uid>,
                    tokens: map<Uid, TokenVersion>): Uid -> int {
    (t: Uid) =>
      if t !in tokens || tokens[t] != FeeToken then 0
      else
        var count := outs[t] + deposits[t];
        if count == 0 && (ins[t] > 0 || withdrawals[t] > 0) then FEE_PER_OUTPUT else count * FEE_PER_OUTPUT
  }

  function FeePerToken(ins: seq<Element>, outs: seq<Element>, actions: seq<FeeAction>, tokens: map<Uid, TokenVersion>): Uid -> int {
    TokenFee(multiset(FundTokens(ins)), multiset(FundTokens(outs)),
             multiset(Map(Filter(actions, IsDeposit()), ActionToken())),
             multiset(Map(Filter(actions, IsWithdrawal()), ActionToken())), tokens)
  }

  /** The fee of a transaction, or an error when the version of one of its tokens is unknown. */
  function FeeResult(inputs: seq<DataInput>, outputs: seq<DataOutput>, tokens: map<Uid, TokenVersion>, actions: seq<FeeAction>)
    : Result<int, FeeError>
  {
    ElementsFee(Map(inputs, InputElement()), Map(outputs, OutputElement()), tokens, actions)
  }

  function ElementsFee(ins: seq<Element>, outs: seq<Element>, tokens: map<Uid, TokenVersion>, actions: seq<FeeAction>)
    : Result<int, FeeError>
  {
    var order := FeeTokens(ins, outs, actions);
    if forall k :: 0 <= k < |order| ==> order[k] in tokens
    then Ok(Sum(order, FeePerToken(ins, outs, actions, tokens))) else Err(TokenNotFound)
  }

  function Lookup(counts: map<Uid, nat>, t: Uid): nat { if t in counts then counts[t] else 0 }

  /** `counts` counts the tokens of a list, naming only those that occur. */
  ghost predicate Counts(counts: map<Uid, nat>, tokens: seq<Uid>) {
    && (forall t: Uid :: Lookup(counts, t) == multiset(tokens)[t])
    && (forall t :: t in counts ==> counts[t] > 0)
  }

  lemma CountsPush(counts: map<Uid, nat>, tokens: seq<Uid>, t: Uid)
    requires Counts(counts, tokens)
    ensures Counts(counts[t := Lookup(counts, t) + 1], tokens + [t])
  {
    assert multiset(tokens + [t]) == multiset(tokens) + multiset{t};
  }

  lemma FundPush(es: seq<Element>, e: Element)
    ensures FundTokens(es + [e]) == FundTokens(es) + if e.authorities == 0 then [e.token] else []
  {
    FilterAppend(es, [e], IsFund());
    assert [e][1..] == [];
  }

  lemma ActionPush(actions: seq<FeeAction>, a: FeeAction, p: FeeAction -> bool)
    ensures Map(Filter(actions + [a], p), ActionToken())
         == Map(Filter(actions, p), ActionToken()) + if p(a) then [a.token] else []
  {
    FilterAppend(actions, [a], p);
    assert [a][1..] == [];
  }

  /** `groupTokenElementsByTokenUid`: how many non-authority elements each token has, and the
      tokens in order of first appearance. */
  method GroupByToken(es: seq<Element>) returns (counts: map<Uid, nat>, order: seq<Uid>)
    ensures Counts(counts, FundTokens(es))
    ensures forall t :: t in order <==> t in counts
  {
    counts, order := map[], [];
    for k := 0 to |es|
      invariant Counts(counts, FundTokens(es[..k]))
      invariant forall t :: t in order <==> t in counts
    {
      var e := es[k];
      assert es[..k+1] == es[..k] + [e];
      FundPush(es[..k], e);
      if e.authorities == 0 {
        CountsPush(counts, FundTokens(es[..k]), e.token);
        if e.token !in counts {
          order := order + [e.token];
        }
        counts := counts[e.token := Lookup(counts, e.token) + 1];
      }
    }
    assert es[..|es|] == es;
  }

  method CountActions(actions: seq<FeeAction>, p: FeeAction -> bool) returns (counts: map<Uid, nat>, order: seq<Uid>)
    ensures Counts(counts, Map(Filter(actions, p), ActionToken()))
    ensures order == Map(Filter(actions, p), ActionToken())
  {
    counts, order := map[], [];
    for k := 0 to |actions|
      invariant order == Map(Filter(actions[..k], p), ActionToken()) && Counts(counts, order)
    {
      var a := actions[k];
      assert actions[..k+1] == actions[..k] + [a];
      ActionPush(actions[..k], a, p);
      if p(a) {
        CountsPush(counts, order, a.token);
        order := order + [a.token];
        counts := counts[a.token := Lookup(counts, a.token) + 1];
      }
    }
    assert actions[..|actions|] == actions;
  }

  /** `Fee.calculate` */
  method Calculate(inputs: seq<DataInput>, outputs: seq<DataOutput>, tokens: map<Uid, TokenVersion>, actions: seq<FeeAction>)
    returns (r: Result<int, FeeError>)
    ensures r == FeeResult(inputs, outputs, tokens, actions)
    ensures r.Ok? ==> r.value >= 0
  {
    var ins, outs := Map(inputs, InputElement()), Map(outputs, OutputElement());
    var inCounts, inOrder := GroupByToken(ins);
    var outCounts, outOrder := GroupByToken(outs);
    var deposits, _ := CountActions(actions, IsDeposit());
    var withdrawals, _ := CountActions(actions, IsWithdrawal());
    var _, actionOrder := CountActions(actions, IsCustom());
    var order := Without(Dedup(inOrder + outOrder + actionOrder), HTR);
    ghost var spec := FeeTokens(ins, outs, actions);
    ghost var f := FeePerToken(ins, outs, actions, tokens);
    SameOrder(inCounts, inOrder, ins);
    SameOrder(outCounts, outOrder, outs);
    SameTokens(order, spec);
    CountedIsTokenFee(ins, outs, actions, tokens, inCounts, outCounts, deposits, withdrawals);
    r := SumFees(order, inCounts, outCounts, deposits, withdrawals, tokens, f);
    SumPermutation(order, spec, f);
    SameMembers(order, spec);
  }

  lemma CountedIsTokenFee(ins: seq<Element>, outs: seq<Element>, actions: seq<FeeAction>, tokens: map<Uid, TokenVersion>,
                          inCounts: map<Uid, nat>, outCounts: map<Uid, nat>, deposits: map<Uid, nat>, withdrawals: map<Uid, nat>)
    requires Counts(inCounts, FundTokens(ins)) && Counts(outCounts, FundTokens(outs))
    requires Counts(deposits, Map(Filter(actions, IsDeposit()), ActionToken()))
    requires Counts(withdrawals, Map(Filter(actions, IsWithdrawal()), ActionToken()))
    ensures forall t :: FeePerToken(ins, outs, actions, tokens)(t) == CountedFee(inCounts, outCounts, deposits, withdrawals, tokens, t)
  {
  }

  lemma SameMembers(a: seq<Uid>, b: seq<Uid>)
    requires multiset(a) == multiset(b)
    ensures forall k :: 0 <= k < |a| ==> a[k] in b
    ensures forall k :: 0 <= k < |b| ==> b[k] in a
  {
    assert forall k :: 0 <= k < |a| ==> a[k] in multiset(b);
    assert forall k :: 0 <= k < |b| ==> b[k] in multiset(a);
  }

  /** The loop of `Fee.calculate` over the custom tokens. */
  method SumFees(order: seq<Uid>, ins: map<Uid, nat>, outs: map<Uid, nat>, deposits: map<Uid, nat>,
                 withdrawals: map<Uid, nat>, tokens: map<Uid, TokenVersion>, ghost f: Uid -> int)
    returns (r: Result<int, FeeError>)
    requires forall t :: t in ins ==> ins[t] > 0
    requires forall t :: f(t) == CountedFee(ins, outs, deposits, withdrawals, tokens, t)
    ensures r == if forall k :: 0 <= k < |order| ==> order[k] in tokens then Ok(Sum(order, f)) else Err(TokenNotFound)
    ensures r.Ok? ==> r.value >= 0
  {
    var fee := 0;
    for k := 0 to |order|
      invariant fee >= 0 && fee == Sum(order[..k], f)
      invariant forall j :: 0 <= j < k ==> order[j] in tokens
    {
      var token := order[k];
      assert order[..k+1] == order[..k] + [token];
      SumPush(order[..k], token, f);
      if token !in tokens {
        return Err(TokenNotFound);
      }
      if tokens[token] != FeeToken {
        continue;
      }
      var outputCount := Lookup(outs, token) + Lookup(deposits, token);
      var hasInputs := token in ins || Lookup(withdrawals, token) > 0;
      if hasInputs && outputCount == 0 {
        fee := fee + FEE_PER_OUTPUT;
      }
      fee := fee + outputCount * FEE_PER_OUTPUT;
    }
    assert order[..|order|] == order;
    r := Ok(fee);
  }

  /** `TokenFee` on the counts the grouping produced. */
  function CountedFee(ins: map<Uid, nat>, outs: map<Uid, nat>, deposits: map<Uid, nat>, withdrawals: map<Uid, nat>,
                      tokens: map<Uid, TokenVersion>, t: Uid): int {
    if t !in tokens || tokens[t] != FeeToken then 0
    else
      var count := Lookup(outs, t) + Lookup(deposits, t);
      if count == 0 && (Lookup(ins, t) > 0 || Lookup(withdrawals, t) > 0) then FEE_PER_OUTPUT else count * FEE_PER_OUTPUT
  }

  lemma SameOrder(counts: map<Uid, nat>, order: seq<Uid>, es: seq<Element>)
    requires Counts(counts, FundTokens(es))
    requires forall t :: t in order <==> t in counts
    ensures forall t: Uid :: t in order <==> t in FundTokens(es)
  {
    forall t: Uid ensures t in order <==> t in FundTokens(es) {
      assert t in counts <==> Lookup(counts, t) > 0;
      assert t in FundTokens(es) <==> t in multiset(FundTokens(es));
    }
  }

  /** Two duplicate-free lists of the same tokens are permutations of each other. */
  lemma SameTokens(a: seq<Uid>, b: seq<Uid>)
    requires Distinct(a) && Distinct(b)
    requires forall t: Uid :: t in a <==> t in b
    ensures multiset(a) == multiset(b)
  {
    DistinctCounts(a);
    DistinctCounts(b);
    forall t: Uid ensures multiset(a)[t] == multiset(b)[t] {
      assert t in a <==> t in multiset(a);
      assert t in b <==> t in multiset(b);
    }
  }

  ghost predicate SameCustomFunds(es: seq<Element>, es': seq<Element>) {
    forall t: Uid :: t != HTR ==> multiset(FundTokens(es))[t] == multiset(FundTokens(es'))[t]
  }

  /** Adding or removing native funds and reordering a transaction do not change its fee. */
  lemma FeeIgnoresNativeFundsAndOrder(ins: seq<Element>, ins': seq<Element>, outs: seq<Element>, outs': seq<Element>,
                                      tokens: map<Uid, TokenVersion>, actions: seq<FeeAction>)
    requires SameCustomFunds(ins, ins') && SameCustomFunds(outs, outs')
    ensures ElementsFee(ins, outs, tokens, actions) == ElementsFee(ins', outs', tokens, actions)
  {
    SameFeeTokens(ins, outs, ins', outs', actions);
    SameMembers(FeeTokens(ins, outs, actions), FeeTokens(ins', outs', actions));
    SamePerToken(ins, outs, ins', outs', actions, tokens);
    SumPermutation(FeeTokens(ins, outs, actions), FeeTokens(ins', outs', actions), FeePerToken(ins', outs', actions, tokens));
  }

  lemma SameCustomFundsPermutation(es: seq<Element>, es': seq<Element>)
    requires multiset(es) == multiset(es')
    ensures SameCustomFunds(es, es')
  {
    FilterPermutation(es, es', IsFund());
    MapPermutation(Filter(es, IsFund()), Filter(es', IsFund()), ElementToken());
  }

  /** Native elements are invisible to the fee. */
  lemma SameCustomFundsNative(es: seq<Element>, native: seq<Element>)
    requires forall e :: e in native ==> e.token == HTR
    ensures SameCustomFunds(es, es + native)
  {
    FilterAppend(es, native, IsFund());
    var more := FundTokens(native);
    assert FundTokens(es + native) == FundTokens(es) + more;
    forall t: Uid | t != HTR ensures multiset(more)[t] == 0 {
      assert t !in more;
    }
  }

  lemma SamePerToken(ins: seq<Element>, outs: seq<Element>, ins': seq<Element>, outs': seq<Element>,
                     actions: seq<FeeAction>, tokens: map<Uid, TokenVersion>)
    requires SameCustomFunds(ins, ins') && SameCustomFunds(outs, outs')
    ensures var order := FeeTokens(ins, outs, actions);
      Sum(order, FeePerToken(ins, outs, actions, tokens)) == Sum(order, FeePerToken(ins', outs', actions, tokens))
  {
    SumCongruent(FeeTokens(ins, outs, actions), FeePerToken(ins, outs, actions, tokens), FeePerToken(ins', outs', actions, tokens));
  }

  lemma SameFeeTokens(ins: seq<Element>, outs: seq<Element>, ins': seq<Element>, outs': seq<Element>, actions: seq<FeeAction>)
    requires SameCustomFunds(ins, ins') && SameCustomFunds(outs, outs')
    ensures multiset(FeeTokens(ins, outs, actions)) == multiset(FeeTokens(ins', outs', actions))
  {
    var order, order' := FeeTokens(ins, outs, actions), FeeTokens(ins', outs', actions);
    forall t: Uid ensures t in order <==> t in order' {
      if t != HTR {
        assert t in FundTokens(ins) <==> t in multiset(FundTokens(ins));
        assert t in FundTokens(ins') <==> t in multiset(FundTokens(ins'));
        assert t in FundTokens(outs) <==> t in multiset(FundTokens(outs));
        assert t in FundTokens(outs') <==> t in multiset(FundTokens(outs'));
      }
    }
    SameTokens(order, order');
  }

  /** The token has funds in the transaction or is deposited or withdrawn. */
  ghost predicate Moved(ins: seq<Element>, outs: seq<Element>, actions: seq<FeeAction>, t: Uid) {
    t in FundTokens(ins) || t in FundTokens(outs) || exists a :: a in actions && a.token == t && (a.kind == Deposit || a.kind == Withdrawal)
  }

  predicate PaysFee(tokens: map<Uid, TokenVersion>, t: Uid) { t != HTR && t in tokens && tokens[t] == FeeToken }

  lemma ActionTokens(actions: seq<FeeAction>, p: FeeAction -> bool, t: Uid)
    ensures t in Map(Filter(actions, p), ActionToken()) <==> exists a :: a in actions && p(a) && a.token == t
  {
    var kept := Filter(actions, p);
    var tokens := Map(kept, ActionToken());
    if t in tokens {
      var k :| 0 <= k < |tokens| && tokens[k] == t;
      assert kept[k] in kept;
    }
    if a :| a in actions && p(a) && a.token == t {
      assert a in kept;
      var k :| 0 <= k < |kept| && kept[k] == a;
      assert tokens[k] == t;
    }
  }

  lemma FeePerTokenIsDue(ins: seq<Element>, outs: seq<Element>, actions: seq<FeeAction>, tokens: map<Uid, TokenVersion>, t: Uid)
    requires t != HTR
    ensures FeePerToken(ins, outs, actions, tokens)(t) >= 0
    ensures FeePerToken(ins, outs, actions, tokens)(t) > 0 <==> Moved(ins, outs, actions, t) && PaysFee(tokens, t)
  {
    ActionTokens(actions, IsDeposit(), t);
    ActionTokens(actions, IsWithdrawal(), t);
    assert t in FundTokens(ins) <==> multiset(FundTokens(ins))[t] > 0;
    assert t in FundTokens(outs) <==> multiset(FundTokens(outs))[t] > 0;
    var deposits, withdrawals := Map(Filter(actions, IsDeposit()), ActionToken()), Map(Filter(actions, IsWithdrawal()), ActionToken());
    assert t in deposits <==> multiset(deposits)[t] > 0;
    assert t in withdrawals <==> multiset(withdrawals)[t] > 0;
  }

  lemma FeeTokensMoved(ins: seq<Element>, outs: seq<Element>, actions: seq<FeeAction>, t: Uid)
    requires t != HTR && Moved(ins, outs, actions, t)
    ensures t in FeeTokens(ins, outs, actions)
  {
    ActionTokens(actions, IsCustom(), t);
  }

  /** A fee is due exactly when the transaction moves funds of some fee-paying token. */
  lemma FeeIsDue(ins: seq<Element>, outs: seq<Element>, actions: seq<FeeAction>, tokens: map<Uid, TokenVersion>)
    requires ElementsFee(ins, outs, tokens, actions).Ok?
    ensures ElementsFee(ins, outs, tokens, actions).value > 0
       <==> exists t :: Moved(ins, outs, actions, t) && PaysFee(tokens, t)
  {
    var order, f := FeeTokens(ins, outs, actions), FeePerToken(ins, outs, actions, tokens);
    forall t | t in order ensures f(t) >= 0 && (f(t) > 0 <==> Moved(ins, outs, actions, t) && PaysFee(tokens, t)) {
      FeePerTokenIsDue(ins, outs, actions, tokens, t);
    }
    SumPositive(order, f);
    forall t | Moved(ins, outs, actions, t) && PaysFee(tokens, t) ensures t in order {
      FeeTokensMoved(ins, outs, actions, t);
    }
  }
}
