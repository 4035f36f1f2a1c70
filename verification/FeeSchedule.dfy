/** The fee told by counting: one HTR unit for every output and deposit of a token that charges fees, and
    one for such a token that is only taken (`Fee.calculate`, src/utils/fee.ts). */
module FeeSchedule {
  import opened Wrappers
  import opened SeqSums
  import opened WalletTypes
  import opened Fee

  function FundsIn(t: Uid): DataInput -> bool { (i: DataInput) => i.token == t && i.authorities == 0 }

  function FundsOut(t: Uid): DataOutput -> bool { (o: DataOutput) => o.token == t && o.authorities == 0 }

  function DepositOf(t: Uid): FeeAction -> bool { (a: FeeAction) => a.kind.Deposit? && a.token == t }

  function WithdrawalOf(t: Uid): FeeAction -> bool { (a: FeeAction) => a.kind.Withdrawal? && a.token == t }

  /** What one token owes: a unit for each output and deposit; without any, a unit if it is taken. */
  function Due(ins: seq<DataInput>, outs: seq<DataOutput>, actions: seq<FeeAction>, t: Uid): int {
    var given := Count(outs, FundsOut(t)) + Count(actions, DepositOf(t));
    if given == 0 && Count(ins, FundsIn(t)) + Count(actions, WithdrawalOf(t)) > 0 then 1 else given
  }

  /** Only a custom token that charges fees owes anything. */
  function DueOf(ins: seq<DataInput>, outs: seq<DataOutput>, actions: seq<FeeAction>, tokens: map<Uid, TokenVersion>): Uid -> int {
    (t: Uid) => if t != Uid("00") && t in tokens && tokens[t].FeeToken? then Due(ins, outs, actions, t) else 0
  }

  /** The transaction or its actions name the token. */
  ghost predicate Touches(ins: seq<DataInput>, outs: seq<DataOutput>, actions: seq<FeeAction>, t: Uid) {
    || (exists i :: i in ins && i.token == t && i.authorities == 0)
    || (exists o :: o in outs && o.token == t && o.authorities == 0)
    || (exists a :: a in actions && a.token == t)
  }

  /** A list of tokens, none twice, that leaves out no custom token touched. */
  ghost predicate ListsTokens(ins: seq<DataInput>, outs: seq<DataOutput>, actions: seq<FeeAction>, ts: seq<Uid>) {
    Distinct(ts) && forall t: Uid :: t != Uid("00") && Touches(ins, outs, actions, t) ==> t in ts
  }

  lemma {:induction false} Occurrences<T(!new)>(s: seq<T>, p: T -> bool, f: T -> Uid, t: Uid, q: T -> bool)
    requires forall x :: q(x) <==> p(x) && f(x) == t
    ensures multiset(Map(Filter(s, p), f))[t] == Count(s, q)
  {
    if s != [] {
      var init, last := s[..|s| - 1], s[|s| - 1];
      assert s == init + [last];
      Occurrences(init, p, f, t, q);
      SumPush(init, last, One(q));
      FilterPush(init, last, p);
      MapPush(Filter(init, p), last, f);
    }
  }

  lemma ElementOccurrences(ins: seq<DataInput>, outs: seq<DataOutput>, t: Uid)
    ensures multiset(FundTokens(Map(ins, InputElement())))[t] == Count(ins, FundsIn(t))
    ensures multiset(FundTokens(Map(outs, OutputElement())))[t] == Count(outs, FundsOut(t))
  {
    var q := (e: Element) => e.authorities == 0 && e.token == t;
    Occurrences(Map(ins, InputElement()), IsFund(), ElementToken(), t, q);
    Occurrences(Map(outs, OutputElement()), IsFund(), ElementToken(), t, q);
    SumPointwise(Map(ins, InputElement()), ins, One(q), One(FundsIn(t)));
    SumPointwise(Map(outs, OutputElement()), outs, One(q), One(FundsOut(t)));
  }

  lemma ActionOccurrences(actions: seq<FeeAction>, t: Uid)
    requires t != HTR
    ensures multiset(Map(Filter(actions, IsDeposit()), ActionToken()))[t] == Count(actions, DepositOf(t))
    ensures multiset(Map(Filter(actions, IsWithdrawal()), ActionToken()))[t] == Count(actions, WithdrawalOf(t))
  {
    Occurrences(actions, IsDeposit(), ActionToken(), t, DepositOf(t));
    Occurrences(actions, IsWithdrawal(), ActionToken(), t, WithdrawalOf(t));
  }

  lemma PerTokenIsDue(ins: seq<DataInput>, outs: seq<DataOutput>, actions: seq<FeeAction>, tokens: map<Uid, TokenVersion>, t: Uid)
    requires t != HTR
    ensures FeePerToken(Map(ins, InputElement()), Map(outs, OutputElement()), actions, tokens)(t) == DueOf(ins, outs, actions, tokens)(t)
  {
    ElementOccurrences(ins, outs, t);
    ActionOccurrences(actions, t);
  }

  lemma FilterIsDistinct(s: seq<Uid>, p: Uid -> bool)
    requires Distinct(s)
    ensures Distinct(Filter(s, p))
  {
    DistinctCounts(s);
    FilterCounts(s, p);
    DistinctFromCounts(Filter(s, p));
  }

  /** A fee is charged for each token listed that is a custom one, whatever else is listed. */
  lemma {:induction false} SumOverMembers(a: seq<Uid>, b: seq<Uid>, f: Uid -> int)
    requires Distinct(a) && Distinct(b)
    requires forall t :: t in a && t !in b ==> f(t) == 0
    requires forall t :: t in b && t !in a ==> f(t) == 0
    ensures Sum(a, f) == Sum(b, f)
  {
    var inA, inB := (t: Uid) => t in a, (t: Uid) => t in b;
    var notA, notB := (t: Uid) => t !in a, (t: Uid) => t !in b;
    SumFilterSplit(a, inB, notB, f);
    SumFilterSplit(b, inA, notA, f);
    SumZero(Filter(a, notB), f);
    SumZero(Filter(b, notA), f);
    FilterIsDistinct(a, inB);
    FilterIsDistinct(b, inA);
    SameTokens(Filter(a, inB), Filter(b, inA));
    SumPermutation(Filter(a, inB), Filter(b, inA), f);
  }

  lemma {:induction false} CountNone<T(!new)>(s: seq<T>, p: T -> bool)
    ensures Count(s, p) >= 0 && (Count(s, p) > 0 <==> exists x :: x in s && p(x))
  {
    SumNonNegative(s, One(p));
    SumPositive(s, One(p));
  }

  lemma UntouchedOwesNothing(ins: seq<DataInput>, outs: seq<DataOutput>, actions: seq<FeeAction>, t: Uid)
    requires !Touches(ins, outs, actions, t)
    ensures Due(ins, outs, actions, t) == 0
  {
    CountNone(ins, FundsIn(t));
    CountNone(outs, FundsOut(t));
    CountNone(actions, DepositOf(t));
    CountNone(actions, WithdrawalOf(t));
  }

  /** The tokens a fee is computed for are the custom ones touched. */
  lemma FeeTokensAreTouched(ins: seq<DataInput>, outs: seq<DataOutput>, actions: seq<FeeAction>, t: Uid)
    ensures t in FeeTokens(Map(ins, InputElement()), Map(outs, OutputElement()), actions)
       <==> t != HTR && Touches(ins, outs, actions, t)
  {
    InputTokens(ins, outs, t);
    ActionTokens(actions, IsCustom(), t);
  }

  lemma InputTokens(ins: seq<DataInput>, outs: seq<DataOutput>, t: Uid)
    ensures t in FundTokens(Map(ins, InputElement())) <==> exists i :: i in ins && i.token == t && i.authorities == 0
    ensures t in FundTokens(Map(outs, OutputElement())) <==> exists o :: o in outs && o.token == t && o.authorities == 0
  {
    ElementOccurrences(ins, outs, t);
    CountNone(ins, FundsIn(t));
    CountNone(outs, FundsOut(t));
    assert t in FundTokens(Map(ins, InputElement())) <==> t in multiset(FundTokens(Map(ins, InputElement())));
    assert t in FundTokens(Map(outs, OutputElement())) <==> t in multiset(FundTokens(Map(outs, OutputElement())));
    assert forall i :: i in ins ==> (FundsIn(t)(i) <==> i.token == t && i.authorities == 0);
    assert forall o :: o in outs ==> (FundsOut(t)(o) <==> o.token == t && o.authorities == 0);
  }

  /** The tokens a fee is computed for, the custom ones touched. */
  lemma FeeOrder(ins: seq<DataInput>, outs: seq<DataOutput>, actions: seq<FeeAction>) returns (order: seq<Uid>)
    ensures order == FeeTokens(Map(ins, InputElement()), Map(outs, OutputElement()), actions) && Distinct(order)
    ensures forall t: Uid :: t in order <==> t != HTR && Touches(ins, outs, actions, t)
  {
    order := FeeTokens(Map(ins, InputElement()), Map(outs, OutputElement()), actions);
    forall t: Uid ensures t in order <==> t != HTR && Touches(ins, outs, actions, t) {
      FeeTokensAreTouched(ins, outs, actions, t);
    }
  }

  lemma ChargesAreDues(ins: seq<DataInput>, outs: seq<DataOutput>, actions: seq<FeeAction>, tokens: map<Uid, TokenVersion>, order: seq<Uid>)
    requires HTR !in order
    ensures Sum(order, FeePerToken(Map(ins, InputElement()), Map(outs, OutputElement()), actions, tokens))
         == Sum(order, DueOf(ins, outs, actions, tokens))
  {
    var charged, due := FeePerToken(Map(ins, InputElement()), Map(outs, OutputElement()), actions, tokens), DueOf(ins, outs, actions, tokens);
    forall t | t in order ensures charged(t) == due(t) {
      PerTokenIsDue(ins, outs, actions, tokens, t);
    }
    SumCongruent(order, charged, due);
  }

  /** Listing more than the touched tokens adds nothing. */
  lemma UntouchedAddsNothing(ins: seq<DataInput>, outs: seq<DataOutput>, actions: seq<FeeAction>, tokens: map<Uid, TokenVersion>,
                             order: seq<Uid>, ts: seq<Uid>)
    requires Distinct(order) && Distinct(ts) && forall t :: t in order ==> t in ts
    requires forall t: Uid :: t !in order && t != HTR ==> !Touches(ins, outs, actions, t)
    ensures Sum(order, DueOf(ins, outs, actions, tokens)) == Sum(ts, DueOf(ins, outs, actions, tokens))
  {
    var due := DueOf(ins, outs, actions, tokens);
    forall t | t in ts && t !in order ensures due(t) == 0 {
      if t != HTR {
        UntouchedOwesNothing(ins, outs, actions, t);
      }
    }
    SumOverMembers(order, ts, due);
  }

  /** Every custom token touched has a known version. */
  ghost predicate AllKnown(ins: seq<DataInput>, outs: seq<DataOutput>, actions: seq<FeeAction>, tokens: map<Uid, TokenVersion>) {
    forall t: Uid :: t != Uid("00") && Touches(ins, outs, actions, t) ==> t in tokens
  }

  lemma FeeNeedsVersions(ins: seq<DataInput>, outs: seq<DataOutput>, actions: seq<FeeAction>, tokens: map<Uid, TokenVersion>)
    ensures FeeResult(ins, outs, tokens, actions).Ok? <==> AllKnown(ins, outs, actions, tokens)
  {
    var order := FeeOrder(ins, outs, actions);
    KnownIfListed(order, tokens);
  }

  lemma FeeSumsDues(ins: seq<DataInput>, outs: seq<DataOutput>, actions: seq<FeeAction>, tokens: map<Uid, TokenVersion>, ts: seq<Uid>)
    requires ListsTokens(ins, outs, actions, ts)
    ensures Sum(FeeTokens(Map(ins, InputElement()), Map(outs, OutputElement()), actions),
                FeePerToken(Map(ins, InputElement()), Map(outs, OutputElement()), actions, tokens))
         == Sum(ts, DueOf(ins, outs, actions, tokens))
  {
    var order := FeeOrder(ins, outs, actions);
    ChargesAreDues(ins, outs, actions, tokens, order);
    UntouchedAddsNothing(ins, outs, actions, tokens, order, ts);
  }

  /** There is a fee exactly when every custom token touched is known, and it is what the tokens owe,
      listed in any way. */
  lemma FeeIsWhatIsDue(ins: seq<DataInput>, outs: seq<DataOutput>, actions: seq<FeeAction>, tokens: map<Uid, TokenVersion>, ts: seq<Uid>)
    requires ListsTokens(ins, outs, actions, ts)
    ensures FeeResult(ins, outs, tokens, actions)
         == if AllKnown(ins, outs, actions, tokens) then Ok(Sum(ts, DueOf(ins, outs, actions, tokens))) else Err(TokenNotFound)
  {
    FeeNeedsVersions(ins, outs, actions, tokens);
    FeeSumsDues(ins, outs, actions, tokens, ts);
  }

  lemma KnownIfListed(order: seq<Uid>, tokens: map<Uid, TokenVersion>)
    ensures (forall k :: 0 <= k < |order| ==> order[k] in tokens) <==> forall t :: t in order ==> t in tokens
  {
  }

  /** The fee of `n` outputs and deposits of one token that charges fees is `n`. */
  lemma FeeOfOneToken(ins: seq<DataInput>, outs: seq<DataOutput>, actions: seq<FeeAction>, tokens: map<Uid, TokenVersion>, t: Uid)
    requires t != Uid("00") && t in tokens && tokens[t].FeeToken?
    requires forall u: Uid :: u != Uid("00") && Touches(ins, outs, actions, u) ==> u == t
    ensures var n := Count(outs, FundsOut(t)) + Count(actions, DepositOf(t));
      n > 0 ==> FeeResult(ins, outs, tokens, actions) == Ok(n)
  {
    FeeIsWhatIsDue(ins, outs, actions, tokens, [t]);
    assert [t][1..] == [];
  }
}
