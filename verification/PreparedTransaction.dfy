/** The `SendTransaction` object of src/new/sendTransaction.ts and the guarantees on the transaction
    data `prepareTxData` leaves in it, stated on that data alone. */
module PreparedTransaction {
  import opened Wrappers
  import opened SeqSums
  import opened WalletTypes
  import opened SendModel
  import opened TokenFunding
  import opened ChangeShielding
  import opened SendPlan
  import opened SendBalance
  import opened ShieldedCreation
  import opened TransactionAssembly
  import NativeSend
  import Fee

  function DeclaredFee(tx: DataTx): int { if tx.feeHeader.Some? then tx.feeHeader.value else 0 }

  // ----- the guarantees -----

  /** For every token, inputs equal transparent plus shielded outputs, plus the fee when it is HTR. */
  ghost predicate Conserved(tx: DataTx) {
    forall t: Uid :: ConservedFor(tx, t)
  }

  ghost predicate ConservedFor(tx: DataTx, t: Uid) {
    Sum(tx.inputs, ValueIn(t))
    == Sum(tx.outputs, ValueOut(t)) + Sum(tx.shieldedOutputs, ValueShielded(t)) + if t == HTR then DeclaredFee(tx) else 0
  }

  /** The declared fee is `Fee.calculate` of the final lists plus the fee of each shielded output;
      there is a fee header exactly when something is due. */
  ghost predicate FeeExact(s: WalletStorage, tx: DataTx) {
    var transparent := Fee.FeeResult(tx.inputs, tx.outputs, s.tokens, []);
    && transparent.Ok?
    && DeclaredFee(tx) == transparent.value + Sum(tx.shieldedOutputs, ShieldedFee())
    && (tx.feeHeader.Some? ==> tx.feeHeader.value > 0)
  }

  /** What an output shows of the definition it was made from. */
  datatype Face = Face(address: string, value: int, token: Uid, scanPubkey: string, mode: Mode)

  function DefFace(): Def -> Face { (d: Def) => Face(d.address, d.value, d.token, d.scanPubkey, d.mode) }

  function OutputFace(): ShieldedOutput -> Face {
    (o: ShieldedOutput) => Face(o.address, o.value, o.token, o.scanPubkey, o.mode)
  }

  /** Every requested transparent output is there, and the rest is change to the wallet. */
  ghost predicate TransparentAsRequested(s: WalletStorage, q: Request, tx: DataTx) {
    exists change: seq<DataOutput> ::
      && multiset(tx.outputs) == multiset(ExplicitOuts(q)) + multiset(change)
      && ChangeGoesHome(s, q.changeAddress, change)
      && (forall o :: o in change ==> IsChangeOf(o, o.token))
  }

  /** Every requested shielded output is there; the rest is positive shielded change, only with the opt-in. */
  ghost predicate ShieldedAsRequested(q: Request, tx: DataTx) {
    exists defs: seq<Def> ::
      && multiset(Map(tx.shieldedOutputs, OutputFace())) == multiset(Map(defs, DefFace()))
      && (if CustomShielded(q) then OnlyPositiveChangeAdded(q, defs) else defs == RequestedDefs(q.outputs, q.net))
  }

  predicate ShieldedCountAllowed(tx: DataTx) {
    |tx.shieldedOutputs| == 0 || 2 <= |tx.shieldedOutputs| <= MAX_SHIELDED_OUTPUTS
  }

  /** With explicit shielded outputs and the opt-in, no transparent output is change. */
  ghost predicate ChangeHidden(q: Request, tx: DataTx) {
    CustomShielded(q) ==> forall o :: o in tx.outputs ==> !o.isChange
  }

  /** The public token list: each custom token a transparent or amount-shielded output names, once. */
  ghost predicate TokensExact(tx: DataTx) {
    && Distinct(tx.tokens)
    && (forall t: Uid :: t in tx.tokens <==> t != HTR && Visible(tx.outputs, tx.shieldedOutputs, t))
  }

  /** The caller's inputs come first, each checked; the wallet adds unmarked funds of its own, and
      only of tokens the caller brought none of. */
  ghost predicate InputsAllowed(s: WalletStorage, q: Request, tx: DataTx) {
    exists caller: seq<DataInput>, added: seq<DataInput> ::
      && tx.inputs == caller + added
      && ResolvedInputs(s, q.inputs, caller)
      && (forall i :: i in caller ==> UnspentAndMine(s, i, i.token) && CanUse(s, i.id))
      && (forall i :: i in added ==> FromStore(s, i.token, i) && !BroughtToken(caller, i.token))
  }

  ghost predicate ShieldedGenuine(s: WalletStorage, q: Request, tx: DataTx) {
    forall o :: o in tx.shieldedOutputs ==> Genuine(s, q.net, tx.inputs, o)
  }

  /** Shielded outputs balance the shielded inputs' blinding factors. */
  ghost predicate BlindingBalanced(s: WalletStorage, tx: DataTx) {
    tx.shieldedOutputs != [] ==>
      && s.provider.Some? && s.provider.value.order > 0
      && Congruent(Sum(Map(tx.shieldedOutputs, EntryOf()), Term()), Sum(Blinded(s, tx.inputs), Term()), s.provider.value.order)
  }

  /** An excess factor is there exactly when shielded inputs meet no shielded output, and it is the
      provider's answer for all entries of the transaction. */
  ghost predicate ExcessExact(s: WalletStorage, tx: DataTx) {
    var ins, outs := Blinded(s, tx.inputs) + Transparent(s, tx.inputs), OutputEntries(tx.outputs, DeclaredFee(tx));
    && (tx.excess.Some? <==> tx.shieldedOutputs == [] && Blinded(s, tx.inputs) != [])
    && (tx.excess.Some? ==>
          && s.provider.Some? && s.provider.value.order > 0
          && tx.excess.value == s.provider.value.balancing(0, 0, ins, outs)
          && ExcessCloses(s.provider.value, tx.excess.value, ins, outs))
  }

  /** What the provider requires of that call: the values of the two sides are equal. */
  ghost predicate ExcessPreconditionMet(s: WalletStorage, tx: DataTx) {
    tx.excess.Some? ==>
      Sum(Blinded(s, tx.inputs) + Transparent(s, tx.inputs), EntryValue()) == Sum(OutputEntries(tx.outputs, DeclaredFee(tx)), EntryValue())
  }

  // ----- from the plan to the data -----

  ghost predicate SameParts(q: Request, p: Plan, tx: DataTx) {
    && tx.inputs == PlanInputs(p)
    && multiset(tx.outputs) == multiset(PlanOutputs(q, p))
    && tx.feeHeader == (if TotalFee(p) > 0 then Some(TotalFee(p)) else None)
  }

  ghost predicate ShieldedFrom(s: WalletStorage, defs: seq<Def>, shuffled: seq<Def>, blinded: seq<Entry>, outs: seq<ShieldedOutput>) {
    && multiset(shuffled) == multiset(defs)
    && |outs| == |defs|
    && (defs != [] ==>
          && 2 <= |defs| <= MAX_SHIELDED_OUTPUTS
          && s.provider.Some? && s.provider.value.order > 0
          && Batch(outs, shuffled, blinded, s.provider.value.order))
  }

  /** Sums over the shielded outputs are sums over their definitions. */
  lemma ShieldedSums(s: WalletStorage, defs: seq<Def>, shuffled: seq<Def>, blinded: seq<Entry>, outs: seq<ShieldedOutput>)
    requires ShieldedFrom(s, defs, shuffled, blinded, outs)
    ensures forall t: Uid :: Sum(outs, ValueShielded(t)) == Sum(defs, ValueDef(t))
    ensures Sum(outs, ShieldedFee()) == Sum(defs, DefFee())
    ensures multiset(Map(outs, OutputFace())) == multiset(Map(defs, DefFace()))
  {
    assert |multiset(shuffled)| == |multiset(defs)|;
    forall t: Uid ensures Sum(outs, ValueShielded(t)) == Sum(defs, ValueDef(t)) {
      SumPointwise(outs, shuffled, ValueShielded(t), ValueDef(t));
      SumPermutation(shuffled, defs, ValueDef(t));
    }
    SumPointwise(outs, shuffled, ShieldedFee(), DefFee());
    SumPermutation(shuffled, defs, DefFee());
    MapPermutation(shuffled, defs, DefFace());
    assert Map(outs, OutputFace()) == Map(shuffled, DefFace());
  }

  lemma DeclaredIsTotal(q: Request, p: Plan, tx: DataTx)
    requires SameParts(q, p, tx) && p.fee >= 0 && TotalFee(p) == p.fee + Sum(p.defs, DefFee())
    ensures DeclaredFee(tx) == TotalFee(p)
  {
    SumNonNegative(p.defs, DefFee());
  }

  lemma ProveConserved(s: WalletStorage, q: Request, p: Plan, pulled: seq<Utxo>, shuffled: seq<Def>, tx: DataTx)
    requires Planned(s, q, p, pulled) && SameParts(q, p, tx)
    requires ShieldedFrom(s, p.defs, shuffled, Blinded(s, tx.inputs), tx.shieldedOutputs)
    ensures Conserved(tx)
  {
    PlanFeeIsExact(s, q, p, pulled, tx.outputs);
    DeclaredIsTotal(q, p, tx);
    ShieldedSums(s, p.defs, shuffled, Blinded(s, tx.inputs), tx.shieldedOutputs);
    forall t: Uid ensures ConservedFor(tx, t) {
      PlanConserves(s, q, p, pulled, t);
      SumPermutation(tx.outputs, PlanOutputs(q, p), ValueOut(t));
    }
  }

  lemma ProveFeeExact(s: WalletStorage, q: Request, p: Plan, pulled: seq<Utxo>, shuffled: seq<Def>, tx: DataTx)
    requires Planned(s, q, p, pulled) && SameParts(q, p, tx)
    requires ShieldedFrom(s, p.defs, shuffled, Blinded(s, tx.inputs), tx.shieldedOutputs)
    ensures FeeExact(s, tx)
  {
    PlanFeeIsExact(s, q, p, pulled, tx.outputs);
    DeclaredIsTotal(q, p, tx);
    ShieldedSums(s, p.defs, shuffled, Blinded(s, tx.inputs), tx.shieldedOutputs);
  }

  lemma PlanChange(s: WalletStorage, q: Request, p: Plan, pulled: seq<Utxo>)
    requires Planned(s, q, p, pulled)
    ensures ChangeGoesHome(s, q.changeAddress, p.kept + p.htrFinal.outputs)
    ensures forall o :: o in p.kept + p.htrFinal.outputs ==> IsChangeOf(o, o.token) && (o.token == HTR || o.token in p.tokens.order)
  {
    FinalHtrOnly(s, q, p, pulled);
    KeptFromCustom(q, p.custom, p.kept, p.customDefs);
    HtrFinalFromHtr(s, q, p, pulled);
  }

  lemma HtrFinalFromHtr(s: WalletStorage, q: Request, p: Plan, pulled: seq<Utxo>)
    requires HtrStage(s, q, p, pulled)
    ensures forall o :: o in p.htrFinal.outputs ==> o in p.htr.outputs
  {
  }

  lemma ProveTransparent(s: WalletStorage, q: Request, p: Plan, pulled: seq<Utxo>, tx: DataTx)
    requires Planned(s, q, p, pulled) && SameParts(q, p, tx)
    ensures TransparentAsRequested(s, q, tx)
  {
    PlanChange(s, q, p, pulled);
    TransparentSplit(s, q, p.kept + p.htrFinal.outputs, p, tx);
  }

  lemma TransparentSplit(s: WalletStorage, q: Request, change: seq<DataOutput>, p: Plan, tx: DataTx)
    requires change == p.kept + p.htrFinal.outputs && multiset(tx.outputs) == multiset(PlanOutputs(q, p))
    requires ChangeGoesHome(s, q.changeAddress, change) && forall o :: o in change ==> IsChangeOf(o, o.token)
    ensures TransparentAsRequested(s, q, tx)
  {
    assert PlanOutputs(q, p) == ExplicitOuts(q) + change;
    assert multiset(tx.outputs) == multiset(ExplicitOuts(q)) + multiset(change);
  }

  lemma ProveShielded(s: WalletStorage, q: Request, p: Plan, pulled: seq<Utxo>, shuffled: seq<Def>, tx: DataTx)
    requires Planned(s, q, p, pulled)
    requires ShieldedFrom(s, p.defs, shuffled, Blinded(s, tx.inputs), tx.shieldedOutputs)
    ensures ShieldedAsRequested(q, tx) && ShieldedCountAllowed(tx) && BlindingBalanced(s, tx)
  {
    ShieldedSums(s, p.defs, shuffled, Blinded(s, tx.inputs), tx.shieldedOutputs);
    if CustomShielded(q) {
      OptInLeavesNoTransparentChange(s, q, p, pulled);
    } else {
      WithoutOptInNothingIsConverted(s, q, p, pulled);
    }
  }

  lemma ProveChangeHidden(s: WalletStorage, q: Request, p: Plan, pulled: seq<Utxo>, tx: DataTx)
    requires Planned(s, q, p, pulled) && SameParts(q, p, tx)
    ensures ChangeHidden(q, tx)
  {
    if CustomShielded(q) {
      OptInLeavesNoTransparentChange(s, q, p, pulled);
      forall o | o in tx.outputs ensures !o.isChange {
        assert o in multiset(tx.outputs);
        assert o in multiset(PlanOutputs(q, p));
      }
    }
  }

  // ----- the token list -----

  lemma RequestedTokensListed(s: WalletStorage, q: Request, caller: seq<DataInput>, tokens: TokenMap)
    requires CallerStage(s, q, caller, tokens)
    ensures forall o :: o in ExplicitOuts(q) ==> o.token == HTR || o.token in tokens.order
    ensures forall d :: d in RequestedDefs(q.outputs, q.net) ==> d.token == HTR || d.token in tokens.order
  {
    forall o | o in ExplicitOuts(q) ensures o.token == HTR || o.token in tokens.order {
      var k :| 0 <= k < |ExplicitOuts(q)| && ExplicitOuts(q)[k] == o;
      assert ExplicitSlots(q)[k] in RequestedSlots(q.outputs, q.net);
      var j :| 0 <= j < |q.outputs| && RequestedSlots(q.outputs, q.net)[j] == ExplicitSlots(q)[k];
      assert TokenOf(q.outputs[j]) == o.token;
    }
    DefsHaveRequestedTokens(q.outputs, q.net);
  }

  lemma {:induction false} DefsHaveRequestedTokens(outputs: seq<SendOutput>, net: Network)
    ensures forall d :: d in RequestedDefs(outputs, net) ==> Names(outputs, d.token)
  {
    if outputs != [] {
      var n := |outputs| - 1;
      DefsHaveRequestedTokens(outputs[..n], net);
      forall d | d in RequestedDefs(outputs, net) ensures Names(outputs, d.token) {
        if d in RequestedDefs(outputs[..n], net) {
          var k :| 0 <= k < n && TokenOf(outputs[..n][k]) == d.token;
          assert TokenOf(outputs[k]) == d.token;
        } else {
          assert TokenOf(outputs[n]) == d.token;
        }
      }
    }
  }

  lemma CustomDefsListed(s: WalletStorage, q: Request, m: TokenMap, custom: Funding, kept: seq<DataOutput>, defs: seq<Def>)
    requires CustomStage(q, custom, kept, defs) && AddsOnly(s, m, m.order, custom)
    requires forall d :: d in RequestedDefs(q.outputs, q.net) ==> d.token == HTR || d.token in m.order
    ensures forall d :: d in defs ==> d.token == HTR || d.token in m.order
  {
    if CustomShielded(q) {
      var converted := Filter(custom.outputs, IsCustomChange());
      var more := Map(converted, ChangeToDef(q.net, q.wallet.value.shieldedAddress, q.changeMode.value));
      forall d | d in more ensures d.token in m.order {
        var k :| 0 <= k < |more| && more[k] == d;
        assert converted[k] in converted;
      }
    }
  }

  lemma FinalDefsListed(s: WalletStorage, q: Request, p: Plan, pulled: seq<Utxo>)
    requires HtrStage(s, q, p, pulled)
    requires forall d :: d in p.customDefs ==> d.token == HTR || d.token in p.tokens.order
    ensures forall d :: d in p.defs ==> d.token == HTR || d.token in p.tokens.order
  {
  }

  /** Every token an output names was requested, or is HTR. */
  lemma OutputTokensListed(s: WalletStorage, q: Request, p: Plan, pulled: seq<Utxo>)
    requires Planned(s, q, p, pulled)
    ensures forall o :: o in PlanOutputs(q, p) ==> o.token == HTR || o.token in p.tokens.order
    ensures forall d :: d in p.defs ==> d.token == HTR || d.token in p.tokens.order
  {
    RequestedTokensListed(s, q, p.caller, p.tokens);
    PlanChange(s, q, p, pulled);
    DefTokensListed(s, q, p, pulled);
    InPlanOutputs(q, p);
  }

  lemma DefTokensListed(s: WalletStorage, q: Request, p: Plan, pulled: seq<Utxo>)
    requires Planned(s, q, p, pulled)
    requires forall d :: d in RequestedDefs(q.outputs, q.net) ==> d.token == HTR || d.token in p.tokens.order
    ensures forall d :: d in p.defs ==> d.token == HTR || d.token in p.tokens.order
  {
    CustomDefsListed(s, q, p.tokens, p.custom, p.kept, p.customDefs);
    FinalDefsListed(s, q, p, pulled);
  }

  lemma InPlanOutputs(q: Request, p: Plan)
    ensures forall o :: o in PlanOutputs(q, p) ==> o in ExplicitOuts(q) || o in p.kept + p.htrFinal.outputs
  {
    assert PlanOutputs(q, p) == ExplicitOuts(q) + (p.kept + p.htrFinal.outputs);
  }

  lemma ProveTokens(s: WalletStorage, q: Request, p: Plan, pulled: seq<Utxo>, shuffled: seq<Def>, tx: DataTx)
    requires Planned(s, q, p, pulled) && SameParts(q, p, tx)
    requires ShieldedFrom(s, p.defs, shuffled, Blinded(s, tx.inputs), tx.shieldedOutputs)
    requires Distinct(tx.tokens)
    requires forall t :: t in tx.tokens <==> t in p.tokens.order && Visible(tx.outputs, tx.shieldedOutputs, t)
    ensures TokensExact(tx)
  {
    OutputTokensListed(s, q, p, pulled);
    VisibleIsListed(s, q, p, shuffled, tx);
    assert HTR !in p.tokens.order;
  }

  lemma VisibleIsListed(s: WalletStorage, q: Request, p: Plan, shuffled: seq<Def>, tx: DataTx)
    requires multiset(tx.outputs) == multiset(PlanOutputs(q, p))
    requires ShieldedFrom(s, p.defs, shuffled, Blinded(s, tx.inputs), tx.shieldedOutputs)
    requires forall o :: o in PlanOutputs(q, p) ==> o.token == HTR || o.token in p.tokens.order
    requires forall d :: d in p.defs ==> d.token == HTR || d.token in p.tokens.order
    ensures forall t: Uid :: t != HTR && Visible(tx.outputs, tx.shieldedOutputs, t) ==> t in p.tokens.order
  {
    forall o | o in tx.outputs ensures o.token == HTR || o.token in p.tokens.order {
      assert o in multiset(tx.outputs);
      assert o in multiset(PlanOutputs(q, p));
    }
    forall k | 0 <= k < |tx.shieldedOutputs| ensures tx.shieldedOutputs[k].token == HTR || tx.shieldedOutputs[k].token in p.tokens.order {
      assert |multiset(shuffled)| == |multiset(p.defs)|;
      assert shuffled[k] in multiset(p.defs);
    }
  }

  // ----- inputs and excess -----

  lemma ProveInputs(s: WalletStorage, q: Request, p: Plan, pulled: seq<Utxo>, tx: DataTx)
    requires Planned(s, q, p, pulled) && tx.inputs == PlanInputs(p)
    ensures InputsAllowed(s, q, tx)
  {
    CallerInputsChecked(s, q, p, pulled);
    WalletAddsOnlyMissingTokens(s, q, p, pulled);
    InputsSplit(s, q, p.caller, p.custom.inputs + p.htrFinal.inputs, p, tx);
  }

  lemma InputsSplit(s: WalletStorage, q: Request, caller: seq<DataInput>, added: seq<DataInput>, p: Plan, tx: DataTx)
    requires caller == p.caller && added == p.custom.inputs + p.htrFinal.inputs && tx.inputs == PlanInputs(p)
    requires ResolvedInputs(s, q.inputs, caller)
    requires forall i :: i in caller ==> UnspentAndMine(s, i, i.token) && CanUse(s, i.id)
    requires forall i :: i in added ==> FromStore(s, i.token, i) && !BroughtToken(caller, i.token)
    ensures InputsAllowed(s, q, tx)
  {
    assert tx.inputs == caller + added;
  }

  /** The amounts a transaction without shielded outputs moves, inputs positive. */
  function InFlow(): DataInput -> Flow { (i: DataInput) => Flow(i.token, i.value) }

  function OutFlow(): DataOutput -> Flow { (o: DataOutput) => Flow(o.token, -o.value) }

  function Flows(tx: DataTx): seq<Flow> {
    Map(tx.inputs, InFlow()) + Map(tx.outputs, OutFlow()) + [Flow(HTR, -DeclaredFee(tx))]
  }

  function Negated<T>(f: T -> int): T -> int { (x: T) => -f(x) }

  lemma {:induction false} SumNegated<T(!new)>(s: seq<T>, f: T -> int)
    ensures Sum(s, Negated(f)) == -Sum(s, f)
  {
    if s != [] {
      SumNegated(s[1..], f);
    }
  }

  lemma FlowSums(tx: DataTx, f: Flow -> int, ins: DataInput -> int, outs: DataOutput -> int)
    requires forall i :: i in tx.inputs ==> f(InFlow()(i)) == ins(i)
    requires forall o :: o in tx.outputs ==> f(OutFlow()(o)) == -outs(o)
    ensures Sum(Flows(tx), f) == Sum(tx.inputs, ins) - Sum(tx.outputs, outs) + f(Flow(HTR, -DeclaredFee(tx)))
  {
    var a, b := Map(tx.inputs, InFlow()), Map(tx.outputs, OutFlow());
    SumPush(a + b, Flow(HTR, -DeclaredFee(tx)), f);
    SumAppend(a, b, f);
    SumPointwise(a, tx.inputs, f, ins);
    SumPointwise(b, tx.outputs, f, Negated(outs));
    SumNegated(tx.outputs, outs);
  }

  /** Balanced in every token means balanced in total. */
  lemma TotalBalances(tx: DataTx)
    requires Conserved(tx) && tx.shieldedOutputs == []
    requires forall o :: o in tx.outputs ==> o.kind != CreateTokenOutput
    ensures Sum(tx.inputs, InputValue()) == Sum(tx.outputs, OutputValue()) + DeclaredFee(tx)
  {
    forall t: Uid ensures Sum(Flows(tx), AmountOf(t)) == 0 {
      FlowSums(tx, AmountOf(t), ValueIn(t), ValueOut(t));
      assert ConservedFor(tx, t);
    }
    TokensCancelMeansTotalCancels(Flows(tx));
    FlowSums(tx, Amount(), InputValue(), OutputValue());
  }

  lemma OutputEntriesValue(outputs: seq<DataOutput>, fee: int)
    requires fee >= 0
    ensures Sum(OutputEntries(outputs, fee), EntryValue()) == Sum(outputs, OutputValue()) + fee
  {
    var es := Map(outputs, OpenEntry());
    SumPointwise(es, outputs, EntryValue(), OutputValue());
    SumPush(es, Entry(fee, 0, 0), EntryValue());
    assert es + [] == es;
  }

  lemma OutputKinds(s: WalletStorage, q: Request, p: Plan, pulled: seq<Utxo>, tx: DataTx)
    requires Planned(s, q, p, pulled) && SameParts(q, p, tx)
    ensures forall o :: o in tx.outputs ==> o.kind != CreateTokenOutput && o.authorities == 0
  {
    ExplicitIsNoChange(q);
    PlanChange(s, q, p, pulled);
    InPlanOutputs(q, p);
    SameElements(tx.outputs, PlanOutputs(q, p));
  }

  lemma SameElements(a: seq<DataOutput>, b: seq<DataOutput>)
    requires multiset(a) == multiset(b)
    ensures forall o :: o in a ==> o in b
  {
    forall o | o in a ensures o in b {
      assert o in multiset(a);
    }
  }

  /** The full-unshield call always meets what the provider requires of it. */
  lemma ProveExcessPrecondition(s: WalletStorage, q: Request, p: Plan, pulled: seq<Utxo>, tx: DataTx)
    requires Planned(s, q, p, pulled) && SameParts(q, p, tx) && StoreMirrorsHistory(s)
    requires Conserved(tx) && FeeExact(s, tx) && ExcessExact(s, tx)
    ensures ExcessPreconditionMet(s, tx)
  {
    if tx.excess.Some? {
      PlanIsCovered(s, q, p, pulled);
      OutputKinds(s, q, p, pulled, tx);
      ExcessTotals(s, tx);
    }
  }

  lemma ExcessTotals(s: WalletStorage, tx: DataTx)
    requires Conserved(tx) && tx.shieldedOutputs == [] && DeclaredFee(tx) >= 0
    requires forall i :: i in tx.inputs ==> Covered(s, i)
    requires forall o :: o in tx.outputs ==> o.kind != CreateTokenOutput
    ensures Sum(Blinded(s, tx.inputs) + Transparent(s, tx.inputs), EntryValue()) == Sum(OutputEntries(tx.outputs, DeclaredFee(tx)), EntryValue())
  {
    TotalBalances(tx);
    EntriesCarryAllValue(s, tx.inputs);
    SumAppend(Blinded(s, tx.inputs), Transparent(s, tx.inputs), EntryValue());
    OutputEntriesValue(tx.outputs, DeclaredFee(tx));
  }

  // ----- the operation -----

  ghost predicate TokensFrom(order: seq<Uid>, tx: DataTx) {
    && Distinct(tx.tokens)
    && (forall t :: t in tx.tokens <==> t in order && Visible(tx.outputs, tx.shieldedOutputs, t))
  }

  /** Every failure has its cause in the request, in the funds, or in the assembly of a funded plan. */
  ghost predicate PreparationRefused(s: WalletStorage, q: Request, e: SendError) {
    || PlanRefused(s, q, e)
    || (exists p, pulled :: Planned(s, q, p, pulled) && AssemblyRefused(s, q, p, e))
  }

  /** `prepareTxData` from the final fee on. */
  method Assemble(s: WalletStorage, q: Request, p: Plan, drawOutputs: nat -> nat, drawShielded: nat -> nat)
    returns (r: Result<DataTx, SendError>, ghost shuffled: seq<Def>)
    requires s.provider.Some? ==> Honest(s.provider.value)
    requires TotalFee(p) >= 0 && Distinct(p.tokens.order)
    ensures r.Ok? ==> SameParts(q, p, r.value)
    ensures r.Ok? ==> ShieldedFrom(s, p.defs, shuffled, Blinded(s, r.value.inputs), r.value.shieldedOutputs)
    ensures r.Ok? ==> ExcessExact(s, r.value) && TokensFrom(p.tokens.order, r.value) && ShieldedGenuine(s, q, r.value)
    ensures r.Err? ==> AssemblyRefused(s, q, p, r.error)
  {
    shuffled := p.defs;
    var totalFee := TotalFee(p);
    var feeHeader := if totalFee > 0 then Some(totalFee) else None;
    var outputs := FinalOutputs(q, p, drawOutputs);
    var allInputs := PlanInputs(p);
    var entries := CollectEntries(s, allInputs);
    if entries.Err? {
      return Err(entries.error), shuffled;
    }
    var (generators, blinded, transparent) := entries.value;
    var created;
    created, shuffled := CreateOutputs(s, q.net, p.defs, generators, blinded, drawShielded, allInputs);
    if created.Err? {
      return Err(created.error), shuffled;
    }
    var excess := ComputeExcess(s, outputs, totalFee, |created.value|, blinded, transparent);
    if excess.Err? {
      return Err(excess.error), shuffled;
    }
    var tokens := VisibleTokens(p.tokens.order, outputs, created.value);
    r := Ok(DataTx(allInputs, outputs, tokens, feeHeader, created.value, excess.value));
  }

  /** Payments go to transparent addresses, shielded ones to shielded addresses in one of the two modes. */
  ghost predicate RequestsValid(q: Request) {
    forall o :: o in q.outputs ==>
      && (o.TokenSend? ==> q.net.kind(o.address) in {P2PKH, P2SH})
      && (o.ShieldedSend? ==>
            o.shieldedMode in {1, 2} && q.net.kind(o.address) == Shielded && q.net.kind(q.net.spendAddress(o.address)) in {P2PKH, P2SH})
  }

  lemma AcceptedIsValid(q: Request)
    ensures (forall k :: 0 <= k < |q.outputs| ==> OutputAccepted(q.outputs[k], q.net)) <==> RequestsValid(q)
  {
    forall k | 0 <= k < |q.outputs| && RequestsValid(q) ensures OutputAccepted(q.outputs[k], q.net) {
      assert q.outputs[k] in q.outputs;
    }
  }

  /** Everything promised about the prepared data, whatever the store holds. */
  ghost predicate Delivered(s: WalletStorage, q: Request, tx: DataTx) {
    && RequestsValid(q)
    && Conserved(tx)
    && FeeExact(s, tx)
    && TransparentAsRequested(s, q, tx)
    && ShieldedAsRequested(q, tx)
    && ShieldedCountAllowed(tx)
    && ChangeHidden(q, tx)
    && TokensExact(tx)
    && InputsAllowed(s, q, tx)
    && ShieldedGenuine(s, q, tx)
    && BlindingBalanced(s, tx)
    && ExcessExact(s, tx)
  }

  lemma ProveDelivered(s: WalletStorage, q: Request, p: Plan, pulled: seq<Utxo>, shuffled: seq<Def>, tx: DataTx)
    requires Planned(s, q, p, pulled) && SameParts(q, p, tx)
    requires ShieldedFrom(s, p.defs, shuffled, Blinded(s, tx.inputs), tx.shieldedOutputs)
    requires ExcessExact(s, tx) && TokensFrom(p.tokens.order, tx) && ShieldedGenuine(s, q, tx)
    ensures Delivered(s, q, tx)
  {
    ProveConserved(s, q, p, pulled, shuffled, tx);
    ProveFeeExact(s, q, p, pulled, shuffled, tx);
    ProveTransparent(s, q, p, pulled, tx);
    ProveShielded(s, q, p, pulled, shuffled, tx);
    ProveChangeHidden(s, q, p, pulled, tx);
    ProveTokens(s, q, p, pulled, shuffled, tx);
    ProveInputs(s, q, p, pulled, tx);
    AcceptedIsValid(q);
  }

  lemma PlanBounds(s: WalletStorage, q: Request, p: Plan, pulled: seq<Utxo>)
    requires Planned(s, q, p, pulled)
    ensures TotalFee(p) >= 0 && Distinct(p.tokens.order)
  {
    SumNonNegative(p.customDefs, DefFee());
  }

  class SendTransaction {
    const storage: Option<WalletStorage>
    const request: Request
    var fullTxData: Option<DataTx>

    constructor (storage: Option<WalletStorage>, request: Request)
      ensures this.storage == storage && this.request == request && fullTxData == None
    {
      this.storage, this.request, fullTxData := storage, request, None;
    }

    /** `prepareTxData`. Funding, fee, privacy and token list are guaranteed on every success; given
        distinct caller inputs and a store that mirrors the history, no outpoint is spent twice and
        the excess call meets its precondition. A failure leaves the object as it was. */
    method PrepareTxData(drawOutputs: nat -> nat, drawShielded: nat -> nat) returns (r: Result<DataTx, SendError>)
      requires storage.Some? && storage.value.provider.Some? ==> Honest(storage.value.provider.value)
      modifies this`fullTxData
      ensures storage.None? ==> r == Err(StorageNotSet)
      ensures r.Ok? ==> fullTxData == Some(r.value) && Delivered(storage.value, request, r.value)
      ensures r.Ok? && StoreMirrorsHistory(storage.value) ==> ExcessPreconditionMet(storage.value, r.value)
      ensures r.Ok? && StoreMirrorsHistory(storage.value) && Distinct(request.inputs) ==> Distinct(Map(r.value.inputs, InputIdOf()))
      ensures r.Err? ==> fullTxData == old(fullTxData) && (storage.Some? ==> PreparationRefused(storage.value, request, r.error))
      ensures storage.Some? && NativeSend.IsNativeSend(storage.value, request) ==>
        (r.Ok? <==> NativeSend.AvailableHtr(storage.value) >= NativeSend.Requested(request))
    {
      if storage.None? {
        return Err(StorageNotSet);
      }
      r := Prepare(storage.value, request, drawOutputs, drawShielded);
      if r.Ok? {
        fullTxData := Some(r.value);
      }
    }
  }

  method Prepare(s: WalletStorage, q: Request, drawOutputs: nat -> nat, drawShielded: nat -> nat) returns (r: Result<DataTx, SendError>)
    requires s.provider.Some? ==> Honest(s.provider.value)
    ensures r.Ok? ==> Delivered(s, q, r.value)
    ensures r.Ok? && StoreMirrorsHistory(s) ==> ExcessPreconditionMet(s, r.value)
    ensures r.Ok? && StoreMirrorsHistory(s) && Distinct(q.inputs) ==> Distinct(Map(r.value.inputs, InputIdOf()))
    ensures r.Err? ==> PreparationRefused(s, q, r.error)
    ensures NativeSend.IsNativeSend(s, q) ==> (r.Ok? <==> NativeSend.AvailableHtr(s) >= NativeSend.Requested(q))
  {
    var plan, pulled := PlanSend(s, q);
    if plan.Err? {
      return Err(plan.error);
    }
    PlanBounds(s, q, plan.value, pulled);
    ghost var shuffled;
    r, shuffled := Assemble(s, q, plan.value, drawOutputs, drawShielded);
    if r.Err? {
      AssemblyFails(s, q, plan.value, pulled, r.error);
    } else {
      Conclude(s, q, plan.value, pulled, shuffled, r.value);
    }
  }

  /** The planning half, which a covered native send passes. */
  method PlanSend(s: WalletStorage, q: Request) returns (r: Result<Plan, SendError>, ghost pulled: seq<Utxo>)
    ensures r.Ok? ==> Planned(s, q, r.value, pulled)
    ensures r.Err? ==> PreparationRefused(s, q, r.error)
    ensures NativeSend.IsNativeSend(s, q) ==> (r.Ok? <==> NativeSend.AvailableHtr(s) >= NativeSend.Requested(q))
  {
    r, pulled := MakePlan(s, q);
    if r.Err? {
      NativeDecided(s, q, r.error);
    } else {
      NativePlanned(s, q, r.value, pulled);
    }
  }

  lemma NativeDecided(s: WalletStorage, q: Request, e: SendError)
    requires PlanRefused(s, q, e)
    ensures NativeSend.IsNativeSend(s, q) ==> NativeSend.AvailableHtr(s) < NativeSend.Requested(q)
  {
    if NativeSend.IsNativeSend(s, q) && NativeSend.AvailableHtr(s) >= NativeSend.Requested(q) {
      NativeSend.PlanNotRefused(s, q, e);
      assert false;
    }
  }

  lemma NativePlanned(s: WalletStorage, q: Request, p: Plan, pulled: seq<Utxo>)
    requires Planned(s, q, p, pulled)
    ensures NativeSend.IsNativeSend(s, q) ==> NativeSend.AvailableHtr(s) >= NativeSend.Requested(q)
  {
    if NativeSend.IsNativeSend(s, q) {
      NativeSend.PlannedWasCovered(s, q, p, pulled);
    }
  }

  lemma AssemblyFails(s: WalletStorage, q: Request, p: Plan, pulled: seq<Utxo>, e: SendError)
    requires Planned(s, q, p, pulled) && AssemblyRefused(s, q, p, e)
    ensures PreparationRefused(s, q, e) && !NativeSend.IsNativeSend(s, q)
  {
    NativeAssembled(s, q, p, pulled, e);
  }

  lemma NativeAssembled(s: WalletStorage, q: Request, p: Plan, pulled: seq<Utxo>, e: SendError)
    requires Planned(s, q, p, pulled) && AssemblyRefused(s, q, p, e)
    ensures !NativeSend.IsNativeSend(s, q)
  {
    if NativeSend.IsNativeSend(s, q) {
      NativeSend.AssemblyNotRefused(s, q, p, pulled, e);
      assert false;
    }
  }

  lemma Conclude(s: WalletStorage, q: Request, p: Plan, pulled: seq<Utxo>, shuffled: seq<Def>, tx: DataTx)
    requires Planned(s, q, p, pulled) && SameParts(q, p, tx)
    requires ShieldedFrom(s, p.defs, shuffled, Blinded(s, tx.inputs), tx.shieldedOutputs)
    requires ExcessExact(s, tx) && TokensFrom(p.tokens.order, tx) && ShieldedGenuine(s, q, tx)
    ensures Delivered(s, q, tx)
    ensures StoreMirrorsHistory(s) ==> ExcessPreconditionMet(s, tx)
    ensures StoreMirrorsHistory(s) && Distinct(q.inputs) ==> Distinct(Map(tx.inputs, InputIdOf()))
  {
    ProveDelivered(s, q, p, pulled, shuffled, tx);
    if StoreMirrorsHistory(s) {
      ProveExcessPrecondition(s, q, p, pulled, tx);
      if Distinct(q.inputs) {
        NoOutpointTwice(s, q, p, pulled);
      }
    }
  }
}
