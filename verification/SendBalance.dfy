/** What a `Plan` of src/new/sendTransaction.ts guarantees: token-wise conservation, the exact fee,
    all-or-nothing shielding of change, and no outpoint spent twice. */
module SendBalance {
  import opened Wrappers
  import opened SeqSums
  import opened WalletTypes
  import opened UtxoStore
  import opened SendModel
  import opened TokenFunding
  import opened ChangeShielding
  import opened SendPlan
  import Fee

  // ----- conservation -----

  /** Phantoms stand in exactly for the shielded outputs. */
  lemma RequestedSplit(q: Request, t: Uid)
    ensures Sum(RequestedOuts(q), ValueOut(t))
         == Sum(ExplicitOuts(q), ValueOut(t)) + Sum(RequestedDefs(q.outputs, q.net), ValueDef(t))
  {
    PhantomsMatchDefs(q.outputs, q.net, t);
    SlotValues(RequestedSlots(q.outputs, q.net), t);
    SlotValues(ExplicitSlots(q), t);
  }

  lemma ChangeHasToken(s: WalletStorage, m: TokenMap, done: seq<Uid>, f: Funding, t: Uid)
    requires AddsOnly(s, m, done, f) && t !in done
    ensures Sum(f.inputs, ValueIn(t)) == 0 && Sum(f.outputs, ValueOut(t)) == 0
  {
    SumZero(f.inputs, ValueIn(t));
    SumZero(f.outputs, ValueOut(t));
  }

  lemma RequestedToken(q: Request, t: Uid)
    requires forall k :: 0 <= k < |q.outputs| ==> TokenOf(q.outputs[k]) != t
    ensures Sum(RequestedOuts(q), ValueOut(t)) == 0
  {
    forall o | o in RequestedOuts(q) ensures ValueOut(t)(o) == 0 {
      var k :| 0 <= k < |q.outputs| && RequestedOuts(q)[k] == o;
      assert o == RequestedOutput(q.outputs[k], q.net);
    }
    SumZero(RequestedOuts(q), ValueOut(t));
  }

  /** The custom tokens balance against the requested outputs, whether listed or absent. */
  lemma CustomBalances(s: WalletStorage, q: Request, caller: seq<DataInput>, tokens: TokenMap, custom: Funding, t: Uid)
    requires CallerStage(s, q, caller, tokens) && t != HTR
    requires ManyFunded(s, RequestedOuts(q), caller, tokens, tokens.order, custom)
    ensures Balances(RequestedOuts(q), caller, t, custom)
  {
    if t !in tokens.order {
      ChangeHasToken(s, tokens, tokens.order, custom, t);
      SumZero(caller, ValueIn(t));
      RequestedToken(q, t);
    }
  }

  /** Rewriting custom change as shielded outputs moves value without changing it. */
  lemma CustomStageKeepsValue(s: WalletStorage, q: Request, m: TokenMap, custom: Funding, kept: seq<DataOutput>, defs: seq<Def>, t: Uid)
    requires CustomStage(q, custom, kept, defs) && AddsOnly(s, m, m.order, custom)
    ensures Sum(custom.outputs, ValueOut(t)) + Sum(RequestedDefs(q.outputs, q.net), ValueDef(t))
         == Sum(kept, ValueOut(t)) + Sum(defs, ValueDef(t))
  {
    if CustomShielded(q) {
      var address, mode := q.wallet.value.shieldedAddress, q.changeMode.value;
      ConversionKeepsValue(custom.outputs, q.net, address, mode, t);
      SumAppend(RequestedDefs(q.outputs, q.net),
                Map(Filter(custom.outputs, IsCustomChange()), ChangeToDef(q.net, address, mode)), ValueDef(t));
    }
  }

  lemma KeptFromCustom(q: Request, custom: Funding, kept: seq<DataOutput>, defs: seq<Def>)
    requires CustomStage(q, custom, kept, defs)
    ensures forall o :: o in kept ==> o in custom.outputs
  {
  }

  /** HTR funded: with what the caller brought or what the wallet chose, never both. */
  lemma HtrBalances(s: WalletStorage, q: Request, caller: seq<DataInput>, tokens: TokenMap, custom: Funding,
                    kept: seq<DataOutput>, fee: int, chooseHtr: bool, htr: Funding)
    requires CallerStage(s, q, caller, tokens) && AddsOnly(s, tokens, tokens.order, custom)
    requires HtrFunded(s, q, caller, custom, kept, fee, chooseHtr, htr)
    requires forall o :: o in kept ==> o in custom.outputs
    ensures Sum(caller, ValueIn(HTR)) + Sum(htr.inputs, ValueIn(HTR))
         == fee + Sum(RequestedOuts(q), ValueOut(HTR)) + Sum(htr.outputs, ValueOut(HTR))
    ensures Sum(custom.inputs, ValueIn(HTR)) == 0
    ensures Sum(kept, ValueOut(HTR)) == 0 && Sum(custom.outputs, ValueOut(HTR)) == 0
  {
    ChangeHasToken(s, tokens, tokens.order, custom, HTR);
    SumZero(kept, ValueOut(HTR));
    SumAppend(RequestedOuts(q), kept, ValueOut(HTR));
    SumAppend(caller, custom.inputs, ValueIn(HTR));
    if chooseHtr {
      forall i | i in caller ensures i.token != HTR {
        assert !BroughtToken(caller, HTR);
      }
      SumZero(caller, ValueIn(HTR));
    }
  }

  lemma HtrOnly(s: WalletStorage, q: Request, caller: seq<DataInput>, custom: Funding, kept: seq<DataOutput>, fee: int,
                chooseHtr: bool, htr: Funding)
    requires HtrFunded(s, q, caller, custom, kept, fee, chooseHtr, htr)
    ensures forall i :: i in htr.inputs ==> i.token == HTR && FromStore(s, HTR, i) && chooseHtr
    ensures forall o :: o in htr.outputs ==> IsChangeOf(o, HTR)
    ensures |htr.outputs| <= 1
    ensures forall t: Uid :: t != HTR ==> Sum(htr.inputs, ValueIn(t)) == 0 && Sum(htr.outputs, ValueOut(t)) == 0
  {
    forall t: Uid | t != HTR ensures Sum(htr.inputs, ValueIn(t)) == 0 && Sum(htr.outputs, ValueOut(t)) == 0 {
      SumZero(htr.inputs, ValueIn(t));
      SumZero(htr.outputs, ValueOut(t));
    }
  }

  /** What the HTR stage did to the sums: nothing for other tokens, an exact exchange for HTR. */
  lemma HtrStageKeepsBalance(s: WalletStorage, q: Request, p: Plan, pulled: seq<Utxo>, t: Uid)
    requires HtrStage(s, q, p, pulled)
    requires forall o :: o in p.htr.outputs ==> IsChangeOf(o, HTR)
    ensures Sum(p.htrFinal.inputs, ValueIn(t)) - Sum(p.htr.inputs, ValueIn(t))
         == Sum(p.htrFinal.outputs, ValueOut(t)) - Sum(p.htr.outputs, ValueOut(t))
          + Sum(p.defs, ValueDef(t)) - Sum(p.customDefs, ValueDef(t)) + if t == HTR then p.addedFee else 0
  {
    if ConversionApplies(p.htr, p.customDefs, q.changeMode, q.wallet) {
      ConvertedKeepsBalance(s, q.net, q.wallet.value, q.changeMode.value, p.chooseHtr, p.caller + p.custom.inputs,
                            p.htr, p.customDefs, p.htrFinal, p.defs, p.addedFee, pulled);
    }
  }

  /** The parts of a plan balance in every token. */
  lemma PlanBalances(s: WalletStorage, q: Request, p: Plan, pulled: seq<Utxo>, t: Uid)
    requires Planned(s, q, p, pulled)
    ensures Sum(p.caller, ValueIn(t)) + Sum(p.custom.inputs, ValueIn(t)) + Sum(p.htrFinal.inputs, ValueIn(t))
         == Sum(ExplicitOuts(q), ValueOut(t)) + Sum(p.kept, ValueOut(t)) + Sum(p.htrFinal.outputs, ValueOut(t))
          + Sum(p.defs, ValueDef(t)) + if t == HTR then TotalFee(p) else 0
  {
    RequestedSplit(q, t);
    CustomStageKeepsValue(s, q, p.tokens, p.custom, p.kept, p.customDefs, t);
    KeptFromCustom(q, p.custom, p.kept, p.customDefs);
    HtrOnly(s, q, p.caller, p.custom, p.kept, p.selectionFee, p.chooseHtr, p.htr);
    HtrStageKeepsBalance(s, q, p, pulled, t);
    if t == HTR {
      HtrBalances(s, q, p.caller, p.tokens, p.custom, p.kept, p.selectionFee, p.chooseHtr, p.htr);
    } else {
      CustomBalances(s, q, p.caller, p.tokens, p.custom, t);
    }
  }

  /** Conservation. For every token, what a plan spends is what its transparent outputs and its
      shielded outputs carry, plus the declared fee when the token is HTR. */
  lemma PlanConserves(s: WalletStorage, q: Request, p: Plan, pulled: seq<Utxo>, t: Uid)
    requires Planned(s, q, p, pulled)
    ensures Sum(PlanInputs(p), ValueIn(t))
         == Sum(PlanOutputs(q, p), ValueOut(t)) + Sum(p.defs, ValueDef(t)) + if t == HTR then TotalFee(p) else 0
  {
    PlanBalances(s, q, p, pulled, t);
    SumOfThree(p.caller, p.custom.inputs, p.htrFinal.inputs, ValueIn(t));
    SumOfThree(ExplicitOuts(q), p.kept, p.htrFinal.outputs, ValueOut(t));
  }

  lemma SumOfThree<T(!new)>(a: seq<T>, b: seq<T>, c: seq<T>, f: T -> int)
    ensures Sum(a + b + c, f) == Sum(a, f) + Sum(b, f) + Sum(c, f)
  {
    SumAppend(a + b, c, f);
    SumAppend(a, b, f);
  }

  // ----- the fee -----

  /** After conversion, the HTR part holds only HTR. */
  lemma FinalHtrOnly(s: WalletStorage, q: Request, p: Plan, pulled: seq<Utxo>)
    requires Planned(s, q, p, pulled)
    ensures forall i :: i in p.htrFinal.inputs ==> i.token == HTR && FromStore(s, HTR, i)
    ensures forall o :: o in p.htrFinal.outputs ==> IsChangeOf(o, HTR)
  {
    HtrOnly(s, q, p.caller, p.custom, p.kept, p.selectionFee, p.chooseHtr, p.htr);
    PulledHtrOnly(s, q, p, pulled);
  }

  lemma PulledHtrOnly(s: WalletStorage, q: Request, p: Plan, pulled: seq<Utxo>)
    requires HtrStage(s, q, p, pulled)
    requires forall i :: i in p.htr.inputs ==> i.token == HTR && FromStore(s, HTR, i)
    requires forall o :: o in p.htr.outputs ==> IsChangeOf(o, HTR)
    ensures forall i :: i in p.htrFinal.inputs ==> i.token == HTR && FromStore(s, HTR, i)
    ensures forall o :: o in p.htrFinal.outputs ==> IsChangeOf(o, HTR)
  {
    if ConversionApplies(p.htr, p.customDefs, q.changeMode, q.wallet) {
      var i := HtrChangeIndex(p.htr.outputs);
      if pulled != [] {
        PulledIsFresh(s, IdsOf(p.caller + p.custom.inputs) + IdsOf(p.htr.inputs), p.addedFee - p.htr.outputs[i].value, pulled);
      }
    }
  }

  /** The declared fee is `Fee.calculate` of the finished transaction plus 1 per amount-shielded and
      2 per fully shielded output of the final list, although it was computed before the HTR inputs
      and outputs were known. */
  lemma PlanFeeIsExact(s: WalletStorage, q: Request, p: Plan, pulled: seq<Utxo>, outputs: seq<DataOutput>)
    requires Planned(s, q, p, pulled) && multiset(outputs) == multiset(PlanOutputs(q, p))
    ensures TotalFee(p) == p.fee + Sum(p.defs, DefFee())
    ensures Fee.FeeResult(PlanInputs(p), outputs, s.tokens, []) == Ok(p.fee)
  {
    TotalFeeIsPlanned(s, q, p, pulled);
    FinalHtrOnly(s, q, p, pulled);
    FeeSurvives(p.caller + p.custom.inputs, p.htrFinal.inputs, ExplicitOuts(q) + p.kept, p.htrFinal.outputs, outputs, s.tokens);
  }

  lemma TotalFeeIsPlanned(s: WalletStorage, q: Request, p: Plan, pulled: seq<Utxo>)
    requires HtrStage(s, q, p, pulled) && p.selectionFee == p.fee + Sum(p.customDefs, DefFee())
    ensures TotalFee(p) == p.fee + Sum(p.defs, DefFee())
  {
    if ConversionApplies(p.htr, p.customDefs, q.changeMode, q.wallet) {
      SumPush(p.customDefs, p.defs[|p.customDefs|], DefFee());
    }
  }

  /** Neither added HTR nor a new order of the outputs changes the fee. */
  lemma FeeSurvives(ins: seq<DataInput>, more: seq<DataInput>, outs: seq<DataOutput>, moreOuts: seq<DataOutput>,
                    outputs: seq<DataOutput>, tokens: map<Uid, Fee.TokenVersion>)
    requires (forall i :: i in more ==> i.token == HTR) && (forall o :: o in moreOuts ==> o.token == HTR)
    requires multiset(outputs) == multiset(outs + moreOuts)
    ensures Fee.FeeResult(ins + more, outputs, tokens, []) == Fee.FeeResult(ins, outs, tokens, [])
  {
    NativeInvisible(ins, more, outs, moreOuts);
    MapPermutation(outs + moreOuts, outputs, Fee.OutputElement());
    Fee.SameCustomFundsPermutation(Map(outs + moreOuts, Fee.OutputElement()), Map(outputs, Fee.OutputElement()));
    Fee.FeeIgnoresNativeFundsAndOrder(Map(ins, Fee.InputElement()), Map(ins + more, Fee.InputElement()),
                                      Map(outs, Fee.OutputElement()), Map(outputs, Fee.OutputElement()), tokens, []);
  }

  lemma NativeInvisible(ins: seq<DataInput>, more: seq<DataInput>, outs: seq<DataOutput>, moreOuts: seq<DataOutput>)
    requires (forall i :: i in more ==> i.token == HTR) && (forall o :: o in moreOuts ==> o.token == HTR)
    ensures Fee.SameCustomFunds(Map(ins, Fee.InputElement()), Map(ins + more, Fee.InputElement()))
    ensures Fee.SameCustomFunds(Map(outs, Fee.OutputElement()), Map(outs + moreOuts, Fee.OutputElement()))
  {
    Fee.SameCustomFundsNative(Map(ins, Fee.InputElement()), Map(more, Fee.InputElement()));
    Fee.SameCustomFundsNative(Map(outs, Fee.OutputElement()), Map(moreOuts, Fee.OutputElement()));
    assert Map(ins + more, Fee.InputElement()) == Map(ins, Fee.InputElement()) + Map(more, Fee.InputElement());
    assert Map(outs + moreOuts, Fee.OutputElement()) == Map(outs, Fee.OutputElement()) + Map(moreOuts, Fee.OutputElement());
  }

  // ----- all-or-nothing change shielding -----

  lemma ExplicitIsNoChange(q: Request)
    ensures forall o :: o in ExplicitOuts(q) ==> !o.isChange && o.authorities == 0 && o.kind != CreateTokenOutput
  {
    forall o | o in ExplicitOuts(q) ensures !o.isChange && o.authorities == 0 && o.kind != CreateTokenOutput {
      var k :| 0 <= k < |ExplicitOuts(q)| && ExplicitOuts(q)[k] == o;
      assert ExplicitSlots(q)[k] in ExplicitSlots(q);
      assert ExplicitSlots(q)[k] in RequestedSlots(q.outputs, q.net);
    }
  }

  /** The shielded change appended to the explicitly requested shielded outputs. */
  ghost predicate OnlyPositiveChangeAdded(q: Request, defs: seq<Def>)
    requires q.wallet.Some? && q.changeMode.Some?
  {
    var requested := RequestedDefs(q.outputs, q.net);
    && requested <= defs
    && (forall k :: |requested| <= k < |defs| ==> IsShieldedChange(q, defs[k]))
  }

  /** A positive amount sent back to the wallet's own shielded address in the requested mode. */
  predicate IsShieldedChange(q: Request, d: Def)
    requires q.wallet.Some? && q.changeMode.Some?
  {
    && d.value > 0 && d.mode == q.changeMode.value
    && d.address == q.net.spendAddress(q.wallet.value.shieldedAddress)
    && d.scanPubkey == q.net.scanPubkey(q.wallet.value.shieldedAddress)
  }

  /** With the opt-in, no custom change is kept and the only HTR change is converted. */
  lemma NoChangeKept(s: WalletStorage, q: Request, m: TokenMap, custom: Funding, kept: seq<DataOutput>, defs: seq<Def>)
    requires CustomShielded(q) && CustomStage(q, custom, kept, defs)
    requires AddsOnly(s, m, m.order, custom) && HTR !in m.order
    ensures kept == []
    ensures OnlyPositiveChangeAdded(q, defs)
  {
    assert forall o :: o in custom.outputs ==> IsChangeOf(o, o.token) && o.token != HTR;
    FilterNone(custom.outputs, IsKept());
    ConvertedAreChange(q, custom, defs);
  }

  lemma HtrChangeConverted(s: WalletStorage, q: Request, p: Plan, pulled: seq<Utxo>)
    requires CustomShielded(q) && HtrStage(s, q, p, pulled) && p.customDefs != []
    requires |p.htr.outputs| <= 1 && forall o :: o in p.htr.outputs ==> IsChangeOf(o, HTR)
    ensures p.htrFinal.outputs == []
    ensures p.customDefs <= p.defs && |p.defs| <= |p.customDefs| + 1
    ensures |p.defs| == |p.customDefs| + 1 ==> IsShieldedChange(q, p.defs[|p.customDefs|])
  {
    if p.htr.outputs != [] {
      assert p.htr.outputs[0] in p.htr.outputs;
      assert HtrChangeIndex(p.htr.outputs) == 0;
    }
  }

  /** Opting in on a send with explicit shielded outputs leaves no transparent change at all, and
      every shielded change value is positive. */
  lemma OptInLeavesNoTransparentChange(s: WalletStorage, q: Request, p: Plan, pulled: seq<Utxo>)
    requires Planned(s, q, p, pulled) && CustomShielded(q)
    ensures forall o :: o in PlanOutputs(q, p) ==> !o.isChange
    ensures OnlyPositiveChangeAdded(q, p.defs)
  {
    ExplicitIsNoChange(q);
    HtrOnly(s, q, p.caller, p.custom, p.kept, p.selectionFee, p.chooseHtr, p.htr);
    NoChangeKept(s, q, p.tokens, p.custom, p.kept, p.customDefs);
    HtrChangeConverted(s, q, p, pulled);
    PrefixAdded(q, p.customDefs, p.defs);
  }

  lemma PrefixAdded(q: Request, before: seq<Def>, after: seq<Def>)
    requires q.wallet.Some? && q.changeMode.Some?
    requires OnlyPositiveChangeAdded(q, before) && before <= after && |after| <= |before| + 1
    requires |after| == |before| + 1 ==> IsShieldedChange(q, after[|before|])
    ensures OnlyPositiveChangeAdded(q, after)
  {
  }

  /** Without the opt-in, without a wallet or on a purely transparent send, nothing is converted. */
  lemma WithoutOptInNothingIsConverted(s: WalletStorage, q: Request, p: Plan, pulled: seq<Utxo>)
    requires Planned(s, q, p, pulled) && !CustomShielded(q)
    ensures p.defs == RequestedDefs(q.outputs, q.net)
    ensures PlanInputs(p) == p.caller + p.custom.inputs + p.htr.inputs
    ensures PlanOutputs(q, p) == ExplicitOuts(q) + p.custom.outputs + p.htr.outputs
  {
  }

  lemma ConvertedAreChange(q: Request, custom: Funding, defs: seq<Def>)
    requires CustomShielded(q)
    requires forall o :: o in custom.outputs ==> o.value > 0
    requires defs == RequestedDefs(q.outputs, q.net)
                  + Map(Filter(custom.outputs, IsCustomChange()), ChangeToDef(q.net, q.wallet.value.shieldedAddress, q.changeMode.value))
    ensures forall k :: |RequestedDefs(q.outputs, q.net)| <= k < |defs| ==> IsShieldedChange(q, defs[k])
  {
    var n, converted := |RequestedDefs(q.outputs, q.net)|, Filter(custom.outputs, IsCustomChange());
    forall k | n <= k < |defs| ensures IsShieldedChange(q, defs[k]) {
      assert converted[k - n] in converted;
    }
  }

  // ----- no outpoint twice -----

  /** The utxo table mirrors the history: a token known to both is the same, and an output the
      wallet may still spend has its utxo. */
  ghost predicate StoreMirrorsHistory(s: WalletStorage) {
    && UniqueOutpoints(s.funds)
    && (forall u :: u in s.funds.store.utxos && InputFor(s, u.id).Some? ==> InputFor(s, u.id).value.token == u.token)
    && (forall i: DataInput :: InputFor(s, i.id) == Some(i) && UnspentAndMine(s, i, i.token) ==> HasUtxo(s, i))
  }

  ghost predicate HasUtxo(s: WalletStorage, i: DataInput) {
    exists u :: u in s.funds.store.utxos && u.id == i.id && u.token == i.token && u.value == i.value && u.authorities == 0
  }

  lemma CallerIds(s: WalletStorage, q: Request, caller: seq<DataInput>)
    requires ResolvedInputs(s, q.inputs, caller)
    ensures Map(caller, InputIdOf()) == q.inputs
  {
  }

  /** A wallet-chosen input differs from every caller input, which has another token. */
  lemma ChosenIsNotCallers(s: WalletStorage, q: Request, caller: seq<DataInput>, chosen: seq<DataInput>)
    requires StoreMirrorsHistory(s) && ResolvedInputs(s, q.inputs, caller)
    requires forall i :: i in chosen ==> FromStore(s, i.token, i) && !BroughtToken(caller, i.token)
    ensures forall id :: id in Map(caller, InputIdOf()) ==> id !in Map(chosen, InputIdOf())
  {
    forall k, l | 0 <= k < |caller| && 0 <= l < |chosen| ensures caller[k].id != chosen[l].id {
      assert chosen[l] in chosen && caller[k] in caller;
      var u :| u in s.funds.store.utxos && chosen[l] == InputFromUtxo(u);
      assert InputFor(s, q.inputs[k]) == Some(caller[k]);
      assert !BroughtToken(caller, chosen[l].token);
    }
  }

  lemma CustomChosen(s: WalletStorage, q: Request, p: Plan)
    requires CallerStage(s, q, p.caller, p.tokens) && AddsOnly(s, p.tokens, p.tokens.order, p.custom)
    ensures forall i :: i in p.custom.inputs ==> i.token != HTR && FromStore(s, i.token, i) && !BroughtToken(p.caller, i.token)
  {
    forall i | i in p.custom.inputs ensures !BroughtToken(p.caller, i.token) {
      forall c | c in p.caller ensures c.token != i.token {
        assert c.token !in p.tokens.choose || !p.tokens.choose[c.token];
      }
    }
  }

  lemma JoinDistinct(a: seq<DataInput>, b: seq<DataInput>)
    requires Distinct(Map(a, InputIdOf())) && Distinct(Map(b, InputIdOf()))
    requires forall id :: id in Map(a, InputIdOf()) ==> id !in Map(b, InputIdOf())
    ensures Distinct(Map(a + b, InputIdOf()))
  {
    DistinctAppend(Map(a, InputIdOf()), Map(b, InputIdOf()));
    assert Map(a + b, InputIdOf()) == Map(a, InputIdOf()) + Map(b, InputIdOf());
  }

  lemma CustomIsDistinct(s: WalletStorage, q: Request, p: Plan, pulled: seq<Utxo>)
    requires Planned(s, q, p, pulled) && StoreMirrorsHistory(s) && Distinct(q.inputs)
    ensures Distinct(Map(p.caller + p.custom.inputs, InputIdOf()))
  {
    CallerIds(s, q, p.caller);
    CustomChosen(s, q, p);
    ChosenIsNotCallers(s, q, p.caller, p.custom.inputs);
    JoinDistinct(p.caller, p.custom.inputs);
  }

  lemma HtrIsFresh(s: WalletStorage, q: Request, caller: seq<DataInput>, custom: Funding, kept: seq<DataOutput>, fee: int,
                   chooseHtr: bool, htr: Funding)
    requires StoreMirrorsHistory(s) && ResolvedInputs(s, q.inputs, caller)
    requires HtrFunded(s, q, caller, custom, kept, fee, chooseHtr, htr)
    requires forall i :: i in custom.inputs ==> i.token != HTR && FromStore(s, i.token, i)
    ensures Distinct(Map(htr.inputs, InputIdOf()))
    ensures forall id :: id in Map(caller + custom.inputs, InputIdOf()) ==> id !in Map(htr.inputs, InputIdOf())
  {
    HtrOnly(s, q, caller, custom, kept, fee, chooseHtr, htr);
    ChosenIsNotCallers(s, q, caller, htr.inputs);
    DifferentTokensDifferentIds(s, custom.inputs, htr.inputs, HTR);
    NeitherSpends(caller, custom.inputs, htr.inputs);
  }

  lemma NeitherSpends(a: seq<DataInput>, b: seq<DataInput>, c: seq<DataInput>)
    requires forall id :: id in Map(a, InputIdOf()) ==> id !in Map(c, InputIdOf())
    requires forall id :: id in Map(b, InputIdOf()) ==> id !in Map(c, InputIdOf())
    ensures forall id :: id in Map(a + b, InputIdOf()) ==> id !in Map(c, InputIdOf())
  {
    assert Map(a + b, InputIdOf()) == Map(a, InputIdOf()) + Map(b, InputIdOf());
  }

  /** The inputs before the extra HTR is pulled. */
  lemma SelectionIsDistinct(s: WalletStorage, q: Request, p: Plan, pulled: seq<Utxo>)
    requires Planned(s, q, p, pulled) && StoreMirrorsHistory(s) && Distinct(q.inputs)
    ensures Distinct(Map(p.caller + p.custom.inputs + p.htr.inputs, InputIdOf()))
  {
    CustomIsDistinct(s, q, p, pulled);
    CustomChosen(s, q, p);
    HtrIsFresh(s, q, p.caller, p.custom, p.kept, p.selectionFee, p.chooseHtr, p.htr);
    JoinDistinct(p.caller + p.custom.inputs, p.htr.inputs);
  }

  lemma PulledJoins(s: WalletStorage, base: seq<DataInput>, used: set<UtxoId>, deficit: int, pulled: seq<Utxo>)
    requires Pulled(s, used, deficit, pulled) && UniqueOutpoints(s.funds)
    requires Distinct(Map(base, InputIdOf())) && forall i :: i in base ==> i.id in used
    ensures Distinct(Map(base + Map(pulled, InputFrom()), InputIdOf()))
  {
    var more := Map(pulled, InputFrom());
    PulledIsFresh(s, used, deficit, pulled);
    forall k, l | 0 <= k < |base| && 0 <= l < |more| ensures base[k].id != more[l].id {
      assert base[k] in base && more[l] in more;
    }
    JoinDistinct(base, more);
  }

  /** No outpoint is spent twice, given distinct caller inputs. */
  lemma NoOutpointTwice(s: WalletStorage, q: Request, p: Plan, pulled: seq<Utxo>)
    requires Planned(s, q, p, pulled) && StoreMirrorsHistory(s) && Distinct(q.inputs)
    ensures Distinct(Map(PlanInputs(p), InputIdOf()))
  {
    SelectionIsDistinct(s, q, p, pulled);
    NoOutpointTwiceAfterPull(s, q, p, pulled);
  }

  lemma NoOutpointTwiceAfterPull(s: WalletStorage, q: Request, p: Plan, pulled: seq<Utxo>)
    requires HtrStage(s, q, p, pulled) && UniqueOutpoints(s.funds)
    requires Distinct(Map(p.caller + p.custom.inputs + p.htr.inputs, InputIdOf()))
    ensures Distinct(Map(PlanInputs(p), InputIdOf()))
  {
    var base := p.caller + p.custom.inputs + p.htr.inputs;
    InputsAfterPull(s, q, p, pulled);
    if pulled != [] {
      forall i | i in base ensures i.id in IdsOf(p.caller + p.custom.inputs) + IdsOf(p.htr.inputs) {
        BaseIsUsed(p, i);
      }
      var deficit := PulledFor(s, q, p, pulled);
      PulledJoins(s, base, IdsOf(p.caller + p.custom.inputs) + IdsOf(p.htr.inputs), deficit, pulled);
    } else {
      assert base + Map(pulled, InputFrom()) == base;
    }
  }

  lemma InputsAfterPull(s: WalletStorage, q: Request, p: Plan, pulled: seq<Utxo>)
    requires HtrStage(s, q, p, pulled)
    ensures PlanInputs(p) == (p.caller + p.custom.inputs + p.htr.inputs) + Map(pulled, InputFrom())
  {
  }

  lemma PulledFor(s: WalletStorage, q: Request, p: Plan, pulled: seq<Utxo>) returns (deficit: int)
    requires HtrStage(s, q, p, pulled) && pulled != []
    ensures Pulled(s, IdsOf(p.caller + p.custom.inputs) + IdsOf(p.htr.inputs), deficit, pulled)
  {
    deficit := p.addedFee - p.htr.outputs[HtrChangeIndex(p.htr.outputs)].value;
  }

  lemma BaseIsUsed(p: Plan, i: DataInput)
    requires i in p.caller + p.custom.inputs + p.htr.inputs
    ensures i.id in IdsOf(p.caller + p.custom.inputs) + IdsOf(p.htr.inputs)
  {
    assert i in p.caller + p.custom.inputs || i in p.htr.inputs;
  }

  // ----- who supplies inputs -----

  /** Every caller input was checked: unspent, of this wallet, not an authority, not locked and not
      already marked as used. */
  lemma CallerInputsChecked(s: WalletStorage, q: Request, p: Plan, pulled: seq<Utxo>)
    requires Planned(s, q, p, pulled)
    ensures forall i :: i in p.caller ==> UnspentAndMine(s, i, i.token) && CanUse(s, i.id)
  {
    forall i | i in p.caller ensures UnspentAndMine(s, i, i.token) && CanUse(s, i.id) {
      assert BroughtToken(p.caller, i.token);
      if i.token == HTR {
        assert i in p.caller + p.custom.inputs;
      } else {
        assert i.token in p.tokens.order;
      }
    }
  }

  /** The wallet adds inputs only of tokens the caller brought none of, and only unmarked funds of
      its store. */
  lemma WalletAddsOnlyMissingTokens(s: WalletStorage, q: Request, p: Plan, pulled: seq<Utxo>)
    requires Planned(s, q, p, pulled)
    ensures forall i :: i in p.custom.inputs + p.htrFinal.inputs ==>
      FromStore(s, i.token, i) && !BroughtToken(p.caller, i.token)
  {
    CustomChosen(s, q, p);
    FinalHtrOnly(s, q, p, pulled);
    HtrOnly(s, q, p.caller, p.custom, p.kept, p.selectionFee, p.chooseHtr, p.htr);
    assert !p.chooseHtr ==> p.htr.inputs == [] && p.htrFinal.inputs == [];
  }
}
