/** When a send succeeds: a transparent send of HTR alone, with inputs of the wallet's choice, goes
    through `prepareTxData` (src/new/sendTransaction.ts) exactly when the available HTR covers it. */
module NativeSend {
  import opened Wrappers
  import opened SeqSums
  import opened WalletTypes
  import opened UtxoStore
  import opened UtxoSelection
  import opened SendModel
  import opened TokenFunding
  import opened ChangeShielding
  import opened SendPlan
  import opened SendBalance
  import opened TransactionAssembly
  import Fee

  /** Acceptable transparent outputs of HTR only, worth something, no caller input, a change address of
      the wallet, and no shielded utxo in the store. */
  ghost predicate IsNativeSend(s: WalletStorage, q: Request) {
    && q.inputs == []
    && (forall k :: 0 <= k < |q.outputs| ==>
          OutputAccepted(q.outputs[k], q.net) && !q.outputs[k].ShieldedSend? && TokenOf(q.outputs[k]) == HTR)
    && Requested(q) > 0
    && ChangeAddressFor(s, q.changeAddress) != None
    && (forall u :: u in s.funds.store.utxos ==> !u.shielded)
  }

  function Requested(q: Request): int { Sum(RequestedOuts(q), ValueOut(HTR)) }

  function AvailableHtr(s: WalletStorage): int { Sum(Available(s.funds, HTR, Descending), UtxoValue()) }

  // ----- a fee needs a custom token -----

  lemma NativeTokens(es: seq<Fee.Element>)
    requires forall e :: e in es ==> e.token == HTR
    ensures forall t :: t in Fee.FundTokens(es) ==> t == HTR
  {
    var funds := Filter(es, Fee.IsFund());
    forall k | 0 <= k < |funds| ensures Fee.FundTokens(es)[k] == HTR {
      assert funds[k] in funds;
    }
  }

  lemma NoCustomTokens(ins: seq<Fee.Element>, outs: seq<Fee.Element>)
    requires (forall e :: e in ins ==> e.token == HTR) && (forall e :: e in outs ==> e.token == HTR)
    ensures Fee.FeeTokens(ins, outs, []) == []
  {
    NativeTokens(ins);
    NativeTokens(outs);
    var order := Fee.FeeTokens(ins, outs, []);
    if order != [] {
      HasFirst(order);
    }
  }

  lemma HasFirst<T>(s: seq<T>)
    requires s != []
    ensures s[0] in s
  {
  }

  lemma NothingToPay(ins: seq<Fee.Element>, outs: seq<Fee.Element>, tokens: map<Uid, Fee.TokenVersion>)
    requires Fee.FeeTokens(ins, outs, []) == []
    ensures Fee.ElementsFee(ins, outs, tokens, []) == Ok(0)
  {
  }

  lemma NativeIsFree(inputs: seq<DataInput>, outputs: seq<DataOutput>, tokens: map<Uid, Fee.TokenVersion>)
    requires (forall i :: i in inputs ==> i.token == HTR) && (forall o :: o in outputs ==> o.token == HTR)
    ensures Fee.FeeResult(inputs, outputs, tokens, []) == Ok(0)
  {
    NoCustomTokens(Map(inputs, Fee.InputElement()), Map(outputs, Fee.OutputElement()));
    NothingToPay(Map(inputs, Fee.InputElement()), Map(outputs, Fee.OutputElement()), tokens);
  }

  // ----- the stages -----

  lemma {:induction false} NoDefs(outputs: seq<SendOutput>, net: Network)
    requires forall k :: 0 <= k < |outputs| ==> !outputs[k].ShieldedSend?
    ensures RequestedDefs(outputs, net) == []
  {
    if outputs != [] {
      NoDefs(outputs[..|outputs| - 1], net);
    }
  }

  lemma ExplicitIsNative(s: WalletStorage, q: Request)
    requires IsNativeSend(s, q)
    ensures forall o :: o in ExplicitOuts(q) ==> o.token == HTR
  {
    var slots := ExplicitSlots(q);
    forall k | 0 <= k < |slots| ensures slots[k].out.token == HTR {
      assert slots[k] in slots;
      assert slots[k] in RequestedSlots(q.outputs, q.net);
    }
  }

  /** Nobody asks for a custom token, so none is funded. */
  lemma NothingCustom(s: WalletStorage, q: Request, caller: seq<DataInput>, tokens: TokenMap)
    requires IsNativeSend(s, q) && CallerStage(s, q, caller, tokens)
    ensures caller == [] && tokens.order == [] && tokens.choose.Keys == {}
    ensures forall custom :: ManyFunded(s, RequestedOuts(q), caller, tokens, tokens.order, custom) ==> custom == Funding([], [])
  {
    forall t: Uid ensures t !in tokens.choose {
      assert t == HTR || !Names(q.outputs, t);
    }
    if tokens.order != [] {
      HasFirst(tokens.order);
    }
    forall custom | ManyFunded(s, RequestedOuts(q), caller, tokens, tokens.order, custom) ensures custom == Funding([], []) {
      OnlyNothing(s, tokens, custom);
    }
  }

  lemma OnlyNothing(s: WalletStorage, tokens: TokenMap, custom: Funding)
    requires AddsOnly(s, tokens, [], custom)
    ensures custom == Funding([], [])
  {
    if custom.inputs != [] {
      HasFirst(custom.inputs);
    }
    if custom.outputs != [] {
      HasFirst(custom.outputs);
    }
  }

  lemma CustomNotRefused(s: WalletStorage, q: Request, caller: seq<DataInput>, tokens: TokenMap, e: SendError)
    requires IsNativeSend(s, q) && CallerStage(s, q, caller, tokens)
    ensures !CustomRefused(s, q, caller, tokens, e)
  {
    NothingCustom(s, q, caller, tokens);
    NoDefs(q.outputs, q.net);
    NothingRefused(s, RequestedOuts(q), caller, tokens, q.changeAddress, e);
    FeeIsKnown(s, q, tokens);
  }

  lemma NothingRefused(s: WalletStorage, outputs: seq<DataOutput>, inputs: seq<DataInput>, tokens: TokenMap, changeAddress: Option<string>, e: SendError)
    requires tokens.choose.Keys == {}
    ensures !OneRefused(s, outputs, inputs, tokens, changeAddress, e)
  {
    assert forall t: Uid :: t in tokens.choose ==> t in tokens.choose.Keys;
  }

  lemma FeeIsKnown(s: WalletStorage, q: Request, tokens: TokenMap)
    requires IsNativeSend(s, q) && tokens.order == []
    requires forall custom :: ManyFunded(s, RequestedOuts(q), [], tokens, tokens.order, custom) ==> custom == Funding([], [])
    ensures !FeeUnknown(s, q, [], tokens)
  {
    NoDefs(q.outputs, q.net);
    ExplicitIsNative(s, q);
    forall custom, kept, defs |
      ManyFunded(s, RequestedOuts(q), [], tokens, tokens.order, custom) && CustomStage(q, custom, kept, defs)
      ensures !NoRecord(s, tokens.order, [] + custom.inputs, ExplicitOuts(q) + kept)
    {
      assert custom == Funding([], []) && kept == [];
      NativeHasRecord(s, [] + custom.inputs, ExplicitOuts(q) + kept);
    }
  }

  lemma NativeHasRecord(s: WalletStorage, inputs: seq<DataInput>, outputs: seq<DataOutput>)
    requires (forall i :: i in inputs ==> i.token == HTR) && (forall o :: o in outputs ==> o.token == HTR)
    ensures !NoRecord(s, [], inputs, outputs)
  {
    NativeIsFree(inputs, outputs, KnownTokens(s, []).value);
  }

  lemma SomethingSent(q: Request)
    requires Requested(q) != 0
    ensures q.outputs != []
  {
  }

  /** The native stage has nothing to shield and no fee to pay. */
  lemma NativeStage(s: WalletStorage, q: Request, caller: seq<DataInput>, tokens: TokenMap, custom: Funding,
                    kept: seq<DataOutput>, defs: seq<Def>, fee: int)
    requires IsNativeSend(s, q) && CallerStage(s, q, caller, tokens)
    requires CustomFunded(s, q, caller, tokens, custom, kept, defs, fee)
    ensures caller == [] && custom == Funding([], []) && kept == [] && defs == [] && fee == 0
    ensures SendsToken(q, HTR) && !BroughtToken(caller, HTR)
  {
    NothingCustom(s, q, caller, tokens);
    NoDefs(q.outputs, q.net);
    ExplicitIsNative(s, q);
    NativeIsFree(caller + custom.inputs, ExplicitOuts(q) + kept, s.tokens);
    SomethingSent(q);
    assert TokenOf(q.outputs[0]) == HTR;
  }

  lemma NativeNotRefused(s: WalletStorage, q: Request, caller: seq<DataInput>, tokens: TokenMap, custom: Funding,
                         kept: seq<DataOutput>, defs: seq<Def>, fee: int, e: SendError)
    requires IsNativeSend(s, q) && AvailableHtr(s) >= Requested(q) && CallerStage(s, q, caller, tokens)
    requires CustomFunded(s, q, caller, tokens, custom, kept, defs, fee)
    ensures !NativeRefused(s, q, caller, custom, kept, defs, fee, e)
  {
    NativeStage(s, q, caller, tokens, custom, kept, defs, fee);
    PlainNotRefused(s, q, e);
  }

  lemma PlainNotRefused(s: WalletStorage, q: Request, e: SendError)
    requires IsNativeSend(s, q) && AvailableHtr(s) >= Requested(q) && SendsToken(q, HTR)
    ensures !NativeRefused(s, q, [], Funding([], []), [], [], 0, e)
  {
    var outs := RequestedOuts(q);
    assert outs + [] == outs && [] + Funding([], []).inputs == [];
    assert !BroughtToken([], HTR);
    SelectionOpen(s, q, e);
  }

  lemma SelectionOpen(s: WalletStorage, q: Request, e: SendError)
    requires AvailableHtr(s) >= Requested(q) > 0 && ChangeAddressFor(s, q.changeAddress) != None
    ensures !Refused(s, RequestedOuts(q), [], HTR, true, q.changeAddress, 0, e)
  {
  }

  lemma PlanNotRefused(s: WalletStorage, q: Request, e: SendError)
    requires IsNativeSend(s, q) && AvailableHtr(s) >= Requested(q)
    ensures !PlanRefused(s, q, e)
  {
    RequestNotRefused(s, q, e);
    forall caller, tokens | CallerStage(s, q, caller, tokens) ensures !CustomRefused(s, q, caller, tokens, e) {
      CustomNotRefused(s, q, caller, tokens, e);
    }
    forall caller, tokens, custom, kept, defs, fee |
      CallerStage(s, q, caller, tokens) && CustomFunded(s, q, caller, tokens, custom, kept, defs, fee)
      ensures !NativeRefused(s, q, caller, custom, kept, defs, fee, e)
    {
      NativeNotRefused(s, q, caller, tokens, custom, kept, defs, fee, e);
    }
  }

  lemma RequestNotRefused(s: WalletStorage, q: Request, e: SendError)
    requires IsNativeSend(s, q)
    ensures !RequestRefused(s, q, e)
  {
  }

  lemma NeverBlinded(s: WalletStorage, inputs: seq<DataInput>)
    requires forall u :: u in s.funds.store.utxos ==> !u.shielded
    ensures (forall i :: i in inputs ==> !IsBlinded(s)(i)) && Blinded(s, inputs) == []
  {
    FilterNone(inputs, IsBlinded(s));
  }

  lemma NothingShielded(s: WalletStorage, q: Request, p: Plan, pulled: seq<Utxo>)
    requires HtrStage(s, q, p, pulled) && p.customDefs == []
    ensures p.defs == []
  {
  }

  lemma AssemblyNotRefused(s: WalletStorage, q: Request, p: Plan, pulled: seq<Utxo>, e: SendError)
    requires IsNativeSend(s, q) && Planned(s, q, p, pulled)
    ensures !AssemblyRefused(s, q, p, e)
  {
    NativeStage(s, q, p.caller, p.tokens, p.custom, p.kept, p.customDefs, p.fee);
    NothingShielded(s, q, p, pulled);
    NotRefusedWithout(s, q, p, e);
  }

  lemma NotRefusedWithout(s: WalletStorage, q: Request, p: Plan, e: SendError)
    requires p.defs == [] && forall u :: u in s.funds.store.utxos ==> !u.shielded
    ensures !AssemblyRefused(s, q, p, e)
  {
    NeverBlinded(s, PlanInputs(p));
  }

  /** A planned native send was covered by the available HTR. */
  lemma PlannedWasCovered(s: WalletStorage, q: Request, p: Plan, pulled: seq<Utxo>)
    requires IsNativeSend(s, q) && Planned(s, q, p, pulled)
    ensures AvailableHtr(s) >= Requested(q)
  {
    NativeStage(s, q, p.caller, p.tokens, p.custom, p.kept, p.customDefs, p.fee);
    FundedWasCovered(s, q, p.chooseHtr, p.htr);
  }

  lemma FundedWasCovered(s: WalletStorage, q: Request, chooseHtr: bool, htr: Funding)
    requires SendsToken(q, HTR) && Requested(q) > 0
    requires HtrFunded(s, q, [], Funding([], []), [], 0, chooseHtr, htr)
    ensures AvailableHtr(s) >= Requested(q)
  {
    assert !BroughtToken([], HTR);
    assert RequestedOuts(q) + [] == RequestedOuts(q);
    ChosenWasCovered(s, q, htr);
  }

  lemma ChosenWasCovered(s: WalletStorage, q: Request, htr: Funding)
    requires Requested(q) > 0 && BestInputs(s, HTR, Requested(q), htr.inputs)
    requires forall o :: o in htr.outputs ==> IsChangeOf(o, HTR)
    requires Sum(htr.inputs, ValueIn(HTR)) == Requested(q) + Sum(htr.outputs, ValueOut(HTR))
    ensures AvailableHtr(s) >= Requested(q)
  {
    var xs := Available(s.funds, HTR, Descending);
    var r :| BestChoice(xs, Requested(q), r) && htr.inputs == Map(r.utxos, InputFrom());
    SelectedFromBest(s, HTR, Requested(q), r);
    SumNonNegative(htr.outputs, ValueOut(HTR));
    BestChoiceFindsFunds(xs, Requested(q), r);
  }
}
