/** The first half of `prepareTxData` (src/new/sendTransaction.ts:238-576): collecting outputs,
    resolving caller inputs, funding the custom tokens, shielding their change, the fee, funding
    HTR and shielding its change. The result is a `Plan`; the lemmas prove its token-wise balance. */
module SendPlan {
  import opened Wrappers
  import opened SeqSums
  import opened WalletTypes
  import opened UtxoStore
  import opened SendModel
  import opened TokenFunding
  import opened ChangeShielding
  import Fee
  import ShieldedCreation

  datatype Request = Request(
    outputs: seq<SendOutput>,
    inputs: seq<UtxoId>,
    changeAddress: Option<string>,
    changeMode: Option<Mode>,
    wallet: Option<Wallet>,
    net: Network)

  datatype Plan = Plan(
    caller: seq<DataInput>,
    tokens: TokenMap,
    custom: Funding,
    kept: seq<DataOutput>,
    customDefs: seq<Def>,
    fee: int,
    selectionFee: int,
    chooseHtr: bool,
    htr: Funding,
    htrFinal: Funding,
    defs: seq<Def>,
    addedFee: int)

  function RequestedOuts(q: Request): seq<DataOutput> { Map(RequestedSlots(q.outputs, q.net), OutOf()) }

  /** The requested outputs that stay transparent. */
  function ExplicitSlots(q: Request): seq<Slot> {
    Filter(RequestedSlots(q.outputs, q.net), NotPhantom(Phantoms(q.outputs)))
  }

  function ExplicitOuts(q: Request): seq<DataOutput> { Map(ExplicitSlots(q), OutOf()) }

  function PlanInputs(p: Plan): seq<DataInput> { p.caller + p.custom.inputs + p.htrFinal.inputs }

  /** The final transparent outputs, before they are shuffled. */
  function PlanOutputs(q: Request, p: Plan): seq<DataOutput> { ExplicitOuts(q) + p.kept + p.htrFinal.outputs }

  function TotalFee(p: Plan): int { p.selectionFee + p.addedFee }

  /** One of the outputs sends the token. */
  ghost predicate Names(outputs: seq<SendOutput>, t: Uid) { exists k :: 0 <= k < |outputs| && TokenOf(outputs[k]) == t }

  ghost predicate TokensOfOutputs(m: TokenMap, outputs: seq<SendOutput>) {
    && WellFormed(m)
    && (forall t: Uid :: t in m.choose <==> Names(outputs, t))
  }

  datatype Collection = Collection(slots: seq<Slot>, defs: seq<Def>, phantoms: set<nat>, tokens: TokenMap)

  function AddOutput(c: Collection, k: nat, o: SendOutput, net: Network): Collection {
    Collection(c.slots + [Slot(k, RequestedOutput(o, net))],
               if o.ShieldedSend? then c.defs + [RequestedDef(o, net)] else c.defs,
               if o.ShieldedSend? then c.phantoms + {k} else c.phantoms,
               SetToken(c.tokens, TokenOf(o), true))
  }

  /** What the output loop has collected after `outputs`. */
  function CollectionOf(outputs: seq<SendOutput>, net: Network): Collection {
    if outputs == [] then Collection([], [], {}, TokenMap([], map[]))
    else
      var k := |outputs| - 1;
      AddOutput(CollectionOf(outputs[..k], net), k, outputs[k], net)
  }

  lemma CollectionStep(outputs: seq<SendOutput>, k: nat, net: Network)
    requires k < |outputs|
    ensures CollectionOf(outputs[..k+1], net) == AddOutput(CollectionOf(outputs[..k], net), k, outputs[k], net)
  {
    assert outputs[..k+1][..k] == outputs[..k];
  }

  function OutputError(o: SendOutput, net: Network): SendError {
    if o.ShieldedSend? && !ModeValid(o.shieldedMode) then InvalidShieldedMode
    else if o.ShieldedSend? && net.kind(o.address) != Shielded then NotAShieldedAddress
    else InvalidAddress
  }

  ghost predicate OutputRefused(outputs: seq<SendOutput>, net: Network, e: SendError) {
    exists k :: 0 <= k < |outputs| && !OutputAccepted(outputs[k], net) && e == OutputError(outputs[k], net)
  }

  /** The output loop; it stops at the first output it does not accept. */
  method CollectOutputs(outputs: seq<SendOutput>, net: Network) returns (r: Result<Collection, SendError>)
    ensures r.Ok? <==> forall k :: 0 <= k < |outputs| ==> OutputAccepted(outputs[k], net)
    ensures r.Ok? ==> r.value == CollectionOf(outputs, net)
    ensures r.Err? ==> OutputRefused(outputs, net, r.error)
  {
    var slots: seq<Slot> := [];
    var defs: seq<Def> := [];
    var phantoms: set<nat> := {};
    var m := TokenMap([], map[]);
    for k := 0 to |outputs|
      invariant Collecting(outputs, k, net, Collection(slots, defs, phantoms, m))
    {
      var output := outputs[k];
      if !OutputAccepted(output, net) {
        return Err(OutputError(output, net));
      }
      CollectingStep(outputs, k, net, Collection(slots, defs, phantoms, m));
      slots := slots + [Slot(k, RequestedOutput(output, net))];
      if output.ShieldedSend? {
        defs := defs + [RequestedDef(output, net)];
        phantoms := phantoms + {k};
      }
      m := SetToken(m, TokenOf(output), true);
    }
    assert outputs[..|outputs|] == outputs;
    r := Ok(Collection(slots, defs, phantoms, m));
  }

  /** The first `k` outputs are accepted and collected. */
  ghost predicate Collecting(outputs: seq<SendOutput>, k: nat, net: Network, c: Collection) {
    k <= |outputs| && (forall j :: 0 <= j < k ==> OutputAccepted(outputs[j], net)) && c == CollectionOf(outputs[..k], net)
  }

  lemma CollectingStep(outputs: seq<SendOutput>, k: nat, net: Network, c: Collection)
    requires k < |outputs| && Collecting(outputs, k, net, c) && OutputAccepted(outputs[k], net)
    ensures Collecting(outputs, k + 1, net, AddOutput(c, k, outputs[k], net))
  {
    CollectionStep(outputs, k, net);
  }

  ghost predicate Collected(outputs: seq<SendOutput>, net: Network, c: Collection) {
    && c.slots == RequestedSlots(outputs, net)
    && c.defs == RequestedDefs(outputs, net)
    && c.phantoms == Phantoms(outputs)
    && TokensOfOutputs(c.tokens, outputs)
    && (forall t :: t in c.tokens.choose ==> c.tokens.choose[t])
  }

  /** The collection holds an output per request, a definition and a phantom per shielded one, and the
      tokens that are sent, all open to the wallet's choice. */
  lemma {:induction false} CollectionIsComplete(outputs: seq<SendOutput>, net: Network)
    ensures Collected(outputs, net, CollectionOf(outputs, net))
  {
    if outputs != [] {
      var k := |outputs| - 1;
      CollectionIsComplete(outputs[..k], net);
      CollectedStep(outputs, k, net, CollectionOf(outputs[..k], net));
      assert outputs[..k+1] == outputs;
    }
  }

  lemma CollectedStep(outputs: seq<SendOutput>, k: nat, net: Network, c: Collection)
    requires k < |outputs| && Collected(outputs[..k], net, c)
    ensures Collected(outputs[..k+1], net, AddOutput(c, k, outputs[k], net))
  {
    RequestedStep(outputs, k, net);
    TokenSet(c.tokens, outputs[..k], outputs[k]);
  }

  /** What one more output adds to the requested slots, definitions and phantoms. */
  lemma RequestedStep(outputs: seq<SendOutput>, k: nat, net: Network)
    requires k < |outputs|
    ensures outputs[..k+1] == outputs[..k] + [outputs[k]]
    ensures RequestedSlots(outputs[..k+1], net) == RequestedSlots(outputs[..k], net) + [Slot(k, RequestedOutput(outputs[k], net))]
    ensures outputs[k].ShieldedSend? ==>
      && RequestedDefs(outputs[..k+1], net) == RequestedDefs(outputs[..k], net) + [RequestedDef(outputs[k], net)]
      && Phantoms(outputs[..k+1]) == Phantoms(outputs[..k]) + {k}
    ensures !outputs[k].ShieldedSend? ==>
      && RequestedDefs(outputs[..k+1], net) == RequestedDefs(outputs[..k], net)
      && Phantoms(outputs[..k+1]) == Phantoms(outputs[..k])
  {
    var more := outputs[..k+1];
    assert more[..k] == outputs[..k] && more[k] == outputs[k] && |more| - 1 == k;
    assert RequestedDefs(outputs[..k], net) + [] == RequestedDefs(outputs[..k], net);
  }

  function SetToken(m: TokenMap, t: Uid, choose: bool): TokenMap {
    TokenMap(if t in m.choose then m.order else m.order + [t], m.choose[t := choose])
  }

  lemma TokenSet(m: TokenMap, outputs: seq<SendOutput>, output: SendOutput)
    requires TokensOfOutputs(m, outputs)
    ensures TokensOfOutputs(SetToken(m, TokenOf(output), true), outputs + [output])
  {
    var m' := SetToken(m, TokenOf(output), true);
    SetKeepsWellFormed(m, TokenOf(output), true);
    var all := outputs + [output];
    forall t: Uid ensures t in m'.choose <==> Names(all, t) {
      if t in m.choose {
        var k :| 0 <= k < |outputs| && TokenOf(outputs[k]) == t;
        assert TokenOf(all[k]) == t;
      } else if t == TokenOf(output) {
        assert TokenOf(all[|outputs|]) == t;
      } else {
        assert forall k :: 0 <= k < |outputs| ==> TokenOf(outputs[k]) != t;
      }
    }
  }

  lemma SetKeepsWellFormed(m: TokenMap, t: Uid, choose: bool)
    requires WellFormed(m)
    ensures WellFormed(SetToken(m, t, choose))
  {
    if t !in m.choose {
      DistinctAppend(m.order, [t]);
    }
  }

  /** The caller's inputs, resolved one by one. */
  ghost predicate ResolvedInputs(s: WalletStorage, ids: seq<UtxoId>, ins: seq<DataInput>) {
    |ins| == |ids| && forall k :: 0 <= k < |ids| ==> InputFor(s, ids[k]) == Some(ins[k])
  }

  /** The token map after the inputs: a token the caller brought inputs for may not be chosen for. */
  ghost predicate InputsMarked(before: TokenMap, after: TokenMap, ins: seq<DataInput>) {
    && WellFormed(after)
    && (forall t: Uid :: t in after.choose <==> t in before.choose || (t == HTR && BroughtToken(ins, HTR)))
    && (forall t :: t in after.choose ==> (after.choose[t] <==> t in before.choose && before.choose[t] && !BroughtToken(ins, t)))
    && (forall i :: i in ins ==> i.token in after.choose)
  }

  ghost predicate BroughtToken(ins: seq<DataInput>, t: Uid) { exists i :: i in ins && i.token == t }

  /** The outpoint resolves to an input of a token some output names, or of HTR. */
  predicate InputAccepted(s: WalletStorage, m: TokenMap, id: UtxoId) {
    InputFor(s, id).Some? && (InputFor(s, id).value.token == HTR || InputFor(s, id).value.token in m.choose)
  }

  /** The first input of a token, if there is one. */
  function FirstInput(ins: seq<DataInput>, t: Uid): seq<UtxoId> {
    if ins == [] then []
    else
      var before, last := FirstInput(ins[..|ins| - 1], t), ins[|ins| - 1];
      if before != [] then before else if last.token == t then [last.id] else []
  }

  lemma {:induction false} FirstIfBrought(ins: seq<DataInput>, t: Uid)
    ensures FirstInput(ins, t) != [] <==> BroughtToken(ins, t)
  {
    if ins != [] {
      var n := |ins| - 1;
      FirstIfBrought(ins[..n], t);
      assert ins == ins[..n] + [ins[n]];
    }
  }

  datatype Resolution = Resolution(ins: seq<DataInput>, tokens: TokenMap, requiresFees: seq<UtxoId>)

  function AddInput(c: Resolution, input: DataInput): Resolution {
    Resolution(c.ins + [input], SetToken(c.tokens, input.token, false),
               c.requiresFees + if input.token !in c.tokens.choose && input.token == HTR then [input.id] else [])
  }

  /** What the input loop has resolved after `ids`. */
  function ResolutionOf(s: WalletStorage, m: TokenMap, ids: seq<UtxoId>): Resolution {
    if ids == [] then Resolution([], m, [])
    else
      var k := |ids| - 1;
      var input := InputFor(s, ids[k]);
      if input == None then ResolutionOf(s, m, ids[..k]) else AddInput(ResolutionOf(s, m, ids[..k]), input.value)
  }

  lemma ResolutionStep(s: WalletStorage, m: TokenMap, ids: seq<UtxoId>, k: nat)
    requires k < |ids| && InputFor(s, ids[k]).Some?
    ensures ResolutionOf(s, m, ids[..k+1]) == AddInput(ResolutionOf(s, m, ids[..k]), InputFor(s, ids[k]).value)
  {
    assert ids[..k+1][..k] == ids[..k];
  }

  /** The outpoint at `k` is the first that is not accepted. */
  predicate FirstRefused(s: WalletStorage, m: TokenMap, ids: seq<UtxoId>, k: nat) {
    k < |ids| && !InputAccepted(s, m, ids[k]) && forall j :: 0 <= j < k ==> InputAccepted(s, m, ids[j])
  }

  /** The input loop, which stops at the first outpoint it does not accept; `requiresFees` holds an HTR
      input that came although nothing sends HTR. */
  method ResolveInputs(s: WalletStorage, ids: seq<UtxoId>, m: TokenMap) returns (r: Result<Resolution, SendError>)
    ensures r.Ok? <==> forall k :: 0 <= k < |ids| ==> InputAccepted(s, m, ids[k])
    ensures r.Ok? ==> r.value == ResolutionOf(s, m, ids)
    ensures r.Err? ==> exists k: nat :: FirstRefused(s, m, ids, k) && r.error == InvalidInput([ids[k]])
  {
    var ins: seq<DataInput> := [];
    var after := m;
    var requiresFees: seq<UtxoId> := [];
    for k := 0 to |ids|
      invariant Resolving(s, m, ids, k, Resolution(ins, after, requiresFees))
    {
      ghost var c := Resolution(ins, after, requiresFees);
      var input := InputFor(s, ids[k]);
      if input == None {
        RefusedHere(s, m, ids, k, c);
        return Err(InvalidInput([ids[k]]));
      }
      var t := input.value.token;
      if t !in after.choose {
        if t == HTR {
          requiresFees := requiresFees + [ids[k]];
        } else {
          RefusedHere(s, m, ids, k, c);
          return Err(InvalidInput([ids[k]]));
        }
      }
      ResolvingStep(s, m, ids, k, c);
      after := SetToken(after, t, false);
      ins := ins + [input.value];
    }
    assert ids[..|ids|] == ids;
    r := Ok(Resolution(ins, after, requiresFees));
  }

  /** The first `k` outpoints are accepted and resolved; only HTR may have joined the tokens. */
  ghost predicate Resolving(s: WalletStorage, m: TokenMap, ids: seq<UtxoId>, k: nat, c: Resolution) {
    && k <= |ids| && (forall j :: 0 <= j < k ==> InputAccepted(s, m, ids[j]))
    && c == ResolutionOf(s, m, ids[..k])
    && forall t: Uid :: t != HTR ==> (t in c.tokens.choose <==> t in m.choose)
  }

  lemma ResolvingStep(s: WalletStorage, m: TokenMap, ids: seq<UtxoId>, k: nat, c: Resolution)
    requires k < |ids| && Resolving(s, m, ids, k, c) && InputFor(s, ids[k]).Some?
    requires InputFor(s, ids[k]).value.token == HTR || InputFor(s, ids[k]).value.token in c.tokens.choose
    ensures Resolving(s, m, ids, k + 1, AddInput(c, InputFor(s, ids[k]).value)) && InputFor(s, ids[k]).value.id == ids[k]
  {
    ResolutionStep(s, m, ids, k);
  }

  lemma RefusedHere(s: WalletStorage, m: TokenMap, ids: seq<UtxoId>, k: nat, c: Resolution)
    requires k < |ids| && Resolving(s, m, ids, k, c)
    requires InputFor(s, ids[k]) == None || (InputFor(s, ids[k]).value.token != HTR && InputFor(s, ids[k]).value.token !in c.tokens.choose)
    ensures FirstRefused(s, m, ids, k)
  {
  }

  ghost predicate Resolves(s: WalletStorage, m: TokenMap, ids: seq<UtxoId>, c: Resolution) {
    && ResolvedInputs(s, ids, c.ins)
    && InputsMarked(m, c.tokens, c.ins)
    && c.requiresFees == (if HTR in m.choose then [] else FirstInput(c.ins, HTR))
  }

  /** Accepted outpoints resolve one by one, and their tokens are closed to the wallet's choice. */
  lemma {:induction false} ResolutionIsComplete(s: WalletStorage, m: TokenMap, ids: seq<UtxoId>)
    requires WellFormed(m) && forall k :: 0 <= k < |ids| ==> InputAccepted(s, m, ids[k])
    ensures Resolves(s, m, ids, ResolutionOf(s, m, ids))
  {
    if ids != [] {
      var init, id := ids[..|ids| - 1], ids[|ids| - 1];
      AcceptedInit(s, m, ids, init);
      ResolutionIsComplete(s, m, init);
      assert ResolutionOf(s, m, ids) == AddInput(ResolutionOf(s, m, init), InputFor(s, id).value);
      ResolvesStep(s, m, init, id, ResolutionOf(s, m, init));
    }
  }

  lemma AcceptedInit(s: WalletStorage, m: TokenMap, ids: seq<UtxoId>, init: seq<UtxoId>)
    requires ids != [] && init == ids[..|ids| - 1] && forall k :: 0 <= k < |ids| ==> InputAccepted(s, m, ids[k])
    ensures forall k :: 0 <= k < |init| ==> InputAccepted(s, m, init[k])
    ensures InputAccepted(s, m, ids[|ids| - 1]) && init + [ids[|ids| - 1]] == ids
  {
    forall k | 0 <= k < |init| ensures InputAccepted(s, m, init[k]) {
      assert init[k] == ids[k];
    }
  }

  lemma ResolvesStep(s: WalletStorage, m: TokenMap, ids: seq<UtxoId>, id: UtxoId, c: Resolution)
    requires Resolves(s, m, ids, c) && InputAccepted(s, m, id)
    ensures Resolves(s, m, ids + [id], AddInput(c, InputFor(s, id).value))
  {
    var input := InputFor(s, id).value;
    MarkStep(m, c.tokens, c.ins, input);
    ResolvedPush(s, ids, id, c.ins);
    FeesPush(m, c, input);
  }

  lemma ResolvedPush(s: WalletStorage, ids: seq<UtxoId>, id: UtxoId, ins: seq<DataInput>)
    requires ResolvedInputs(s, ids, ins) && InputFor(s, id).Some?
    ensures ResolvedInputs(s, ids + [id], ins + [InputFor(s, id).value])
  {
  }

  lemma FeesPush(m: TokenMap, c: Resolution, input: DataInput)
    requires InputsMarked(m, c.tokens, c.ins) && c.requiresFees == (if HTR in m.choose then [] else FirstInput(c.ins, HTR))
    ensures AddInput(c, input).requiresFees == if HTR in m.choose then [] else FirstInput(c.ins + [input], HTR)
  {
    FirstIfBrought(c.ins, HTR);
    assert (c.ins + [input])[..|c.ins|] == c.ins;
  }

  lemma MarkStep(before: TokenMap, after: TokenMap, ins: seq<DataInput>, input: DataInput)
    requires InputsMarked(before, after, ins)
    requires input.token in after.choose || input.token == HTR
    ensures InputsMarked(before, SetToken(after, input.token, false), ins + [input])
    ensures forall t: Uid :: BroughtToken(ins + [input], t) <==> BroughtToken(ins, t) || t == input.token
  {
    var all := ins + [input];
    SetKeepsWellFormed(after, input.token, false);
    assert input in all;
    forall t: Uid ensures BroughtToken(all, t) <==> BroughtToken(ins, t) || t == input.token {
      if BroughtToken(ins, t) {
        var i :| i in ins && i.token == t;
        assert i in all;
      }
    }
  }

  /** `tokenMap.delete(HTR)` */
  function WithoutHtr(m: TokenMap): (r: TokenMap)
    requires WellFormed(m)
    ensures WellFormed(r) && HTR !in r.choose
    ensures forall t :: t in r.choose <==> t in m.choose && t != HTR
    ensures forall t :: t in r.choose ==> r.choose[t] == m.choose[t]
  {
    TokenMap(Without(m.order, HTR), m.choose - {HTR})
  }

  function KnownTokens(s: WalletStorage, order: seq<Uid>): Option<map<Uid, Fee.TokenVersion>> {
    if forall k :: 0 <= k < |order| ==> order[k] in s.tokens
    then Some(map t | t in order && t in s.tokens :: s.tokens[t]) else None
  }

  // ----- what a plan promises -----

  ghost predicate CustomShielded(q: Request) {
    q.changeMode.Some? && q.wallet.Some? && RequestedDefs(q.outputs, q.net) != []
  }

  /** The custom-token change, rewritten or not. */
  ghost predicate CustomStage(q: Request, custom: Funding, kept: seq<DataOutput>, defs: seq<Def>) {
    var requested := RequestedDefs(q.outputs, q.net);
    if CustomShielded(q) then
      && kept == Filter(custom.outputs, IsKept())
      && defs == requested + Map(Filter(custom.outputs, IsCustomChange()),
                                 ChangeToDef(q.net, q.wallet.value.shieldedAddress, q.changeMode.value))
    else kept == custom.outputs && defs == requested
  }

  ghost predicate HtrStage(s: WalletStorage, q: Request, p: Plan, pulled: seq<Utxo>) {
    if ConversionApplies(p.htr, p.customDefs, q.changeMode, q.wallet) then
      Converted(s, q.net, q.wallet.value, q.changeMode.value, p.chooseHtr, p.caller + p.custom.inputs,
                p.htr, p.customDefs, p.htrFinal, p.defs, p.addedFee, pulled)
    else p.htrFinal == p.htr && p.defs == p.customDefs && p.addedFee == 0 && pulled == []
  }

  /** The tokens of the outputs, those with caller inputs marked, the native one aside. */
  ghost predicate CallerStage(s: WalletStorage, q: Request, caller: seq<DataInput>, tokens: TokenMap) {
    && ResolvedInputs(s, q.inputs, caller)
    && WellFormed(tokens) && HTR !in tokens.choose
    && ChooseOnlyUnfunded(tokens, caller)
    && (forall i :: i in caller ==> i.token == HTR || i.token in tokens.choose)
    && (forall t: Uid :: t != HTR ==> (t in tokens.choose <==> Names(q.outputs, t)))
  }

  /** The custom tokens are funded, their change is shielded if asked, and the fee is that of what stays visible. */
  ghost predicate CustomFunded(s: WalletStorage, q: Request, caller: seq<DataInput>, tokens: TokenMap,
                               custom: Funding, kept: seq<DataOutput>, defs: seq<Def>, fee: int) {
    && ManyFunded(s, RequestedOuts(q), caller, tokens, tokens.order, custom)
    && CustomStage(q, custom, kept, defs)
    && ChangeGoesHome(s, q.changeAddress, custom.outputs)
    && fee >= 0
    && Fee.FeeResult(caller + custom.inputs, ExplicitOuts(q) + kept, s.tokens, []) == Ok(fee)
  }

  ghost predicate SendsToken(q: Request, t: Uid) { Names(q.outputs, t) }

  /** HTR is funded for its outputs and the whole fee, by the wallet's choice unless the caller brought
      HTR; HTR brought although nothing needs it is refused. */
  ghost predicate HtrFunded(s: WalletStorage, q: Request, caller: seq<DataInput>, custom: Funding, kept: seq<DataOutput>,
                            totalFee: int, chooseHtr: bool, htr: Funding) {
    && (chooseHtr <==> !BroughtToken(caller, HTR) && (SendsToken(q, HTR) || totalFee > 0))
    && (BroughtToken(caller, HTR) ==> SendsToken(q, HTR) || totalFee != 0)
    && ChangeGoesHome(s, q.changeAddress, htr.outputs)
    && Funded(s, RequestedOuts(q) + kept, caller + custom.inputs, HTR, chooseHtr, totalFee, htr)
  }

  ghost predicate Planned(s: WalletStorage, q: Request, p: Plan, pulled: seq<Utxo>) {
    && (forall k :: 0 <= k < |q.outputs| ==> OutputAccepted(q.outputs[k], q.net))
    && CallerStage(s, q, p.caller, p.tokens)
    && CustomFunded(s, q, p.caller, p.tokens, p.custom, p.kept, p.customDefs, p.fee)
    && p.selectionFee == p.fee + Sum(p.customDefs, DefFee())
    && HtrFunded(s, q, p.caller, p.custom, p.kept, p.selectionFee, p.chooseHtr, p.htr)
    && HtrStage(s, q, p, pulled)
  }

  lemma CallerStageHolds(s: WalletStorage, q: Request, caller: seq<DataInput>, m0: TokenMap, m1: TokenMap)
    requires TokensOfOutputs(m0, q.outputs) && (forall t :: t in m0.choose ==> m0.choose[t])
    requires ResolvedInputs(s, q.inputs, caller) && InputsMarked(m0, m1, caller)
    ensures CallerStage(s, q, caller, WithoutHtr(m1))
    ensures HTR in m1.choose <==> SendsToken(q, HTR) || BroughtToken(caller, HTR)
    ensures HTR in m1.choose ==> (m1.choose[HTR] <==> !BroughtToken(caller, HTR))
  {
    var m := WithoutHtr(m1);
    forall i | i in caller ensures i.token !in m.choose || !m.choose[i.token] {
      assert BroughtToken(caller, i.token);
    }
    forall t: Uid | t != HTR
      ensures t in m.choose <==> Names(q.outputs, t)
    {
      assert t in m.choose <==> t in m0.choose;
    }
  }

  datatype Start = Start(
    slots: seq<Slot>,
    requested: seq<Def>,
    phantoms: set<nat>,
    caller: seq<DataInput>,
    tokens: TokenMap,
    hasHtr: bool,
    chooseHtr: bool,
    requiresFees: seq<UtxoId>)

  /** What the loops found out about HTR. */
  ghost predicate HtrNoted(q: Request, start: Start) {
    && (start.hasHtr <==> SendsToken(q, HTR) || BroughtToken(start.caller, HTR))
    && (start.chooseHtr <==> SendsToken(q, HTR) && !BroughtToken(start.caller, HTR))
    && start.requiresFees == (if SendsToken(q, HTR) then [] else FirstInput(start.caller, HTR))
  }

  /** Why the loops stopped: an output that is not acceptable, or an input that is not usable. */
  ghost predicate RequestRefused(s: WalletStorage, q: Request, e: SendError) {
    || OutputRefused(q.outputs, q.net, e)
    || (exists k: nat :: FirstCallerRefused(s, q, k) && e == InvalidInput([q.inputs[k]]))
  }

  ghost predicate FirstCallerRefused(s: WalletStorage, q: Request, k: nat) {
    k < |q.inputs| && CallerInputRefused(s, q, q.inputs[k]) && forall j :: 0 <= j < k ==> !CallerInputRefused(s, q, q.inputs[j])
  }

  ghost predicate CallerInputRefused(s: WalletStorage, q: Request, id: UtxoId) {
    InputFor(s, id).None? || (InputFor(s, id).value.token != HTR && !SendsToken(q, InputFor(s, id).value.token))
  }

  /** The output and input loops. */
  method Collect(s: WalletStorage, q: Request) returns (r: Result<Start, SendError>)
    ensures r.Ok? ==>
      && (forall k :: 0 <= k < |q.outputs| ==> OutputAccepted(q.outputs[k], q.net))
      && r.value.slots == RequestedSlots(q.outputs, q.net)
      && r.value.requested == RequestedDefs(q.outputs, q.net)
      && r.value.phantoms == Phantoms(q.outputs)
      && CallerStage(s, q, r.value.caller, r.value.tokens)
      && HtrNoted(q, r.value)
    ensures r.Err? ==> RequestRefused(s, q, r.error)
  {
    var collected :- CollectOutputs(q.outputs, q.net);
    CollectionIsComplete(q.outputs, q.net);
    var Collection(slots, requested, phantoms, m0) := collected;
    var resolved := ResolveInputs(s, q.inputs, m0);
    if resolved.Err? {
      var k: nat :| FirstRefused(s, m0, q.inputs, k) && resolved.error == InvalidInput([q.inputs[k]]);
      assert FirstCallerRefused(s, q, k);
      return Err(resolved.error);
    }
    ResolutionIsComplete(s, m0, q.inputs);
    var Resolution(caller, m1, requiresFees) := resolved.value;
    CallerStageHolds(s, q, caller, m0, m1);
    var hasHtr := HTR in m1.choose;
    r := Ok(Start(slots, requested, phantoms, caller, WithoutHtr(m1), hasHtr, hasHtr && m1.choose[HTR], requiresFees));
  }

  /** Funding the custom tokens, shielding their change, and the fee of what is visible then. */
  method FundCustom(s: WalletStorage, q: Request, start: Start)
    returns (r: Result<(Funding, seq<DataOutput>, seq<Def>, int), SendError>)
    requires start.slots == RequestedSlots(q.outputs, q.net) && start.phantoms == Phantoms(q.outputs)
    requires start.requested == RequestedDefs(q.outputs, q.net)
    requires CallerStage(s, q, start.caller, start.tokens)
    ensures r.Ok? ==>
      CustomFunded(s, q, start.caller, start.tokens, r.value.0, r.value.1, r.value.2, r.value.3)
    ensures r.Err? ==> CustomRefused(s, q, start.caller, start.tokens, r.error)
  {
    var custom :- PrepareSendManyTokensData(s, Map(start.slots, OutOf()), start.caller, start.tokens, q.changeAddress);
    var stage :- ShieldIfRequested(q, start.requested, custom);
    var feeOutputs := Map(Filter(start.slots, NotPhantom(start.phantoms)), OutOf()) + stage.0;
    var fee := PlanFee(s, start.tokens.order, start.caller + custom.inputs, feeOutputs);
    if fee.Err? {
      FeeStops(s, q, start.caller, start.tokens, custom, stage.0, stage.1);
      return Err(fee.error);
    }
    r := Ok((custom, stage.0, stage.1, fee.value));
  }

  /** Why the custom tokens failed: one could not be funded, the change could not be shielded, or a
      token is unknown. */
  ghost predicate CustomRefused(s: WalletStorage, q: Request, caller: seq<DataInput>, tokens: TokenMap, e: SendError) {
    || OneRefused(s, RequestedOuts(q), caller, tokens, q.changeAddress, e)
    || (exists custom :: ManyFunded(s, RequestedOuts(q), caller, tokens, tokens.order, custom) && ChangeRefused(q, custom, e))
    || (e == UnknownToken && FeeUnknown(s, q, caller, tokens))
  }

  ghost predicate ChangeRefused(q: Request, custom: Funding, e: SendError) {
    CustomShielded(q) && ShieldingRefused(custom.outputs, RequestedDefs(q.outputs, q.net), q.wallet.value, q.net, e)
  }

  /** No record of one of the tokens the outputs name, or of one the fee needs. */
  ghost predicate FeeUnknown(s: WalletStorage, q: Request, caller: seq<DataInput>, tokens: TokenMap) {
    exists custom, kept, defs ::
      && ManyFunded(s, RequestedOuts(q), caller, tokens, tokens.order, custom) && CustomStage(q, custom, kept, defs)
      && NoRecord(s, tokens.order, caller + custom.inputs, ExplicitOuts(q) + kept)
  }

  lemma FeeStops(s: WalletStorage, q: Request, caller: seq<DataInput>, tokens: TokenMap, custom: Funding, kept: seq<DataOutput>, defs: seq<Def>)
    requires ManyFunded(s, RequestedOuts(q), caller, tokens, tokens.order, custom) && CustomStage(q, custom, kept, defs)
    requires NoRecord(s, tokens.order, caller + custom.inputs, ExplicitOuts(q) + kept)
    ensures FeeUnknown(s, q, caller, tokens)
  {
  }

  ghost predicate NoRecord(s: WalletStorage, order: seq<Uid>, inputs: seq<DataInput>, outputs: seq<DataOutput>) {
    var known := KnownTokens(s, order);
    known == None || Fee.FeeResult(inputs, outputs, known.value, []).Err?
  }

  method ShieldIfRequested(q: Request, requested: seq<Def>, custom: Funding)
    returns (r: Result<(seq<DataOutput>, seq<Def>), SendError>)
    requires requested == RequestedDefs(q.outputs, q.net)
    ensures r.Ok? ==> CustomStage(q, custom, r.value.0, r.value.1)
    ensures r.Err? ==> ChangeRefused(q, custom, r.error)
  {
    if q.changeMode.Some? && q.wallet.Some? && |requested| > 0 {
      r := ShieldCustomChange(custom.outputs, requested, q.changeMode.value, q.wallet.value, q.net);
    } else {
      r := Ok((custom.outputs, requested));
    }
  }

  /** `Fee.calculate` with the token records `getTokensByManyIds` finds. */
  method PlanFee(s: WalletStorage, order: seq<Uid>, inputs: seq<DataInput>, outputs: seq<DataOutput>)
    returns (r: Result<int, SendError>)
    ensures r.Ok? ==> r.value >= 0 && Fee.FeeResult(inputs, outputs, s.tokens, []) == Ok(r.value)
    ensures r.Err? ==> r.error == UnknownToken && NoRecord(s, order, inputs, outputs)
  {
    var known := KnownTokens(s, order);
    if known == None {
      return Err(UnknownToken);
    }
    var fee := Fee.Calculate(inputs, outputs, known.value, []);
    if fee.Err? {
      return Err(UnknownToken);
    }
    FeeOfKnown(Map(inputs, Fee.InputElement()), Map(outputs, Fee.OutputElement()), known.value, s.tokens);
    r := Ok(fee.value);
  }

  method SumDefFees(defs: seq<Def>) returns (total: int)
    ensures total == Sum(defs, DefFee())
  {
    total := 0;
    for k := 0 to |defs|
      invariant total == Sum(defs[..k], DefFee())
    {
      assert defs[..k+1] == defs[..k] + [defs[k]];
      SumPush(defs[..k], defs[k], DefFee());
      if defs[k].mode == FullyShielded {
        total := total + FEE_PER_FULL_SHIELDED_OUTPUT;
      } else {
        total := total + FEE_PER_AMOUNT_SHIELDED_OUTPUT;
      }
    }
    assert defs[..|defs|] == defs;
  }

  /** Why HTR failed: it was brought although nothing needs it, or it could not be funded. */
  ghost predicate HtrRefused(s: WalletStorage, q: Request, caller: seq<DataInput>, custom: Funding, kept: seq<DataOutput>, totalFee: int, e: SendError) {
    if BroughtToken(caller, HTR) && !SendsToken(q, HTR) && totalFee == 0 then e == InvalidInput(FirstInput(caller, HTR))
    else
      Refused(s, RequestedOuts(q) + kept, caller + custom.inputs, HTR,
              !BroughtToken(caller, HTR) && (SendsToken(q, HTR) || totalFee > 0), q.changeAddress, totalFee, e)
  }

  /** Funding HTR: requested HTR, the fee of the visible outputs and the fee of the shielded ones. */
  method FundHtr(s: WalletStorage, q: Request, start: Start, custom: Funding, kept: seq<DataOutput>, defs: seq<Def>, fee: int)
    returns (r: Result<(int, bool, Funding), SendError>)
    requires start.slots == RequestedSlots(q.outputs, q.net)
    requires HtrNoted(q, start) && fee >= 0
    ensures r.Ok? ==>
      && r.value.0 == fee + Sum(defs, DefFee())
      && HtrFunded(s, q, start.caller, custom, kept, r.value.0, r.value.1, r.value.2)
    ensures r.Err? ==> HtrRefused(s, q, start.caller, custom, kept, fee + Sum(defs, DefFee()), r.error)
  {
    var shieldedFee := SumDefFees(defs);
    SumNonNegative(defs, DefFee());
    var totalFee := fee + shieldedFee;
    FirstIfBrought(start.caller, HTR);
    if |start.requiresFees| > 0 && totalFee == 0 {
      return Err(InvalidInput(start.requiresFees));
    }
    var chooseHtr := start.chooseHtr;
    if totalFee > 0 && !start.hasHtr {
      chooseHtr := true;
    }
    var outs := Map(start.slots, OutOf());
    var htr :- PrepareSendTokensData(s, outs + kept, start.caller + custom.inputs, HTR, chooseHtr, q.changeAddress, totalFee);
    r := Ok((totalFee, chooseHtr, htr));
  }

  /** The first stage that failed, and why. */
  ghost predicate PlanRefused(s: WalletStorage, q: Request, e: SendError) {
    || RequestRefused(s, q, e)
    || (exists caller, tokens :: CallerStage(s, q, caller, tokens) && CustomRefused(s, q, caller, tokens, e))
    || (exists caller, tokens, custom, kept, defs, fee ::
          CallerStage(s, q, caller, tokens) && CustomFunded(s, q, caller, tokens, custom, kept, defs, fee)
          && NativeRefused(s, q, caller, custom, kept, defs, fee, e))
  }

  /** Why the native stage failed: HTR could not be funded, or its change not be shielded. */
  ghost predicate NativeRefused(s: WalletStorage, q: Request, caller: seq<DataInput>, custom: Funding, kept: seq<DataOutput>,
                                defs: seq<Def>, fee: int, e: SendError) {
    var totalFee := fee + Sum(defs, DefFee());
    || HtrRefused(s, q, caller, custom, kept, totalFee, e)
    || (exists choose, htr ::
          HtrFunded(s, q, caller, custom, kept, totalFee, choose, htr)
          && NativeChangeRefused(s, q, caller, custom, defs, choose, htr, e))
  }

  ghost predicate NativeChangeRefused(s: WalletStorage, q: Request, caller: seq<DataInput>, custom: Funding, defs: seq<Def>,
                                      choose: bool, htr: Funding, e: SendError) {
    && ConversionApplies(htr, defs, q.changeMode, q.wallet)
    && ConversionRefused(s, q.net, q.wallet.value, q.changeMode.value, choose, caller + custom.inputs, htr, defs, e)
  }

  lemma CustomStops(s: WalletStorage, q: Request, caller: seq<DataInput>, tokens: TokenMap, e: SendError)
    requires CallerStage(s, q, caller, tokens) && CustomRefused(s, q, caller, tokens, e)
    ensures PlanRefused(s, q, e)
  {
  }

  lemma NativeStops(s: WalletStorage, q: Request, caller: seq<DataInput>, tokens: TokenMap, custom: Funding,
                    kept: seq<DataOutput>, defs: seq<Def>, fee: int, e: SendError)
    requires CallerStage(s, q, caller, tokens) && CustomFunded(s, q, caller, tokens, custom, kept, defs, fee)
    requires NativeRefused(s, q, caller, custom, kept, defs, fee, e)
    ensures PlanRefused(s, q, e)
  {
  }

  lemma ConversionStops(s: WalletStorage, q: Request, caller: seq<DataInput>, custom: Funding, kept: seq<DataOutput>,
                        defs: seq<Def>, fee: int, choose: bool, htr: Funding, e: SendError)
    requires HtrFunded(s, q, caller, custom, kept, fee + Sum(defs, DefFee()), choose, htr)
    requires NativeChangeRefused(s, q, caller, custom, defs, choose, htr, e)
    ensures NativeRefused(s, q, caller, custom, kept, defs, fee, e)
  {
  }

  /** Funding HTR and shielding its change. */
  method PlanNative(s: WalletStorage, q: Request, start: Start, custom: Funding, kept: seq<DataOutput>, customDefs: seq<Def>, fee: int)
    returns (r: Result<Plan, SendError>, ghost pulled: seq<Utxo>)
    requires start.slots == RequestedSlots(q.outputs, q.net) && HtrNoted(q, start)
    requires fee >= 0
    ensures r.Ok? ==> var p := r.value;
      && p.caller == start.caller && p.tokens == start.tokens && p.custom == custom && p.kept == kept
      && p.customDefs == customDefs && p.fee == fee && p.selectionFee == fee + Sum(customDefs, DefFee())
      && HtrFunded(s, q, start.caller, custom, kept, p.selectionFee, p.chooseHtr, p.htr)
      && HtrStage(s, q, p, pulled)
    ensures r.Err? ==> NativeRefused(s, q, start.caller, custom, kept, customDefs, fee, r.error)
  {
    pulled := [];
    var caller, tokens := start.caller, start.tokens;
    var funded := FundHtr(s, q, start, custom, kept, customDefs, fee);
    if funded.Err? {
      return Err(funded.error), pulled;
    }
    var (selectionFee, chooseHtr, htr) := funded.value;
    var converted;
    converted, pulled := ConvertHtrChangeIfRequested(htr, customDefs, q.changeMode, q.wallet, q.net, s, caller + custom.inputs, chooseHtr);
    if converted.Err? {
      ConversionStops(s, q, caller, custom, kept, customDefs, fee, chooseHtr, htr, converted.error);
      return Err(converted.error), pulled;
    }
    var (final, defs, addedFee) := converted.value;
    r := Ok(Plan(caller, tokens, custom, kept, customDefs, fee, selectionFee, chooseHtr, htr, final, defs, addedFee));
  }

  /** `prepareTxData` up to the final fee. */
  method MakePlan(s: WalletStorage, q: Request) returns (r: Result<Plan, SendError>, ghost pulled: seq<Utxo>)
    ensures r.Ok? ==> Planned(s, q, r.value, pulled)
    ensures r.Err? ==> PlanRefused(s, q, r.error)
  {
    pulled := [];
    var collected := Collect(s, q);
    if collected.Err? {
      return Err(collected.error), pulled;
    }
    var start := collected.value;
    var caller, tokens := start.caller, start.tokens;
    var stage := FundCustom(s, q, start);
    if stage.Err? {
      CustomStops(s, q, caller, tokens, stage.error);
      return Err(stage.error), pulled;
    }
    var (custom, kept, customDefs, fee) := stage.value;
    r, pulled := PlanNative(s, q, start, custom, kept, customDefs, fee);
    if r.Err? {
      NativeStops(s, q, caller, tokens, custom, kept, customDefs, fee, r.error);
    }
  }

  lemma FeeOfKnown(ins: seq<Fee.Element>, outs: seq<Fee.Element>, small: map<Uid, Fee.TokenVersion>, big: map<Uid, Fee.TokenVersion>)
    requires forall t :: t in small ==> t in big && big[t] == small[t]
    requires Fee.ElementsFee(ins, outs, small, []).Ok?
    ensures Fee.ElementsFee(ins, outs, big, []) == Fee.ElementsFee(ins, outs, small, [])
  {
    var order := Fee.FeeTokens(ins, outs, []);
    forall t | t in order
      ensures Fee.FeePerToken(ins, outs, [], small)(t) == Fee.FeePerToken(ins, outs, [], big)(t)
    {
      var k :| 0 <= k < |order| && order[k] == t;
    }
    SumCongruent(order, Fee.FeePerToken(ins, outs, [], small), Fee.FeePerToken(ins, outs, [], big));
  }
}
