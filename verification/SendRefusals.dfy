/** Why a preparation fails, told by the request, the history and the store, and when a native send does
    not (`prepareTxData`, src/new/sendTransaction.ts). */
module SendRefusals {
  import opened Wrappers
  import opened SeqSums
  import opened WalletTypes
  import UtxoStore
  import opened UtxoSelection
  import opened SendModel
  import opened TokenFunding
  import opened ChangeShielding
  import opened SendPlan
  import opened SendBalance
  import opened ShieldedCreation
  import opened TransactionAssembly
  import opened PreparedTransaction
  import opened SendRequests
  import opened FeeSchedule
  import NativeSend
  import Fee

  // ----- what is asked -----

  /** What an output asks for in a token; data cost 1 HTR. */
  function AskedIn(t: Uid): SendOutput -> int {
    (o: SendOutput) =>
      match o
      case DataSend(_) => if t == Uid("00") then 1 else 0
      case ShieldedSend(_, value, token, _, _) => if token == t then value else 0
      case TokenSend(_, value, token, _) => if token == t then value else 0
  }

  predicate AsksIn(o: SendOutput, t: Uid) {
    (o.DataSend? && t == Uid("00")) || (o.ShieldedSend? && o.token == t) || (o.TokenSend? && o.token == t)
  }

  function IsShieldedSend(): SendOutput -> bool { (o: SendOutput) => o.ShieldedSend? }

  /** What the free funds of a token are worth. */
  ghost function Funds(s: WalletStorage, t: Uid): int {
    Sum(Filter(s.funds.store.utxos, UsableFunds(s.funds, t)), UtxoValue())
  }

  lemma AskedSum(q: Request, t: Uid)
    ensures Sum(RequestedOuts(q), ValueOut(t)) == Sum(q.outputs, AskedIn(t))
  {
    SumPointwise(RequestedOuts(q), q.outputs, ValueOut(t), AskedIn(t));
  }

  lemma NamesIsAsks(q: Request, t: Uid)
    ensures Names(q.outputs, t) <==> exists o :: o in q.outputs && AsksIn(o, t)
  {
    if Names(q.outputs, t) {
      var k :| 0 <= k < |q.outputs| && TokenOf(q.outputs[k]) == t;
      assert q.outputs[k] in q.outputs && AsksIn(q.outputs[k], t);
    }
    if o :| o in q.outputs && AsksIn(o, t) {
      var k :| 0 <= k < |q.outputs| && q.outputs[k] == o;
      assert TokenOf(q.outputs[k]) == t;
    }
  }

  // ----- the native send -----

  /** Data and HTR for standard addresses, worth something, no caller input, a change address of the
      wallet if any, and no shielded utxo in the store. */
  ghost predicate PlainHtrSend(s: WalletStorage, q: Request) {
    && q.inputs == []
    && (forall o :: o in q.outputs ==>
          o.DataSend? || (o.TokenSend? && o.token == Uid("00") && q.net.kind(o.address) in {P2PKH, P2SH}))
    && Sum(q.outputs, AskedIn(Uid("00"))) > 0
    && (forall a :: q.changeAddress == Some(a) && a != "" ==> a in s.mine)
    && (forall u :: u in s.funds.store.utxos ==> !u.shielded)
  }

  lemma PlainIsNative(s: WalletStorage, q: Request)
    requires PlainHtrSend(s, q)
    ensures NativeSend.IsNativeSend(s, q)
  {
    AskedSum(q, HTR);
    forall k | 0 <= k < |q.outputs|
      ensures OutputAccepted(q.outputs[k], q.net) && !q.outputs[k].ShieldedSend? && TokenOf(q.outputs[k]) == HTR
    {
      assert q.outputs[k] in q.outputs;
    }
  }

  lemma NativeIsPlain(s: WalletStorage, q: Request)
    requires NativeSend.IsNativeSend(s, q)
    ensures PlainHtrSend(s, q)
  {
    AskedSum(q, HTR);
    HomeIsOwn(s, q);
  }

  /** Such a send is the native send that succeeds exactly when the available HTR covers it; what covers
      it are the utxos free to spend. */
  lemma NativeMeans(s: WalletStorage, q: Request)
    ensures PlainHtrSend(s, q) <==> NativeSend.IsNativeSend(s, q)
    ensures NativeSend.AvailableHtr(s) >= NativeSend.Requested(q) <==> Funds(s, Uid("00")) >= Sum(q.outputs, AskedIn(Uid("00")))
  {
    AskedSum(q, HTR);
    AvailableIsUsable(s.funds, HTR, UtxoStore.Descending);
    if PlainHtrSend(s, q) {
      PlainIsNative(s, q);
    }
    if NativeSend.IsNativeSend(s, q) {
      NativeIsPlain(s, q);
    }
  }

  // ----- refusals -----

  predicate BadMode(o: SendOutput) { o.ShieldedSend? && o.shieldedMode != 1 && o.shieldedMode != 2 }

  predicate NoShieldedAddress(net: Network, o: SendOutput) { o.ShieldedSend? && net.kind(o.address) != Shielded }

  predicate NoStandardAddress(net: Network, o: SendOutput) {
    || (o.TokenSend? && net.kind(o.address) !in {P2PKH, P2SH})
    || (o.ShieldedSend? && net.kind(net.spendAddress(o.address)) !in {P2PKH, P2SH})
  }

  /** Change is to be shielded, and something else is. */
  predicate ChangeIsShielded(q: Request) {
    q.changeMode.Some? && q.wallet.Some? && exists o :: o in q.outputs && o.ShieldedSend?
  }

  /** The history has the output, decoded if it is shielded, and the input repeats it. */
  ghost predicate Repeats(s: WalletStorage, id: UtxoId, i: DataInput) {
    && i.id == id && id.txId in s.txs
    && var t := s.txs[id.txId];
       if 0 <= id.index < |t.outputs| then
         && i.value == t.outputs[id.index].value && i.token == t.outputs[id.index].token
         && i.address == (if t.outputs[id.index].address.Some? then t.outputs[id.index].address.value else "")
         && i.authorities == if t.outputs[id.index].tokenData / 128 % 2 == 1 then t.outputs[id.index].value % 4 else 0
       else
         && |t.outputs| <= id.index < |t.outputs| + |t.shielded|
         && var x := t.shielded[id.index - |t.outputs|];
            x.value == Some(i.value) && x.token == Some(i.token) && x.address == Some(i.address) && i.authorities == 0
  }

  ghost predicate RepeatAll(s: WalletStorage, ids: seq<UtxoId>, ins: seq<DataInput>) {
    |ins| == |ids| && forall k :: 0 <= k < |ids| ==> Repeats(s, ids[k], ins[k])
  }

  /** What each error says of the request and the wallet. */
  ghost predicate True(s: WalletStorage, q: Request, e: SendError) {
    match e
    case StorageNotSet => false
    case InvalidShieldedMode => exists o :: o in q.outputs && BadMode(o)
    case NotAShieldedAddress =>
      || (exists o :: o in q.outputs && NoShieldedAddress(q.net, o))
      || (ChangeIsShielded(q) && q.net.kind(q.wallet.value.shieldedAddress) != Shielded)
    case InvalidAddress => exists o :: o in q.outputs && NoStandardAddress(q.net, o)
    case InvalidInput(ids) =>
      exists id :: id in q.inputs && ids == [id] && forall i :: Repeats(s, id, i) ==> forall o :: o in q.outputs ==> !AsksIn(o, i.token)
    case InputUnusable(id) => id in q.inputs && forall i :: !AsRecorded(s, id, i)
    case InvalidAmount => exists t :: (exists o :: o in q.outputs && AsksIn(o, t)) && Sum(q.outputs, AskedIn(t)) <= 0
    case InsufficientTokens(t) =>
      if t == Uid("00") then exists fee: nat :: ShortBy(s, q, t, fee) else ShortBy(s, q, t, 0)
    case OutputsExceedInputs(t) =>
      exists ins :: RepeatAll(s, q.inputs, ins) && if t == Uid("00") then exists fee: nat :: Exceeds(q, ins, t, fee) else Exceeds(q, ins, t, 0)
    case ChangeAddressNotMine => exists a :: q.changeAddress == Some(a) && a != "" && a !in s.mine
    case UnknownToken => exists t :: t != Uid("00") && t !in s.tokens && exists o :: o in q.outputs && AsksIn(o, t)
    case TooManyShieldedOutputs => ChangeIsShielded(q) || Count(q.outputs, IsShieldedSend()) > 32
    case LoneShieldedOutput => Count(q.outputs, IsShieldedSend()) == 1
    case ChangeTooSmall => ChangeIsShielded(q)
    case NoHtrForShieldedChange => ChangeIsShielded(q)
    case MissingBlindingFactor => exists u :: u in s.funds.store.utxos && u.shielded && u.blindingFactor == None
    case CryptoProviderNotSet =>
      s.provider == None && ((exists o :: o in q.outputs && o.ShieldedSend?) || exists u :: u in s.funds.store.utxos && u.shielded)
    case ShieldedCreationFailed => s.provider.Some? && exists o :: o in q.outputs && o.ShieldedSend?
  }

  /** The free funds do not cover what is asked, and the fee. */
  ghost predicate ShortBy(s: WalletStorage, q: Request, t: Uid, fee: int) {
    var target := fee + Sum(q.outputs, AskedIn(t));
    target > 0 ==> Funds(s, t) < target
  }

  /** The given inputs do not cover what is asked, and the fee. */
  ghost predicate Exceeds(q: Request, ins: seq<DataInput>, t: Uid, fee: int) {
    Sum(ins, ValueIn(t)) < fee + Sum(q.outputs, AskedIn(t))
  }

  lemma RepeatsResolved(s: WalletStorage, id: UtxoId, i: DataInput)
    ensures Repeats(s, id, i) <==> InputFor(s, id) == Some(i)
  {
  }

  lemma OutputRefusedTrue(s: WalletStorage, q: Request, e: SendError)
    requires OutputRefused(q.outputs, q.net, e)
    ensures True(s, q, e)
  {
    var k :| 0 <= k < |q.outputs| && !OutputAccepted(q.outputs[k], q.net) && e == OutputError(q.outputs[k], q.net);
    var o := q.outputs[k];
    assert o in q.outputs;
    assert (e == InvalidShieldedMode ==> BadMode(o)) && (e == NotAShieldedAddress ==> NoShieldedAddress(q.net, o));
    assert e == SendError.InvalidAddress ==> NoStandardAddress(q.net, o);
  }

  lemma RequestRefusedTrue(s: WalletStorage, q: Request, e: SendError)
    requires RequestRefused(s, q, e)
    ensures True(s, q, e)
  {
    if OutputRefused(q.outputs, q.net, e) {
      OutputRefusedTrue(s, q, e);
    } else {
      var k: nat :| FirstCallerRefused(s, q, k) && e == InvalidInput([q.inputs[k]]);
      var id := q.inputs[k];
      forall i, o | Repeats(s, id, i) && o in q.outputs ensures !AsksIn(o, i.token) {
        RepeatsResolved(s, id, i);
        NamesIsAsks(q, i.token);
        NamesIsAsks(q, HTR);
      }
      assert id in q.inputs;
    }
  }

  lemma HomeIsOwn(s: WalletStorage, q: Request)
    ensures ChangeAddressFor(s, q.changeAddress) == None <==> exists a :: q.changeAddress == Some(a) && a != "" && a !in s.mine
  {
  }

  /** A selection for what is asked in a token, and the fee, failed for a true reason. */
  lemma SelectionRefusedTrue(s: WalletStorage, q: Request, t: Uid, fee: int, e: SendError)
    requires fee >= 0 && (t != HTR ==> fee == 0) && (Names(q.outputs, t) || fee + Sum(q.outputs, AskedIn(t)) != 0)
    requires SelectionRefused(s, t, fee + Sum(q.outputs, AskedIn(t)), q.changeAddress, e)
    ensures True(s, q, e)
  {
    match e
    case InvalidAmount => NamesIsAsks(q, t);
    case InsufficientTokens(_) =>
      AvailableIsUsable(s.funds, t, UtxoStore.Descending);
      assert ShortBy(s, q, t, fee);
    case ChangeAddressNotMine => HomeIsOwn(s, q);
  }

  lemma CallerRepeats(s: WalletStorage, q: Request, caller: seq<DataInput>)
    requires ResolvedInputs(s, q.inputs, caller)
    ensures RepeatAll(s, q.inputs, caller)
  {
    forall k | 0 <= k < |q.inputs| ensures Repeats(s, q.inputs[k], caller[k]) {
      RepeatsResolved(s, q.inputs[k], caller[k]);
    }
  }

  lemma UnusableIsUnrecorded(s: WalletStorage, q: Request, caller: seq<DataInput>, i: DataInput)
    requires ResolvedInputs(s, q.inputs, caller) && i in caller && !(UnspentAndMine(s, i, i.token) && CanUse(s, i.id))
    ensures True(s, q, InputUnusable(i.id))
  {
    var k :| 0 <= k < |caller| && caller[k] == i;
    RepeatsResolved(s, q.inputs[k], i);
    assert q.inputs[k] in q.inputs && q.inputs[k] == i.id;
    forall j ensures !AsRecorded(s, i.id, j) {
      ResolvedIsRecorded(s, i.id, j);
    }
  }

  /** So did the check of the given inputs; `inputs` are the caller's and others of other tokens. */
  lemma InputsRefusedTrue(s: WalletStorage, q: Request, caller: seq<DataInput>, inputs: seq<DataInput>, t: Uid, fee: int, e: SendError)
    requires ResolvedInputs(s, q.inputs, caller) && fee >= 0 && (t != HTR ==> fee == 0)
    requires (forall i :: i in inputs && i.token == t ==> i in caller) && Sum(inputs, ValueIn(t)) == Sum(caller, ValueIn(t))
    requires InputsRefused(s, inputs, t, fee + Sum(q.outputs, AskedIn(t)), q.changeAddress, e)
    ensures True(s, q, e)
  {
    match e
    case InputUnusable(id) =>
      var i :| i in inputs && i.token == t && i.id == id && !(UnspentAndMine(s, i, t) && CanUse(s, i.id));
      UnusableIsUnrecorded(s, q, caller, i);
    case OutputsExceedInputs(_) =>
      CallerRepeats(s, q, caller);
      assert Exceeds(q, caller, t, fee);
    case ChangeAddressNotMine => HomeIsOwn(s, q);
  }

  lemma {:induction false} DefsCount(outputs: seq<SendOutput>, net: Network)
    ensures |RequestedDefs(outputs, net)| == Count(outputs, IsShieldedSend())
    ensures RequestedDefs(outputs, net) != [] ==> exists o :: o in outputs && o.ShieldedSend?
  {
    if outputs != [] {
      var init, last := outputs[..|outputs| - 1], outputs[|outputs| - 1];
      assert outputs == init + [last];
      DefsCount(init, net);
      SumPush(init, last, One(IsShieldedSend()));
      assert last in outputs && forall o :: o in init ==> o in outputs;
    }
  }

  /** The tokens of the custom stage are custom ones that outputs ask for. */
  lemma ChosenAreNamed(s: WalletStorage, q: Request, caller: seq<DataInput>, tokens: TokenMap, t: Uid)
    requires CallerStage(s, q, caller, tokens) && t in tokens.choose
    ensures t != HTR && Names(q.outputs, t)
  {
  }

  lemma OneRefusedTrue(s: WalletStorage, q: Request, caller: seq<DataInput>, tokens: TokenMap, e: SendError)
    requires CallerStage(s, q, caller, tokens) && OneRefused(s, RequestedOuts(q), caller, tokens, q.changeAddress, e)
    ensures True(s, q, e)
  {
    var t :| t in tokens.choose && Refused(s, RequestedOuts(q), caller, t, tokens.choose[t], q.changeAddress, 0, e);
    OneTokenTrue(s, q, caller, tokens, t, e);
  }

  lemma OneTokenTrue(s: WalletStorage, q: Request, caller: seq<DataInput>, tokens: TokenMap, t: Uid, e: SendError)
    requires CallerStage(s, q, caller, tokens) && t in tokens.choose
    requires Refused(s, RequestedOuts(q), caller, t, tokens.choose[t], q.changeAddress, 0, e)
    ensures True(s, q, e)
  {
    ChosenAreNamed(s, q, caller, tokens, t);
    AskedSum(q, t);
    if tokens.choose[t] {
      SelectionRefusedTrue(s, q, t, 0, e);
    } else {
      InputsRefusedTrue(s, q, caller, caller, t, 0, e);
    }
  }

  lemma ShieldedIsAsked(q: Request)
    requires CustomShielded(q)
    ensures ChangeIsShielded(q)
  {
    DefsCount(q.outputs, q.net);
  }

  /** Every custom token the fee is computed for is one that outputs ask for. */
  lemma FeeTokensAreNamed(s: WalletStorage, q: Request, caller: seq<DataInput>, tokens: TokenMap, custom: Funding,
                          kept: seq<DataOutput>, defs: seq<Def>, t: Uid)
    requires CallerStage(s, q, caller, tokens) && CustomStage(q, custom, kept, defs)
    requires ManyFunded(s, RequestedOuts(q), caller, tokens, tokens.order, custom)
    requires t != HTR && Touches(caller + custom.inputs, ExplicitOuts(q) + kept, [], t)
    ensures t in tokens.order && Names(q.outputs, t)
  {
    if i :| i in caller + custom.inputs && i.token == t && i.authorities == 0 {
      assert i in caller || i in custom.inputs;
    } else {
      var o :| o in ExplicitOuts(q) + kept && o.token == t && o.authorities == 0;
      if o in ExplicitOuts(q) {
        ExplicitIsNamed(q, o);
      } else {
        KeptFromCustom(q, custom, kept, defs);
      }
    }
  }

  lemma ExplicitIsNamed(q: Request, o: DataOutput)
    requires o in ExplicitOuts(q)
    ensures Names(q.outputs, o.token)
  {
    var slots := ExplicitSlots(q);
    var k :| 0 <= k < |slots| && slots[k].out == o;
    assert slots[k] in slots;
    assert slots[k] in RequestedSlots(q.outputs, q.net);
    var j :| 0 <= j < |q.outputs| && RequestedSlots(q.outputs, q.net)[j] == slots[k];
    assert TokenOf(q.outputs[j]) == o.token;
  }

  lemma UnknownTrue(s: WalletStorage, q: Request, caller: seq<DataInput>, tokens: TokenMap)
    requires CallerStage(s, q, caller, tokens) && FeeUnknown(s, q, caller, tokens)
    ensures True(s, q, UnknownToken)
  {
    var custom, kept, defs :|
      && ManyFunded(s, RequestedOuts(q), caller, tokens, tokens.order, custom) && CustomStage(q, custom, kept, defs)
      && NoRecord(s, tokens.order, caller + custom.inputs, ExplicitOuts(q) + kept);
    var t := UnknownOne(s, q, caller, tokens, custom, kept, defs);
    ChosenAreNamed(s, q, caller, tokens, t);
    NamesIsAsks(q, t);
  }

  /** A token without a record. */
  lemma UnknownOne(s: WalletStorage, q: Request, caller: seq<DataInput>, tokens: TokenMap, custom: Funding,
                   kept: seq<DataOutput>, defs: seq<Def>) returns (t: Uid)
    requires CallerStage(s, q, caller, tokens) && CustomStage(q, custom, kept, defs)
    requires ManyFunded(s, RequestedOuts(q), caller, tokens, tokens.order, custom)
    requires NoRecord(s, tokens.order, caller + custom.inputs, ExplicitOuts(q) + kept)
    ensures t in tokens.choose && t !in s.tokens
  {
    var known := KnownTokens(s, tokens.order);
    if known == None {
      var k :| 0 <= k < |tokens.order| && tokens.order[k] !in s.tokens;
      t := tokens.order[k];
    } else {
      FeeNeedsVersions(caller + custom.inputs, ExplicitOuts(q) + kept, [], known.value);
      var u: Uid :| u != HTR && Touches(caller + custom.inputs, ExplicitOuts(q) + kept, [], u) && u !in known.value;
      FeeTokensAreNamed(s, q, caller, tokens, custom, kept, defs, u);
      t := u;
    }
  }

  lemma CustomRefusedTrue(s: WalletStorage, q: Request, caller: seq<DataInput>, tokens: TokenMap, e: SendError)
    requires CallerStage(s, q, caller, tokens) && CustomRefused(s, q, caller, tokens, e)
    ensures True(s, q, e)
  {
    if OneRefused(s, RequestedOuts(q), caller, tokens, q.changeAddress, e) {
      OneRefusedTrue(s, q, caller, tokens, e);
    } else if e == UnknownToken && FeeUnknown(s, q, caller, tokens) {
      UnknownTrue(s, q, caller, tokens);
    } else {
      var custom :| ManyFunded(s, RequestedOuts(q), caller, tokens, tokens.order, custom) && ChangeRefused(q, custom, e);
      ChangeRefusedTrue(s, q, custom, e);
    }
  }

  lemma ChangeRefusedTrue(s: WalletStorage, q: Request, custom: Funding, e: SendError)
    requires ChangeRefused(q, custom, e)
    ensures True(s, q, e)
  {
    ShieldedIsAsked(q);
  }

  // ----- the native stage -----

  lemma HtrRefusedTrue(s: WalletStorage, q: Request, caller: seq<DataInput>, tokens: TokenMap, custom: Funding, kept: seq<DataOutput>,
                       fee: int, e: SendError)
    requires CallerStage(s, q, caller, tokens) && AddsOnly(s, tokens, tokens.order, custom) && fee >= 0
    requires forall o :: o in kept ==> o in custom.outputs
    requires HtrRefused(s, q, caller, custom, kept, fee, e)
    ensures True(s, q, e)
  {
    if BroughtToken(caller, HTR) && !SendsToken(q, HTR) && fee == 0 {
      IdleHtrTrue(s, q, caller, e);
    } else {
      HtrTarget(s, q, caller, tokens, custom, kept);
      if !BroughtToken(caller, HTR) && (SendsToken(q, HTR) || fee > 0) {
        HtrIsWanted(q, fee);
        SelectionRefusedTrue(s, q, HTR, fee, e);
      } else {
        InputsRefusedTrue(s, q, caller, caller + custom.inputs, HTR, fee, e);
      }
    }
  }

  lemma HtrIsWanted(q: Request, fee: int)
    requires SendsToken(q, HTR) || fee > 0
    ensures Names(q.outputs, HTR) || fee + Sum(q.outputs, AskedIn(HTR)) != 0
  {
    if !Names(q.outputs, HTR) {
      RequestedToken(q, HTR);
      AskedSum(q, HTR);
    }
  }

  lemma HtrTarget(s: WalletStorage, q: Request, caller: seq<DataInput>, tokens: TokenMap, custom: Funding, kept: seq<DataOutput>)
    requires CallerStage(s, q, caller, tokens) && AddsOnly(s, tokens, tokens.order, custom)
    requires forall o :: o in kept ==> o in custom.outputs
    ensures Sum(RequestedOuts(q) + kept, ValueOut(HTR)) == Sum(q.outputs, AskedIn(HTR))
    ensures Sum(caller + custom.inputs, ValueIn(HTR)) == Sum(caller, ValueIn(HTR))
    ensures forall i :: i in caller + custom.inputs && i.token == HTR ==> i in caller
  {
    AskedSum(q, HTR);
    ChangeHasToken(s, tokens, tokens.order, custom, HTR);
    SumZero(kept, ValueOut(HTR));
    SumAppend(RequestedOuts(q), kept, ValueOut(HTR));
    SumAppend(caller, custom.inputs, ValueIn(HTR));
  }

  lemma {:induction false} FirstIsOne(ins: seq<DataInput>, t: Uid) returns (i: DataInput)
    requires BroughtToken(ins, t)
    ensures i in ins && i.token == t && FirstInput(ins, t) == [i.id]
  {
    var init, last := ins[..|ins| - 1], ins[|ins| - 1];
    assert ins == init + [last];
    FirstIfBrought(init, t);
    if BroughtToken(init, t) {
      i := FirstIsOne(init, t);
    } else {
      i := last;
      var j :| j in ins && j.token == t;
      assert j in init || j == last;
    }
  }

  /** HTR was brought that nothing needs. */
  lemma IdleHtrTrue(s: WalletStorage, q: Request, caller: seq<DataInput>, e: SendError)
    requires ResolvedInputs(s, q.inputs, caller) && BroughtToken(caller, HTR) && !SendsToken(q, HTR)
    requires e == InvalidInput(FirstInput(caller, HTR))
    ensures True(s, q, e)
  {
    var i := FirstIsOne(caller, HTR);
    var k :| 0 <= k < |caller| && caller[k] == i;
    RepeatsResolved(s, q.inputs[k], i);
    assert q.inputs[k] in q.inputs && e == InvalidInput([q.inputs[k]]);
    forall j, o | Repeats(s, q.inputs[k], j) && o in q.outputs ensures !AsksIn(o, j.token) {
      RepeatsResolved(s, q.inputs[k], j);
      NamesIsAsks(q, HTR);
    }
  }

  lemma ShieldedBefore(q: Request, custom: Funding, kept: seq<DataOutput>, defs: seq<Def>)
    requires CustomStage(q, custom, kept, defs)
    ensures defs != [] ==> exists o :: o in q.outputs && o.ShieldedSend?
    ensures |defs| >= Count(q.outputs, IsShieldedSend())
    ensures !ChangeIsShielded(q) ==> |defs| == Count(q.outputs, IsShieldedSend())
  {
    DefsCount(q.outputs, q.net);
    if CustomShielded(q) {
      ShieldedIsAsked(q);
    }
  }

  lemma NativeRefusedTrue(s: WalletStorage, q: Request, caller: seq<DataInput>, tokens: TokenMap, custom: Funding, kept: seq<DataOutput>,
                          defs: seq<Def>, fee: int, e: SendError)
    requires CallerStage(s, q, caller, tokens) && CustomFunded(s, q, caller, tokens, custom, kept, defs, fee)
    requires NativeRefused(s, q, caller, custom, kept, defs, fee, e)
    ensures True(s, q, e)
  {
    if HtrRefused(s, q, caller, custom, kept, fee + Sum(defs, DefFee()), e) {
      FundingHtrTrue(s, q, caller, tokens, custom, kept, defs, fee, e);
    } else {
      ConversionRefusedTrue(s, q, caller, custom, defs, fee, kept, e);
    }
  }

  lemma FundingHtrTrue(s: WalletStorage, q: Request, caller: seq<DataInput>, tokens: TokenMap, custom: Funding, kept: seq<DataOutput>,
                       defs: seq<Def>, fee: int, e: SendError)
    requires CallerStage(s, q, caller, tokens) && AddsOnly(s, tokens, tokens.order, custom) && CustomStage(q, custom, kept, defs)
    requires fee >= 0 && HtrRefused(s, q, caller, custom, kept, fee + Sum(defs, DefFee()), e)
    ensures True(s, q, e)
  {
    KeptFromCustom(q, custom, kept, defs);
    SumNonNegative(defs, DefFee());
    HtrRefusedTrue(s, q, caller, tokens, custom, kept, fee + Sum(defs, DefFee()), e);
  }

  lemma ConversionRefusedTrue(s: WalletStorage, q: Request, caller: seq<DataInput>, custom: Funding, defs: seq<Def>, fee: int,
                              kept: seq<DataOutput>, e: SendError)
    requires CustomStage(q, custom, kept, defs)
    requires exists choose, htr ::
      HtrFunded(s, q, caller, custom, kept, fee + Sum(defs, DefFee()), choose, htr)
      && NativeChangeRefused(s, q, caller, custom, defs, choose, htr, e)
    ensures True(s, q, e)
  {
    var choose, htr :|
      HtrFunded(s, q, caller, custom, kept, fee + Sum(defs, DefFee()), choose, htr)
      && NativeChangeRefused(s, q, caller, custom, defs, choose, htr, e);
    ShieldedBefore(q, custom, kept, defs);
    ChangeStepTrue(s, q, caller, custom, defs, choose, htr, e);
  }

  lemma ChangeStepTrue(s: WalletStorage, q: Request, caller: seq<DataInput>, custom: Funding, defs: seq<Def>,
                       choose: bool, htr: Funding, e: SendError)
    requires defs != [] ==> exists o :: o in q.outputs && o.ShieldedSend?
    requires NativeChangeRefused(s, q, caller, custom, defs, choose, htr, e)
    ensures True(s, q, e)
  {
    assert ChangeIsShielded(q);
  }

  lemma PlanRefusedTrue(s: WalletStorage, q: Request, e: SendError)
    requires PlanRefused(s, q, e)
    ensures True(s, q, e)
  {
    if RequestRefused(s, q, e) {
      RequestRefusedTrue(s, q, e);
    } else if caller, tokens :| CallerStage(s, q, caller, tokens) && CustomRefused(s, q, caller, tokens, e) {
      CustomRefusedTrue(s, q, caller, tokens, e);
    } else {
      var caller, tokens, custom, kept, defs, fee :|
        && CallerStage(s, q, caller, tokens) && CustomFunded(s, q, caller, tokens, custom, kept, defs, fee)
        && NativeRefused(s, q, caller, custom, kept, defs, fee, e);
      NativeRefusedTrue(s, q, caller, tokens, custom, kept, defs, fee, e);
    }
  }

  // ----- the assembly -----

  /** The definitions of a plan: those asked for, and change only where it is to be shielded. */
  lemma PlannedDefs(s: WalletStorage, q: Request, p: Plan, pulled: seq<Utxo>)
    requires Planned(s, q, p, pulled)
    ensures p.defs != [] ==> exists o :: o in q.outputs && o.ShieldedSend?
    ensures |p.defs| >= Count(q.outputs, IsShieldedSend())
    ensures !ChangeIsShielded(q) ==> |p.defs| == Count(q.outputs, IsShieldedSend())
  {
    ShieldedBefore(q, p.custom, p.kept, p.customDefs);
  }

  lemma AssemblyRefusedTrue(s: WalletStorage, q: Request, p: Plan, pulled: seq<Utxo>, e: SendError)
    requires Planned(s, q, p, pulled) && AssemblyRefused(s, q, p, e)
    ensures True(s, q, e)
  {
    if e == MissingBlindingFactor && exists i :: i in PlanInputs(p) && IsBlinded(s)(i) && UtxoOf(s, i).value.blindingFactor == None {
      MissingTrue(s, q, PlanInputs(p));
    } else if CreationRefused(s, q.net, PlanInputs(p), p.defs, e) {
      PlannedDefs(s, q, p, pulled);
      CreationRefusedTrue(s, q, PlanInputs(p), p.defs, e);
    } else {
      BlindedIsStored(s, PlanInputs(p));
    }
  }

  lemma MissingTrue(s: WalletStorage, q: Request, inputs: seq<DataInput>)
    requires exists i :: i in inputs && IsBlinded(s)(i) && UtxoOf(s, i).value.blindingFactor == None
    ensures True(s, q, MissingBlindingFactor)
  {
    var i :| i in inputs && IsBlinded(s)(i) && UtxoOf(s, i).value.blindingFactor == None;
    assert UtxoOf(s, i).value in s.funds.store.utxos;
  }

  lemma CreationRefusedTrue(s: WalletStorage, q: Request, inputs: seq<DataInput>, defs: seq<Def>, e: SendError)
    requires CreationRefused(s, q.net, inputs, defs, e)
    requires defs != [] ==> exists o :: o in q.outputs && o.ShieldedSend?
    requires |defs| >= Count(q.outputs, IsShieldedSend())
    requires !ChangeIsShielded(q) ==> |defs| == Count(q.outputs, IsShieldedSend())
    ensures True(s, q, e)
  {
    if e == LoneShieldedOutput {
      LoneIsAsked(q, defs);
    }
  }

  lemma LoneIsAsked(q: Request, defs: seq<Def>)
    requires |defs| == 1 && |defs| >= Count(q.outputs, IsShieldedSend())
    requires exists o :: o in q.outputs && o.ShieldedSend?
    ensures Count(q.outputs, IsShieldedSend()) == 1
  {
    var o :| o in q.outputs && o.ShieldedSend?;
    assert One(IsShieldedSend())(o) > 0;
    SumPositive(q.outputs, One(IsShieldedSend()));
  }

  lemma BlindedIsStored(s: WalletStorage, inputs: seq<DataInput>)
    requires Blinded(s, inputs) != []
    ensures exists u :: u in s.funds.store.utxos && u.shielded
  {
    var kept := Filter(inputs, IsBlinded(s));
    assert kept[0] in kept;
    assert UtxoOf(s, kept[0]).value in s.funds.store.utxos;
  }

  /** Whatever error the preparation ends with says something true of the request and the wallet. */
  lemma RefusalIsTrue(s: WalletStorage, q: Request, e: SendError)
    requires PreparationRefused(s, q, e)
    ensures True(s, q, e)
  {
    if PlanRefused(s, q, e) {
      PlanRefusedTrue(s, q, e);
    } else {
      var p, pulled :| Planned(s, q, p, pulled) && AssemblyRefused(s, q, p, e);
      AssemblyRefusedTrue(s, q, p, pulled, e);
    }
  }
}
