/** The prepared data told from the request alone: what every requested output became, what the inputs
    are and where the change goes, in the fields of the requests, of the wallet's history and of its
    utxos (`prepareTxData`, src/new/sendTransaction.ts). */
module SendRequests {
  import opened Wrappers
  import opened SeqSums
  import opened WalletTypes
  import UtxoStore
  import opened SendModel
  import opened TokenFunding
  import opened SendPlan
  import opened SendBalance
  import opened ShieldedCreation
  import opened TransactionAssembly
  import opened PreparedTransaction
  import Fee
  import opened FeeSchedule

  // ----- requested and paid, counted alike -----

  /** The timelock that is written: zero is none. */
  predicate SameLock(asked: Option<nat>, written: Option<nat>) {
    written == asked || (asked == Some(0) && written == None)
  }

  predicate AsksPayment(o: SendOutput, address: string, value: int, token: Uid, lock: Option<nat>) {
    o.TokenSend? && o.address == address && o.value == value && o.token == token && SameLock(o.timelock, lock)
  }

  predicate IsPayment(o: DataOutput, address: string, value: int, token: Uid, lock: Option<nat>) {
    && !o.isChange && o.kind == AddressOutput && o.authorities == 0
    && o.address == address && o.value == value && o.token == token && o.timelock == lock
  }

  function Payment(address: string, value: int, token: Uid, lock: Option<nat>): DataOutput -> bool {
    (o: DataOutput) => IsPayment(o, address, value, token, lock)
  }

  function PaymentAsked(address: string, value: int, token: Uid, lock: Option<nat>): SendOutput -> bool {
    (o: SendOutput) => AsksPayment(o, address, value, token, lock)
  }

  /** For every address, value, token and timelock there are as many payments as requests for them. */
  ghost predicate PaymentsAsAsked(q: Request, outputs: seq<DataOutput>) {
    forall address, value, token: Uid, lock: Option<nat> :: lock != Some(0) ==>
      Count(outputs, Payment(address, value, token, lock)) == Count(q.outputs, PaymentAsked(address, value, token, lock))
  }

  /** What is paid to an address in a token under a timelock. */
  function PaidTo(address: string, token: Uid, lock: Option<nat>): DataOutput -> int {
    (o: DataOutput) => if IsPayment(o, address, o.value, token, lock) then o.value else 0
  }

  function AskedFor(address: string, token: Uid, lock: Option<nat>): SendOutput -> int {
    (o: SendOutput) => if o.TokenSend? && AsksPayment(o, address, o.value, token, lock) then o.value else 0
  }

  ghost predicate WorthAsAsked(q: Request, outputs: seq<DataOutput>) {
    forall address, token: Uid, lock: Option<nat> :: lock != Some(0) ==>
      Sum(outputs, PaidTo(address, token, lock)) == Sum(q.outputs, AskedFor(address, token, lock))
  }

  /** An output of 1 HTR that carries data. */
  function DataKept(data: string): DataOutput -> bool {
    (o: DataOutput) => o == DataOutput(DataScript, 1, Uid("00"), 0, data, None, false)
  }

  function DataAsked(data: string): SendOutput -> bool { (o: SendOutput) => o == DataSend(data) }

  ghost predicate DataAsAsked(q: Request, outputs: seq<DataOutput>) {
    forall data :: Count(outputs, DataKept(data)) == Count(q.outputs, DataAsked(data))
  }

  function Requested(): DataOutput -> bool { (o: DataOutput) => !o.isChange }

  function Transparent(): SendOutput -> bool { (o: SendOutput) => !o.ShieldedSend? }

  /** Every payment and data output is asked for, and nothing but change is added. */
  ghost predicate OutputsAsAsked(q: Request, outputs: seq<DataOutput>) {
    && PaymentsAsAsked(q, outputs) && WorthAsAsked(q, outputs) && DataAsAsked(q, outputs)
    && Count(outputs, Requested()) == Count(q.outputs, Transparent())
  }

  /** The output made for a request counts as what the request asks for. */
  ghost predicate CountsAs(net: Network, f: DataOutput -> int, g: SendOutput -> int) {
    forall o :: g(o) == if o.ShieldedSend? then 0 else f(RequestedOutput(o, net))
  }

  lemma {:induction false} ExplicitSum(outputs: seq<SendOutput>, net: Network, f: DataOutput -> int, g: SendOutput -> int)
    requires CountsAs(net, f, g)
    ensures Sum(Map(Filter(RequestedSlots(outputs, net), NotPhantom(Phantoms(outputs))), OutOf()), f) == Sum(outputs, g)
  {
    if outputs != [] {
      var n := |outputs| - 1;
      var init, last := outputs[..n], outputs[n];
      ExplicitSum(init, net, f, g);
      assert outputs == init + [last];
      SumPush(init, last, g);
      ExplicitPush(outputs, net);
      var outs := Map(Filter(RequestedSlots(init, net), NotPhantom(Phantoms(init))), OutOf());
      if !last.ShieldedSend? {
        SumPush(outs, RequestedOutput(last, net), f);
      } else {
        assert outs + [] == outs;
      }
    }
  }

  /** What the last request adds to the explicit outputs. */
  lemma ExplicitPush(outputs: seq<SendOutput>, net: Network)
    requires outputs != []
    ensures var init, last := outputs[..|outputs| - 1], outputs[|outputs| - 1];
      Map(Filter(RequestedSlots(outputs, net), NotPhantom(Phantoms(outputs))), OutOf())
      == Map(Filter(RequestedSlots(init, net), NotPhantom(Phantoms(init))), OutOf())
       + if last.ShieldedSend? then [] else [RequestedOutput(last, net)]
  {
    var n := |outputs| - 1;
    var init, last := outputs[..n], Slot(n, RequestedOutput(outputs[n], net));
    var slots, keep := RequestedSlots(init, net), NotPhantom(Phantoms(outputs));
    RequestedSlotsInit(outputs, net);
    FilterPush(slots, last, keep);
    FilterAgrees(slots, keep, NotPhantom(Phantoms(init)));
    var kept := Filter(slots, keep);
    MapPush(kept, last, OutOf());
    assert Map(kept, OutOf()) + [] == Map(kept, OutOf());
  }

  /** A measure that ignores change measures the requests. */
  lemma DeliveredSum(s: WalletStorage, q: Request, tx: DataTx, f: DataOutput -> int, g: SendOutput -> int)
    requires TransparentAsRequested(s, q, tx) && CountsAs(q.net, f, g)
    requires forall o: DataOutput :: o.isChange ==> f(o) == 0
    ensures Sum(tx.outputs, f) == Sum(q.outputs, g)
  {
    var change: seq<DataOutput> :|
      && multiset(tx.outputs) == multiset(ExplicitOuts(q)) + multiset(change)
      && ChangeGoesHome(s, q.changeAddress, change)
      && (forall o :: o in change ==> IsChangeOf(o, o.token));
    assert multiset(ExplicitOuts(q) + change) == multiset(tx.outputs);
    SumPermutation(tx.outputs, ExplicitOuts(q) + change, f);
    SumAppend(ExplicitOuts(q), change, f);
    SumZero(change, f);
    ExplicitSum(q.outputs, q.net, f, g);
  }

  /** The prepared transparent outputs are those of the request. */
  lemma DeliversRequests(s: WalletStorage, q: Request, tx: DataTx)
    requires TransparentAsRequested(s, q, tx)
    ensures OutputsAsAsked(q, tx.outputs)
  {
    forall address, value, token: Uid, lock: Option<nat> | lock != Some(0)
      ensures Count(tx.outputs, Payment(address, value, token, lock)) == Count(q.outputs, PaymentAsked(address, value, token, lock))
    {
      PaymentCounts(q.net, address, value, token, lock);
      DeliveredSum(s, q, tx, One(Payment(address, value, token, lock)), One(PaymentAsked(address, value, token, lock)));
    }
    forall address, token: Uid, lock: Option<nat> | lock != Some(0)
      ensures Sum(tx.outputs, PaidTo(address, token, lock)) == Sum(q.outputs, AskedFor(address, token, lock))
    {
      DeliveredSum(s, q, tx, PaidTo(address, token, lock), AskedFor(address, token, lock));
    }
    forall data ensures Count(tx.outputs, DataKept(data)) == Count(q.outputs, DataAsked(data)) {
      DeliveredSum(s, q, tx, One(DataKept(data)), One(DataAsked(data)));
    }
    DeliveredSum(s, q, tx, One(Requested()), One(Transparent()));
  }

  lemma PaymentCounts(net: Network, address: string, value: int, token: Uid, lock: Option<nat>)
    requires lock != Some(0)
    ensures CountsAs(net, One(Payment(address, value, token, lock)), One(PaymentAsked(address, value, token, lock)))
  {
  }

  // ----- shielded outputs -----

  /** The modes 1 and 2 of a request. */
  predicate InMode(mode: Mode, number: int) {
    (number == 1 && mode == AmountShielded) || (number == 2 && mode == FullyShielded)
  }

  function ShieldedTo(spend: string, scan: string, value: int, token: Uid, mode: Mode): ShieldedOutput -> bool {
    (o: ShieldedOutput) => o.address == spend && o.scanPubkey == scan && o.value == value && o.token == token && o.mode == mode
  }

  /** A request is met at the spend address and under the scan key of its address. */
  function ShieldedAsked(net: Network, spend: string, scan: string, value: int, token: Uid, mode: Mode): SendOutput -> bool {
    (o: SendOutput) =>
      && o.ShieldedSend? && InMode(mode, o.shieldedMode) && o.value == value && o.token == token
      && net.spendAddress(o.address) == spend && net.scanPubkey(o.address) == scan
  }

  predicate IsOwnChange(q: Request, spend: string, scan: string, mode: Mode) {
    && q.wallet.Some? && q.changeMode == Some(mode)
    && spend == q.net.spendAddress(q.wallet.value.shieldedAddress) && scan == q.net.scanPubkey(q.wallet.value.shieldedAddress)
  }

  /** For every spend address, scan key, value, token and mode there are as many shielded outputs as
      requests; only the wallet's own address may get more, in the mode of the change. */
  ghost predicate ShieldedAsAsked(q: Request, outputs: seq<ShieldedOutput>) {
    forall spend, scan, value, token: Uid, mode: Mode ::
      var made, asked := Count(outputs, ShieldedTo(spend, scan, value, token, mode)),
                         Count(q.outputs, ShieldedAsked(q.net, spend, scan, value, token, mode));
      && made >= asked
      && (!IsOwnChange(q, spend, scan, mode) || value <= 0 ==> made == asked)
  }

  lemma {:induction false} DefsSum(outputs: seq<SendOutput>, net: Network, f: Def -> int, g: SendOutput -> int)
    requires forall o :: o in outputs ==> g(o) == if o.ShieldedSend? then f(RequestedDef(o, net)) else 0
    ensures Sum(RequestedDefs(outputs, net), f) == Sum(outputs, g)
  {
    if outputs != [] {
      var n := |outputs| - 1;
      var init, last := outputs[..n], outputs[n];
      assert last in outputs && outputs == init + [last] && forall o :: o in init ==> o in outputs;
      DefsSum(init, net, f, g);
      SumPush(init, last, g);
      if last.ShieldedSend? {
        SumPush(RequestedDefs(init, net), RequestedDef(last, net), f);
      } else {
        assert RequestedDefs(init, net) + [] == RequestedDefs(init, net);
      }
    }
  }

  function DefTo(spend: string, scan: string, value: int, token: Uid, mode: Mode): Def -> bool {
    (d: Def) => d.address == spend && d.scanPubkey == scan && d.value == value && d.token == token && d.mode == mode
  }

  function FaceTo(spend: string, scan: string, value: int, token: Uid, mode: Mode): Face -> bool {
    (f: Face) => f == Face(spend, value, token, scan, mode)
  }

  /** Outputs and definitions of the same faces count alike. */
  lemma FacesCount(outs: seq<ShieldedOutput>, defs: seq<Def>, spend: string, scan: string, value: int, token: Uid, mode: Mode)
    requires multiset(Map(outs, OutputFace())) == multiset(Map(defs, DefFace()))
    ensures Count(outs, ShieldedTo(spend, scan, value, token, mode)) == Count(defs, DefTo(spend, scan, value, token, mode))
  {
    var face := One(FaceTo(spend, scan, value, token, mode));
    SumPointwise(outs, Map(outs, OutputFace()), One(ShieldedTo(spend, scan, value, token, mode)), face);
    SumPointwise(defs, Map(defs, DefFace()), One(DefTo(spend, scan, value, token, mode)), face);
    SumPermutation(Map(outs, OutputFace()), Map(defs, DefFace()), face);
  }

  /** The shielded outputs are those of the request, and shielded change. */
  lemma DeliversShielded(s: WalletStorage, q: Request, tx: DataTx)
    requires ShieldedAsRequested(q, tx) && RequestsValid(q)
    ensures ShieldedAsAsked(q, tx.shieldedOutputs)
  {
    var defs: seq<Def> :|
      && multiset(Map(tx.shieldedOutputs, OutputFace())) == multiset(Map(defs, DefFace()))
      && (if CustomShielded(q) then OnlyPositiveChangeAdded(q, defs) else defs == RequestedDefs(q.outputs, q.net));
    forall spend, scan, value, token: Uid, mode: Mode
      ensures var made, asked := Count(tx.shieldedOutputs, ShieldedTo(spend, scan, value, token, mode)),
                                 Count(q.outputs, ShieldedAsked(q.net, spend, scan, value, token, mode));
        made >= asked && (!IsOwnChange(q, spend, scan, mode) || value <= 0 ==> made == asked)
    {
      FacesCount(tx.shieldedOutputs, defs, spend, scan, value, token, mode);
      DefinedAsAsked(q, defs, spend, scan, value, token, mode);
    }
  }

  lemma DefinedAsAsked(q: Request, defs: seq<Def>, spend: string, scan: string, value: int, token: Uid, mode: Mode)
    requires RequestsValid(q)
    requires if CustomShielded(q) then OnlyPositiveChangeAdded(q, defs) else defs == RequestedDefs(q.outputs, q.net)
    ensures var made, asked := Count(defs, DefTo(spend, scan, value, token, mode)),
                               Count(q.outputs, ShieldedAsked(q.net, spend, scan, value, token, mode));
      made >= asked && (!IsOwnChange(q, spend, scan, mode) || value <= 0 ==> made == asked)
  {
    var requested, f := RequestedDefs(q.outputs, q.net), One(DefTo(spend, scan, value, token, mode));
    RequestedCount(q, spend, scan, value, token, mode);
    if CustomShielded(q) {
      var more := defs[|requested|..];
      assert defs == requested + more;
      SumAppend(requested, more, f);
      SumNonNegative(more, f);
      if !IsOwnChange(q, spend, scan, mode) || value <= 0 {
        forall d | d in more ensures f(d) == 0 {
          var k :| 0 <= k < |more| && more[k] == d;
          assert IsShieldedChange(q, defs[|requested| + k]);
        }
        SumZero(more, f);
      }
    }
  }

  lemma RequestedCount(q: Request, spend: string, scan: string, value: int, token: Uid, mode: Mode)
    requires RequestsValid(q)
    ensures Count(RequestedDefs(q.outputs, q.net), DefTo(spend, scan, value, token, mode))
         == Count(q.outputs, ShieldedAsked(q.net, spend, scan, value, token, mode))
  {
    DefsSum(q.outputs, q.net, One(DefTo(spend, scan, value, token, mode)), One(ShieldedAsked(q.net, spend, scan, value, token, mode)));
  }

  // ----- inputs -----

  /** A transaction the wallet knows, not voided and past its reward lock. */
  ghost predicate Spendable(s: WalletStorage, txId: string) {
    && txId in s.txs && !s.txs[txId].voided
    && forall h :: s.txs[txId].height == Some(h) && h > 0 && s.funds.store.height > 0 && s.funds.rewardLock > 0 ==>
         s.funds.store.height >= h + s.funds.rewardLock
  }

  /** The input repeats an unspent, unlocked transparent output of the wallet that is no authority. */
  ghost predicate SpendsTransparent(s: WalletStorage, i: DataInput, o: HistoryOutput) {
    && !o.spent && o.value == i.value && o.token == i.token && o.tokenData / 128 % 2 == 0
    && o.address == Some(i.address) && i.address != "" && i.address in s.mine
    && forall t :: o.timelock == Some(t) ==> t <= s.funds.store.now
  }

  /** The input repeats an unspent, unlocked shielded slot the wallet has decoded. */
  ghost predicate SpendsShielded(s: WalletStorage, i: DataInput, o: HistoryShielded) {
    && !o.spent && o.value == Some(i.value) && o.token == Some(i.token)
    && o.address == Some(i.address) && i.address != "" && i.address in s.mine
    && forall t :: o.timelock == Some(t) ==> t <= s.funds.store.now
  }

  /** A caller's input is worth what the history says: transparent outputs are counted first, shielded
      ones after them. */
  ghost predicate AsRecorded(s: WalletStorage, id: UtxoId, i: DataInput) {
    && i.id == id && i.authorities == 0 && id !in s.funds.selected && Spendable(s, id.txId)
    && var t := s.txs[id.txId];
       if 0 <= id.index < |t.outputs| then SpendsTransparent(s, i, t.outputs[id.index])
       else |t.outputs| <= id.index < |t.outputs| + |t.shielded| && SpendsShielded(s, i, t.shielded[id.index - |t.outputs|])
  }

  /** The wallet's input is worth what its utxo is: usable funds of a token the caller brought none of. */
  ghost predicate AsStored(s: WalletStorage, i: DataInput) {
    exists u :: u in s.funds.store.utxos && SpendsUtxo(i, u) && u.authorities == 0 && UtxoStore.Usable(s.funds, u)
  }

  /** The caller's inputs, in order, then the wallet's. */
  ghost predicate InputsAsRecorded(s: WalletStorage, q: Request, inputs: seq<DataInput>) {
    && |q.inputs| <= |inputs|
    && (forall k :: 0 <= k < |q.inputs| ==> AsRecorded(s, q.inputs[k], inputs[k]))
    && (forall k :: |q.inputs| <= k < |inputs| ==>
          AsStored(s, inputs[k]) && forall j :: 0 <= j < |q.inputs| ==> inputs[j].token != inputs[k].token)
  }

  /** A caller's outpoint is accepted exactly so. */
  lemma ResolvedIsRecorded(s: WalletStorage, id: UtxoId, i: DataInput)
    ensures AsRecorded(s, id, i) <==> InputFor(s, id) == Some(i) && UnspentAndMine(s, i, i.token) && CanUse(s, i.id)
  {
  }

  lemma DeliversInputs(s: WalletStorage, q: Request, tx: DataTx)
    requires InputsAllowed(s, q, tx)
    ensures InputsAsRecorded(s, q, tx.inputs)
  {
    var caller: seq<DataInput>, added: seq<DataInput> :|
      && tx.inputs == caller + added
      && ResolvedInputs(s, q.inputs, caller)
      && (forall i :: i in caller ==> UnspentAndMine(s, i, i.token) && CanUse(s, i.id))
      && (forall i :: i in added ==> FromStore(s, i.token, i) && !BroughtToken(caller, i.token));
    forall k | 0 <= k < |q.inputs| ensures AsRecorded(s, q.inputs[k], tx.inputs[k]) {
      assert caller[k] in caller;
      ResolvedIsRecorded(s, q.inputs[k], caller[k]);
    }
    forall k | |q.inputs| <= k < |tx.inputs|
      ensures AsStored(s, tx.inputs[k]) && forall j :: 0 <= j < |q.inputs| ==> tx.inputs[j].token != tx.inputs[k].token
    {
      assert tx.inputs[k] == added[k - |caller|] && tx.inputs[k] in added;
      assert FromStore(s, tx.inputs[k].token, tx.inputs[k]);
      forall j | 0 <= j < |q.inputs| ensures tx.inputs[j].token != tx.inputs[k].token {
        assert tx.inputs[j] == caller[j] && caller[j] in caller;
      }
    }
  }

  // ----- change and fee -----

  /** Change is positive, free to spend, and at the asked address if it is the wallet's own and not
      empty, else at the current one. */
  ghost predicate ChangeAsAsked(s: WalletStorage, q: Request, outputs: seq<DataOutput>) {
    forall o :: o in outputs && o.isChange ==>
      && o.kind == AddressOutput && o.value > 0 && o.authorities == 0 && o.timelock == None
      && (forall a :: q.changeAddress == Some(a) && a != "" ==> o.address == a && a in s.mine)
      && (q.changeAddress == None || q.changeAddress == Some("") ==> o.address == s.currentAddress)
  }

  lemma DeliversChange(s: WalletStorage, q: Request, tx: DataTx)
    requires TransparentAsRequested(s, q, tx)
    ensures ChangeAsAsked(s, q, tx.outputs)
  {
    var change: seq<DataOutput> :|
      && multiset(tx.outputs) == multiset(ExplicitOuts(q)) + multiset(change)
      && ChangeGoesHome(s, q.changeAddress, change)
      && (forall o :: o in change ==> IsChangeOf(o, o.token));
    forall o | o in tx.outputs && o.isChange ensures o in change {
      assert o in multiset(tx.outputs);
      if o in multiset(ExplicitOuts(q)) {
        ExplicitIsNoChange(q, o);
      }
    }
  }

  lemma ExplicitIsNoChange(q: Request, o: DataOutput)
    requires o in ExplicitOuts(q)
    ensures !o.isChange
  {
    var slots := ExplicitSlots(q);
    var k :| 0 <= k < |slots| && slots[k].out == o;
    assert slots[k] in slots;
    assert slots[k] in RequestedSlots(q.outputs, q.net);
  }

  function InShieldedMode(mode: Mode): ShieldedOutput -> bool { (o: ShieldedOutput) => o.mode == mode }

  /** One HTR unit for each amount-shielded output, two for each fully shielded one. */
  lemma ShieldedFeeCounts(outputs: seq<ShieldedOutput>)
    ensures Sum(outputs, ShieldedFee()) == Count(outputs, InShieldedMode(AmountShielded)) + 2 * Count(outputs, InShieldedMode(FullyShielded))
  {
    if outputs != [] {
      ShieldedFeeCounts(outputs[1..]);
    }
  }

  /** Every custom token is known; the declared fee is one HTR unit for each output of a token that
      charges fees, or for such a token that only comes in, and the fee of each shielded output. */
  ghost predicate FeeAsCounted(s: WalletStorage, tx: DataTx) {
    && AllKnown(tx.inputs, tx.outputs, [], s.tokens)
    && forall ts :: ListsTokens(tx.inputs, tx.outputs, [], ts) ==>
         var fee := Sum(ts, DueOf(tx.inputs, tx.outputs, [], s.tokens))
                  + Count(tx.shieldedOutputs, InShieldedMode(AmountShielded))
                  + 2 * Count(tx.shieldedOutputs, InShieldedMode(FullyShielded));
         && (tx.feeHeader == None ==> fee == 0)
         && (tx.feeHeader.Some? ==> tx.feeHeader.value == fee > 0)
  }

  lemma DeliversFee(s: WalletStorage, tx: DataTx)
    requires FeeExact(s, tx)
    ensures FeeAsCounted(s, tx)
  {
    FeeNeedsVersions(tx.inputs, tx.outputs, [], s.tokens);
    forall ts | ListsTokens(tx.inputs, tx.outputs, [], ts)
      ensures Sum(ts, DueOf(tx.inputs, tx.outputs, [], s.tokens)) == Fee.FeeResult(tx.inputs, tx.outputs, s.tokens, []).value
    {
      FeeIsWhatIsDue(tx.inputs, tx.outputs, [], s.tokens, ts);
    }
    ShieldedFeeCounts(tx.shieldedOutputs);
  }

  /** The custom tokens that outputs show, each once: all but those of fully shielded outputs. */
  ghost predicate TokensAsShown(tx: DataTx) {
    && Distinct(tx.tokens)
    && forall t: Uid :: t in tx.tokens <==>
         && t != Uid("00")
         && ((exists o :: o in tx.outputs && o.token == t && o.authorities == 0)
             || exists o :: o in tx.shieldedOutputs && o.token == t && o.mode == AmountShielded)
  }

  /** Where change is to be shielded and something else is, no change shows. */
  ghost predicate ChangeAsHidden(q: Request, tx: DataTx) {
    q.changeMode.Some? && q.wallet.Some? && (exists o :: o in q.outputs && o.ShieldedSend?) ==>
      forall o :: o in tx.outputs ==> !o.isChange
  }

  lemma {:induction false} ShieldedIsDefined(outputs: seq<SendOutput>, net: Network, o: SendOutput)
    requires o in outputs && o.ShieldedSend?
    ensures RequestedDefs(outputs, net) != []
  {
    var init, last := outputs[..|outputs| - 1], outputs[|outputs| - 1];
    assert outputs == init + [last];
    if o in init {
      ShieldedIsDefined(init, net, o);
    }
  }

  lemma DeliversHidden(q: Request, tx: DataTx)
    requires ChangeHidden(q, tx)
    ensures ChangeAsHidden(q, tx)
  {
    if o :| o in q.outputs && o.ShieldedSend? {
      ShieldedIsDefined(q.outputs, q.net, o);
    }
  }

  /** All that was asked for, told from the request, the history and the store. */
  ghost predicate AsAsked(s: WalletStorage, q: Request, tx: DataTx) {
    && OutputsAsAsked(q, tx.outputs) && ShieldedAsAsked(q, tx.shieldedOutputs)
    && InputsAsRecorded(s, q, tx.inputs) && ChangeAsAsked(s, q, tx.outputs) && FeeAsCounted(s, tx)
    && TokensAsShown(tx) && ChangeAsHidden(q, tx)
  }

  /** Whatever is delivered is what was asked for. */
  lemma DeliveredAsAsked(s: WalletStorage, q: Request, tx: DataTx)
    requires Delivered(s, q, tx)
    ensures AsAsked(s, q, tx)
  {
    DeliversRequests(s, q, tx);
    DeliversShielded(s, q, tx);
    DeliversInputs(s, q, tx);
    DeliversChange(s, q, tx);
    DeliversFee(s, tx);
    DeliversHidden(q, tx);
    DeliversTokens(tx);
  }

  lemma DeliversTokens(tx: DataTx)
    requires TokensExact(tx)
    ensures TokensAsShown(tx)
  {
    forall t: Uid ensures t in tx.tokens <==>
      && t != Uid("00")
      && ((exists o :: o in tx.outputs && o.token == t && o.authorities == 0)
          || exists o :: o in tx.shieldedOutputs && o.token == t && o.mode == AmountShielded)
    {
    }
  }
}
