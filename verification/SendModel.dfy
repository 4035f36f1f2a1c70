/** The data `SendTransaction` (src/new/sendTransaction.ts) works on, and what its parts mean. */
module SendModel {
  import opened Wrappers
  import opened SeqSums
  import opened WalletTypes
  import UtxoStore
  import Fee
  import ShieldedCreation

  type Def = ShieldedCreation.Proposal

  datatype SendOutput =
    | DataSend(data: string)
    | ShieldedSend(address: string, value: int, token: Uid, shieldedMode: int, lock: Option<int>)
    | TokenSend(address: string, value: int, token: Uid, timelock: Option<nat>)

  datatype SendError =
    | StorageNotSet
    | InvalidShieldedMode
    | NotAShieldedAddress
    | InvalidAddress
    | InvalidInput(ids: seq<UtxoId>)
    | InputUnusable(id: UtxoId)
    | InvalidAmount
    | InsufficientTokens(token: Uid)
    | OutputsExceedInputs(token: Uid)
    | ChangeAddressNotMine
    | UnknownToken
    | TooManyShieldedOutputs
    | LoneShieldedOutput
    | ChangeTooSmall
    | NoHtrForShieldedChange
    | MissingBlindingFactor
    | CryptoProviderNotSet
    | ShieldedCreationFailed

  datatype AddressKind = P2PKH | P2SH | Shielded | Invalid

  /** How the network reads base58 addresses. */
  datatype Network = Network(
    kind: string -> AddressKind,
    spendAddress: string -> string,
    scanPubkey: string -> string,
    scriptOf: string -> Option<ShieldedCreation.Buffer>,
    onCurve: string -> bool)

  datatype HistoryOutput = HistoryOutput(
    value: nat, token: Uid, tokenData: nat, address: Option<string>, spent: bool, timelock: Option<nat>)

  /** A shielded slot; `value` is present exactly when this wallet has decoded it. */
  datatype HistoryShielded = HistoryShielded(
    value: Option<nat>, token: Option<Uid>, address: Option<string>, spent: bool, timelock: Option<nat>)

  datatype HistoryTx = HistoryTx(outputs: seq<HistoryOutput>, shielded: seq<HistoryShielded>, voided: bool, height: Option<nat>)

  datatype Resolved = TransparentOutput(output: HistoryOutput) | ShieldedSlot(slot: HistoryShielded)

  datatype WalletStorage = WalletStorage(
    funds: UtxoStore.Storage,
    txs: map<string, HistoryTx>,
    mine: set<string>,
    currentAddress: string,
    tokens: map<Uid, Fee.TokenVersion>,
    provider: Option<ShieldedCreation.Provider>)

  /** The facade is only asked for its current shielded address. */
  datatype Wallet = Wallet(shieldedAddress: string)

  /** An output object: `ref` is its identity, which the phantom filter compares. */
  datatype Slot = Slot(ref: nat, out: DataOutput)

  datatype Funding = Funding(inputs: seq<DataInput>, outputs: seq<DataOutput>)

  datatype DataTx = DataTx(
    inputs: seq<DataInput>,
    outputs: seq<DataOutput>,
    tokens: seq<Uid>,
    feeHeader: Option<int>,
    shieldedOutputs: seq<ShieldedCreation.ShieldedOutput>,
    excess: Option<int>)

  // ----- values per token -----

  function ValueIn(token: Uid): DataInput -> int { (i: DataInput) => if i.token == token then i.value else 0 }

  /** Outputs that create a token belong to no existing token. */
  function ValueOut(token: Uid): DataOutput -> int {
    (o: DataOutput) => if o.kind != CreateTokenOutput && o.token == token then o.value else 0
  }

  function ValueSlot(token: Uid): Slot -> int {
    (s: Slot) => if s.out.kind != CreateTokenOutput && s.out.token == token then s.out.value else 0
  }

  function ValueDef(token: Uid): Def -> int { (d: Def) => if d.token == token then d.value else 0 }

  function ValueShielded(token: Uid): ShieldedCreation.ShieldedOutput -> int {
    (o: ShieldedCreation.ShieldedOutput) => if o.token == token then o.value else 0
  }

  function OutOf(): Slot -> DataOutput { (s: Slot) => s.out }

  function FeeOfMode(mode: Mode): nat {
    if mode == FullyShielded then FEE_PER_FULL_SHIELDED_OUTPUT else FEE_PER_AMOUNT_SHIELDED_OUTPUT
  }

  function DefFee(): Def -> int { (d: Def) => FeeOfMode(d.mode) }

  function ShieldedFee(): ShieldedCreation.ShieldedOutput -> int {
    (o: ShieldedCreation.ShieldedOutput) => FeeOfMode(o.mode)
  }

  // ----- requested outputs -----

  predicate ModeValid(mode: int) { mode == 1 || mode == 2 }

  function ModeOf(mode: int): Mode {
    if mode == 2 then FullyShielded else AmountShielded
  }

  /** The output object made for one requested output; a shielded one gets a phantom at its spend
      address so that selection accounts for its value. */
  function RequestedOutput(o: SendOutput, net: Network): DataOutput {
    match o
    case DataSend(data) => DataOutput(DataScript, 1, HTR, 0, data, None, false)
    case ShieldedSend(address, value, token, _, _) =>
      DataOutput(AddressOutput, value, token, 0, net.spendAddress(address), None, false)
    case TokenSend(address, value, token, timelock) =>
      DataOutput(AddressOutput, value, token, 0, address, if timelock == Some(0) then None else timelock, false)
  }

  function RequestedSlots(outputs: seq<SendOutput>, net: Network): seq<Slot> {
    seq(|outputs|, i requires 0 <= i < |outputs| => Slot(i, RequestedOutput(outputs[i], net)))
  }

  function RequestedDef(o: SendOutput, net: Network): Def
    requires o.ShieldedSend?
  {
    ShieldedCreation.Proposal(net.spendAddress(o.address), o.value, o.token, net.scanPubkey(o.address), ModeOf(o.shieldedMode), o.lock)
  }

  function RequestedDefs(outputs: seq<SendOutput>, net: Network): seq<Def> {
    if outputs == [] then []
    else
      var last := outputs[|outputs| - 1];
      RequestedDefs(outputs[..|outputs| - 1], net) + if last.ShieldedSend? then [RequestedDef(last, net)] else []
  }

  function Phantoms(outputs: seq<SendOutput>): set<nat> {
    set i: nat | i < |outputs| && outputs[i].ShieldedSend?
  }

  function NotPhantom(phantoms: set<nat>): Slot -> bool { (s: Slot) => s.ref !in phantoms }

  function TokenOf(o: SendOutput): Uid {
    match o
    case DataSend(_) => HTR
    case ShieldedSend(_, _, token, _, _) => token
    case TokenSend(_, _, token, _) => token
  }

  predicate OutputAccepted(o: SendOutput, net: Network) {
    match o
    case DataSend(_) => true
    case ShieldedSend(address, _, _, mode, _) =>
      && ModeValid(mode) && net.kind(address) == Shielded
      && (net.kind(net.spendAddress(address)) == P2PKH || net.kind(net.spendAddress(address)) == P2SH)
    case TokenSend(address, _, _, _) => net.kind(address) == P2PKH || net.kind(address) == P2SH
  }

  // ----- spent outputs -----

  /** `resolveSpentOutput`: transparent outputs first, shielded ones after them. */
  function ResolveSpentOutput(tx: HistoryTx, index: int): Option<Resolved> {
    if index < 0 then None
    else if index < |tx.outputs| then Some(TransparentOutput(tx.outputs[index]))
    else if index < |tx.outputs| + |tx.shielded| then Some(ShieldedSlot(tx.shielded[index - |tx.outputs|]))
    else None
  }

  function Resolve(s: WalletStorage, id: UtxoId): Option<Resolved> {
    if id.txId in s.txs then ResolveSpentOutput(s.txs[id.txId], id.index) else None
  }

  predicate IsAuthorityData(tokenData: nat) { (tokenData / 128) % 2 == 1 }

  /** `authoritiesFromOutput` */
  function AuthoritiesOf(o: HistoryOutput): nat {
    if IsAuthorityData(o.tokenData) then o.value % 4 else 0
  }

  /** The input a caller-supplied outpoint stands for, if it can stand for one. */
  function InputFor(s: WalletStorage, id: UtxoId): Option<DataInput> {
    match Resolve(s, id)
    case None => None
    case Some(TransparentOutput(o)) =>
      Some(DataInput(id, o.value, o.token, if o.address.Some? then o.address.value else "", AuthoritiesOf(o)))
    case Some(ShieldedSlot(o)) =>
      if o.value.None? || o.address.None? || o.token.None? then None
      else Some(DataInput(id, o.value.value, o.token.value, o.address.value, 0))
  }

  /** `checkUnspentInput` succeeds. */
  predicate UnspentAndMine(s: WalletStorage, i: DataInput, token: Uid) {
    && i.id.txId in s.txs && !s.txs[i.id.txId].voided
    && match Resolve(s, i.id)
       case None => false
       case Some(TransparentOutput(o)) =>
         && !IsAuthorityData(o.tokenData) && o.address == Some(i.address) && i.address != "" && i.address in s.mine
         && o.token == i.token == token && !o.spent
       case Some(ShieldedSlot(o)) =>
         && o.address == Some(i.address) && i.address != "" && i.address in s.mine
         && o.token == Some(i.token) && i.token == token && !o.spent
  }

  /** `canUseUtxo` */
  predicate CanUse(s: WalletStorage, id: UtxoId) {
    && id.txId in s.txs && id !in s.funds.selected
    && (match Resolve(s, id)
        case None => false
        case Some(TransparentOutput(o)) => o.timelock.None? || s.funds.store.now >= o.timelock.value
        case Some(ShieldedSlot(o)) => o.timelock.None? || s.funds.store.now >= o.timelock.value)
    && !UtxoStore.HeightLocked(s.txs[id.txId].height, s.funds.store.height, s.funds.rewardLock)
  }

  /** A change output made for a token. */
  predicate IsChangeOf(o: DataOutput, token: Uid) {
    o.isChange && o.token == token && o.value > 0 && o.authorities == 0 && o.kind == AddressOutput && o.timelock == None
  }

  // ----- lemmas about sums over slots -----

  lemma SlotValues(slots: seq<Slot>, token: Uid)
    ensures Sum(Map(slots, OutOf()), ValueOut(token)) == Sum(slots, ValueSlot(token))
  {
    SumPointwise(Map(slots, OutOf()), slots, ValueOut(token), ValueSlot(token));
  }

  lemma {:induction false} RequestedSlotsInit(outputs: seq<SendOutput>, net: Network)
    requires outputs != []
    ensures var init := outputs[..|outputs| - 1];
      RequestedSlots(outputs, net)
      == RequestedSlots(init, net) + [Slot(|outputs| - 1, RequestedOutput(outputs[|outputs| - 1], net))]
  {
  }

  /** The phantoms of a token are worth what its shielded definitions are worth. */
  lemma {:induction false} PhantomsMatchDefs(outputs: seq<SendOutput>, net: Network, token: Uid)
    ensures Sum(RequestedSlots(outputs, net), ValueSlot(token))
         == Sum(Filter(RequestedSlots(outputs, net), NotPhantom(Phantoms(outputs))), ValueSlot(token))
          + Sum(RequestedDefs(outputs, net), ValueDef(token))
  {
    if outputs != [] {
      var n := |outputs| - 1;
      var init := outputs[..n];
      var last := Slot(n, RequestedOutput(outputs[n], net));
      PhantomsMatchDefs(init, net, token);
      RequestedSlotsInit(outputs, net);
      var slots := RequestedSlots(init, net);
      var keep := NotPhantom(Phantoms(outputs));
      FilterAppend(slots, [last], keep);
      FilterAgrees(slots, keep, NotPhantom(Phantoms(init)));
      assert [last][1..] == [];
      SumPush(slots, last, ValueSlot(token));
      if outputs[n].ShieldedSend? {
        SumPush(RequestedDefs(init, net), RequestedDef(outputs[n], net), ValueDef(token));
        assert Filter([last], keep) == [];
        assert Filter(slots, keep) + [] == Filter(slots, keep);
      } else {
        assert Filter([last], keep) == [last];
        SumPush(Filter(slots, keep), last, ValueSlot(token));
        assert RequestedDefs(outputs, net) == RequestedDefs(init, net) + [];
        assert RequestedDefs(init, net) + [] == RequestedDefs(init, net);
      }
    }
  }

  lemma {:induction false} FilterAgrees<T(!new)>(s: seq<T>, p: T -> bool, q: T -> bool)
    requires forall x :: x in s ==> p(x) == q(x)
    ensures Filter(s, p) == Filter(s, q)
  {
    if s != [] {
      assert s[0] in s && forall x :: x in s[1..] ==> x in s;
      FilterAgrees(s[1..], p, q);
    }
  }

  lemma {:induction false} FilterAll<T(!new)>(s: seq<T>, p: T -> bool)
    requires forall x :: x in s ==> p(x)
    ensures Filter(s, p) == s
  {
    if s != [] {
      assert s[0] in s && forall x :: x in s[1..] ==> x in s;
      FilterAll(s[1..], p);
    }
  }

  // ----- from token-wise to total balance -----

  /** An amount of a token moving in (positive) or out (negative). */
  datatype Flow = Flow(token: Uid, amount: int)

  function Amount(): Flow -> int { (f: Flow) => f.amount }

  function AmountOf(token: Uid): Flow -> int { (f: Flow) => if f.token == token then f.amount else 0 }

  /** Flows that cancel token by token cancel altogether. */
  lemma {:induction false} TokensCancelMeansTotalCancels(flows: seq<Flow>)
    requires forall t: Uid :: Sum(flows, AmountOf(t)) == 0
    ensures Sum(flows, Amount()) == 0
    decreases |flows|
  {
    if flows != [] {
      var t := flows[0].token;
      var same := (f: Flow) => f.token == t;
      var other := (f: Flow) => !same(f);
      SumFilterSplit(flows, same, other, Amount());
      SumFilterSplit(flows, same, other, AmountOf(t));
      var rest := Filter(flows, other);
      SumCongruent(Filter(flows, same), Amount(), AmountOf(t));
      SumZero(rest, AmountOf(t));
      forall u: Uid ensures Sum(rest, AmountOf(u)) == 0 {
        if u != t {
          SumFilterSplit(flows, same, other, AmountOf(u));
          SumZero(Filter(flows, same), AmountOf(u));
          assert Sum(flows, AmountOf(u)) == 0;
        }
      }
      assert |rest| < |flows| by {
        assert !other(flows[0]);
      }
      TokensCancelMeansTotalCancels(rest);
    }
  }
}
