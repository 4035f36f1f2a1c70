/** The data records the wallet builds transactions from (src/types.ts). */
module WalletTypes {
  import opened Wrappers
  import opened SeqSums

  /** A token uid; the source never passes the empty one. "00" is the native token. */
  datatype Uid = Uid(hex: string)

  const HTR: Uid := Uid("00")

  const MAX_SHIELDED_OUTPUTS: nat := 32
  const MAX_RANGE_PROOF_SIZE: nat := 3328
  const MAX_SURJECTION_PROOF_SIZE: nat := 4096
  const FEE_PER_OUTPUT: nat := 1
  const FEE_PER_AMOUNT_SHIELDED_OUTPUT: nat := 1
  const FEE_PER_FULL_SHIELDED_OUTPUT: nat := 2
  const TOKEN_MINT_MASK: nat := 1
  const TOKEN_MELT_MASK: nat := 2

  /** An amount-shielded output hides its value, a fully shielded one its token too. */
  datatype Mode = AmountShielded | FullyShielded

  datatype UtxoId = UtxoId(txId: string, index: int)

  datatype Utxo = Utxo(
    id: UtxoId,
    token: Uid,
    address: string,
    value: nat,
    authorities: nat,
    timelock: Option<nat>,
    version: nat,
    height: Option<nat>,
    shielded: bool,
    blindingFactor: Option<int>,
    assetBlindingFactor: Option<int>)

  datatype DataInput = DataInput(id: UtxoId, value: int, token: Uid, address: string, authorities: nat)

  datatype OutputKind = AddressOutput | DataScript | CreateTokenOutput

  datatype DataOutput = DataOutput(
    kind: OutputKind,
    value: int,
    token: Uid,
    authorities: nat,
    address: string,
    timelock: Option<nat>,
    isChange: bool)

  /** `helpers.getDataInputFromUtxo` */
  function InputFromUtxo(u: Utxo): DataInput {
    DataInput(u.id, u.value, u.token, u.address, u.authorities)
  }

  /** The input names the utxo and repeats what it holds. */
  predicate SpendsUtxo(i: DataInput, u: Utxo) {
    i.id == u.id && i.value == u.value && i.token == u.token && i.address == u.address && i.authorities == u.authorities
  }

  function InputFrom(): Utxo -> DataInput { (u: Utxo) => InputFromUtxo(u) }

  function UtxoValue(): Utxo -> int { (u: Utxo) => u.value }

  function UtxoIdOf(): Utxo -> UtxoId { (u: Utxo) => u.id }

  function InputIdOf(): DataInput -> UtxoId { (i: DataInput) => i.id }

  /** What an input adds to the balance of a token, authorities aside. */
  function InputFunds(token: Uid): DataInput -> int {
    (i: DataInput) => if i.token == token && i.authorities == 0 then i.value else 0
  }

  /** What an output takes from the balance of a token, authorities aside. */
  function OutputFunds(token: Uid): DataOutput -> int {
    (o: DataOutput) => if o.kind != CreateTokenOutput && o.token == token && o.authorities == 0 then o.value else 0
  }

  /** Inputs built from utxos carry exactly their ids and values. */
  lemma {:induction false} InputsFromUtxos(us: seq<Utxo>, token: Uid)
    requires forall u :: u in us ==> u.token == token && u.authorities == 0
    ensures Sum(Map(us, InputFrom()), InputFunds(token)) == Sum(us, UtxoValue())
    ensures Map(Map(us, InputFrom()), InputIdOf()) == Map(us, UtxoIdOf())
  {
    SumPointwise(Map(us, InputFrom()), us, InputFunds(token), UtxoValue());
  }

  /** Funds of one token are no funds of another. */
  lemma OtherTokensUntouched(inputs: seq<DataInput>, outputs: seq<DataOutput>, token: Uid, other: Uid)
    requires token != other
    requires forall i :: i in inputs ==> i.token == token
    requires forall o :: o in outputs ==> o.token == token
    ensures Sum(inputs, InputFunds(other)) == 0 && Sum(outputs, OutputFunds(other)) == 0
  {
    SumZero(inputs, InputFunds(other));
    SumZero(outputs, OutputFunds(other));
  }
}
