/** The shielded side of the prepared data told by its fields: what the crypto provider was asked for each
    output, and the balance of the blinding factors against the wallet's utxos
    (src/new/sendTransaction.ts, src/shielded/creation.ts). */
module SendBlinding {
  import opened Wrappers
  import opened SeqSums
  import opened WalletTypes
  import opened UtxoStore
  import opened SendModel
  import opened SendPlan
  import opened ShieldedCreation
  import opened TransactionAssembly
  import opened PreparedTransaction
  import Bytes

  function OrZero(f: Option<int>): int { if f.Some? then f.value else 0 }

  /** What an input adds to the blinding balance: nothing, unless its utxo is shielded. */
  function TermOfUtxo(u: Utxo): int {
    if u.shielded then u.value * OrZero(u.assetBlindingFactor) + OrZero(u.blindingFactor) else 0
  }

  function AssetFactorOf(u: Utxo): int { if u.shielded then OrZero(u.assetBlindingFactor) else 0 }

  /** `n` is told of the utxo the input spends; without one it is 0. */
  ghost predicate ToldOf(s: WalletStorage, i: DataInput, f: Utxo -> int, n: int) {
    if exists u :: u in s.funds.store.utxos && u.id == i.id
    then exists u :: u in s.funds.store.utxos && u.id == i.id && n == f(u)
    else n == 0
  }

  ghost predicate SpendsShieldedUtxo(s: WalletStorage, i: DataInput) {
    exists u :: u in s.funds.store.utxos && u.id == i.id && u.shielded
  }

  // ----- one shielded output -----

  predicate SameWire(o: ShieldedOutput, c: Created) {
    && o.ephemeralPubkey == c.ephemeralPubkey && o.commitment == c.commitment && o.rangeProof == c.rangeProof
    && |o.ephemeralPubkey| == 33 && |o.commitment| == 33 && 1 <= |o.rangeProof| <= 3328
  }

  /** The entry of an input in the surjection domain: the tag of its token, committed with the asset factor
      of its utxo. */
  ghost predicate EntryFor(s: WalletStorage, p: Provider, i: DataInput, d: DomainEntry) {
    d.tag == p.deriveTag(i.token) && d.generator == p.assetCommitmentOf(d.tag, d.bf) && ToldOf(s, i, AssetFactorOf, d.bf)
  }

  /** One entry for each input, in order. */
  ghost predicate DomainOf(s: WalletStorage, p: Provider, inputs: seq<DataInput>, domain: seq<DomainEntry>) {
    |domain| == |inputs| && forall k :: 0 <= k < |inputs| ==> EntryFor(s, p, inputs[k], domain[k])
  }

  /** What the output holds is the provider's answer for its value, scan key, token and blinding factor; a
      fully shielded one also proves that its token is among those of the inputs. */
  ghost predicate MadeByProvider(s: WalletStorage, net: Network, p: Provider, inputs: seq<DataInput>, o: ShieldedOutput) {
    && net.scriptOf(o.address) == Some(o.script)
    && match o.mode
       case AmountShielded =>
         && SameWire(o, p.createAmount(o.value, o.scanPubkey, o.token, o.blindingFactor))
         && o.assetCommitment == None && o.assetBf == None && o.surjectionProof == None
       case FullyShielded =>
         && o.assetBf.Some?
         && SameWire(o, p.createBoth(o.value, o.scanPubkey, o.token, o.blindingFactor, o.assetBf.value))
         && o.assetCommitment == p.createBoth(o.value, o.scanPubkey, o.token, o.blindingFactor, o.assetBf.value).assetCommitment
         && exists domain :: DomainOf(s, p, inputs, domain)
              && o.surjectionProof == Some(p.surjectionProof(p.deriveTag(o.token), o.assetBf.value, domain))
  }

  lemma UtxoIsTold(s: WalletStorage, i: DataInput, f: Utxo -> int)
    ensures ToldOf(s, i, f, if UtxoOf(s, i).Some? then f(UtxoOf(s, i).value) else 0)
  {
  }

  lemma DomainIsOfInputs(s: WalletStorage, p: Provider, inputs: seq<DataInput>)
    ensures DomainOf(s, p, inputs, Map(Map(inputs, GeneratorFor(s)), DomainEntryOf(p)))
  {
    var domain := Map(Map(inputs, GeneratorFor(s)), DomainEntryOf(p));
    forall k | 0 <= k < |inputs| ensures EntryFor(s, p, inputs[k], domain[k]) {
      UtxoIsTold(s, inputs[k], AssetFactorOf);
      assert domain[k] == DomainEntryOf(p)(GeneratorFor(s)(inputs[k]));
    }
  }

  lemma GenuineIsMade(s: WalletStorage, net: Network, inputs: seq<DataInput>, o: ShieldedOutput)
    requires Genuine(s, net, inputs, o)
    ensures MadeByProvider(s, net, s.provider.value, inputs, o)
  {
    DomainIsOfInputs(s, s.provider.value, inputs);
  }

  // ----- the balance of the blinding factors -----

  /** A fully shielded output adds its value times its asset factor, either kind its blinding factor. */
  function OutputTerm(): ShieldedOutput -> int {
    (o: ShieldedOutput) => if o.mode == FullyShielded then o.value * OrZero(o.assetBf) + o.blindingFactor else o.blindingFactor
  }

  function InputTerm(s: WalletStorage): DataInput -> int {
    (i: DataInput) => if UtxoOf(s, i).Some? then TermOfUtxo(UtxoOf(s, i).value) else 0
  }

  /** `f` tells of each input what its utxo adds. */
  ghost predicate TellsInputs(s: WalletStorage, inputs: seq<DataInput>, f: DataInput -> int) {
    forall i :: i in inputs ==> ToldOf(s, i, TermOfUtxo, f(i))
  }

  lemma InputTermTells(s: WalletStorage, inputs: seq<DataInput>)
    ensures TellsInputs(s, inputs, InputTerm(s))
  {
    forall i | i in inputs ensures ToldOf(s, i, TermOfUtxo, InputTerm(s)(i)) {
      UtxoIsTold(s, i, TermOfUtxo);
    }
  }

  lemma OutputTerms(outs: seq<ShieldedOutput>)
    ensures Sum(Map(outs, EntryOf()), Term()) == Sum(outs, OutputTerm())
  {
    forall k | 0 <= k < |outs| ensures Term()(Map(outs, EntryOf())[k]) == OutputTerm()(outs[k]) {
    }
    SumPointwise(Map(outs, EntryOf()), outs, Term(), OutputTerm());
  }

  lemma InputTerms(s: WalletStorage, inputs: seq<DataInput>)
    ensures Sum(Blinded(s, inputs), Term()) == Sum(inputs, InputTerm(s))
  {
    var kept, others := Filter(inputs, IsBlinded(s)), (i: DataInput) => !IsBlinded(s)(i);
    SumFilterSplit(inputs, IsBlinded(s), others, InputTerm(s));
    SumZero(Filter(inputs, others), InputTerm(s));
    forall k | 0 <= k < |kept| ensures Term()(BlindedEntry(s)(kept[k])) == InputTerm(s)(kept[k]) {
      assert kept[k] in kept;
    }
    SumPointwise(Blinded(s, inputs), kept, Term(), InputTerm(s));
  }

  /** The outputs add what the inputs add, up to multiples of the group order. */
  ghost predicate FactorsBalance(s: WalletStorage, tx: DataTx, order: nat)
    requires order > 0
  {
    exists f :: TellsInputs(s, tx.inputs, f) && (Sum(tx.shieldedOutputs, OutputTerm()) - Sum(tx.inputs, f)) % order == 0
  }

  lemma CongruentDivides(a: int, b: int, order: nat)
    requires order > 0 && Congruent(a, b, order)
    ensures (a - b) % order == 0
  {
    var k: int :| a == b + k * order;
    assert a - b == order * k;
    Bytes.RemainderIs(a - b, order, k, 0);
  }

  lemma BalancedFactors(s: WalletStorage, tx: DataTx, order: nat)
    requires order > 0 && Congruent(Sum(Map(tx.shieldedOutputs, EntryOf()), Term()), Sum(Blinded(s, tx.inputs), Term()), order)
    ensures FactorsBalance(s, tx, order)
  {
    OutputTerms(tx.shieldedOutputs);
    InputTerms(s, tx.inputs);
    InputTermTells(s, tx.inputs);
    CongruentDivides(Sum(tx.shieldedOutputs, OutputTerm()), Sum(tx.inputs, InputTerm(s)), order);
  }

  // ----- the excess of a full unshield -----

  /** The excess takes the place of the outputs' factors. */
  ghost predicate ExcessBalances(s: WalletStorage, tx: DataTx, order: nat)
    requires tx.excess.Some? && order > 0
  {
    exists f :: TellsInputs(s, tx.inputs, f) && (tx.excess.value - Sum(tx.inputs, f)) % order == 0
  }

  lemma {:induction false} UnblindedSum(es: seq<Entry>)
    requires forall k :: 0 <= k < |es| ==> es[k].generatorBf == 0 && es[k].valueBf == 0
    ensures Sum(es, Term()) == 0
  {
    if es != [] {
      UnblindedSum(es[1..]);
    }
  }

  lemma PlainTermsVanish(s: WalletStorage, inputs: seq<DataInput>)
    ensures Sum(Blinded(s, inputs) + Transparent(s, inputs), Term()) == Sum(inputs, InputTerm(s))
  {
    SumAppend(Blinded(s, inputs), Transparent(s, inputs), Term());
    InputTerms(s, inputs);
    UnblindedSum(Transparent(s, inputs));
  }

  lemma ClosedExcess(s: WalletStorage, tx: DataTx, order: nat)
    requires tx.excess.Some? && order > 0
    requires Congruent(tx.excess.value + Sum(OutputEntries(tx.outputs, DeclaredFee(tx)), Term()),
                       Sum(Blinded(s, tx.inputs) + Transparent(s, tx.inputs), Term()), order)
    ensures ExcessBalances(s, tx, order)
  {
    PlainTermsVanish(s, tx.inputs);
    UnblindedSum(OutputEntries(tx.outputs, DeclaredFee(tx)));
    InputTermTells(s, tx.inputs);
    CongruentDivides(tx.excess.value, Sum(tx.inputs, InputTerm(s)), order);
  }

  lemma BlindedMeans(s: WalletStorage, inputs: seq<DataInput>)
    ensures Blinded(s, inputs) != [] ==> exists i :: i in inputs && SpendsShieldedUtxo(s, i)
    ensures UniqueOutpoints(s.funds) && (exists i :: i in inputs && SpendsShieldedUtxo(s, i)) ==> Blinded(s, inputs) != []
  {
    var kept := Filter(inputs, IsBlinded(s));
    if kept != [] {
      assert kept[0] in kept;
      assert SpendsShieldedUtxo(s, kept[0]);
    }
    if UniqueOutpoints(s.funds) && exists i :: i in inputs && SpendsShieldedUtxo(s, i) {
      var i :| i in inputs && SpendsShieldedUtxo(s, i);
      var u :| u in s.funds.store.utxos && u.id == i.id && u.shielded;
      OnlyUtxo(s, u, i);
      assert i in kept;
    }
  }

  lemma OnlyUtxo(s: WalletStorage, u: Utxo, i: DataInput)
    requires UniqueOutpoints(s.funds) && u in s.funds.store.utxos && u.id == i.id
    ensures UtxoOf(s, i) == Some(u)
  {
    var us := s.funds.store.utxos;
    var v := UtxoOf(s, i).value;
    var j, k :| 0 <= j < |us| && 0 <= k < |us| && us[j] == u && us[k] == v;
    assert Map(us, UtxoIdOf())[j] == Map(us, UtxoIdOf())[k];
  }

  // ----- the whole -----

  /** Every shielded output is the provider's, and the blinding factors balance. */
  ghost predicate OutputsAsMade(s: WalletStorage, q: Request, tx: DataTx) {
    tx.shieldedOutputs != [] ==>
      && s.provider.Some? && s.provider.value.order > 0 && FactorsBalance(s, tx, s.provider.value.order)
      && 2 <= |tx.shieldedOutputs| <= 32
      && forall o :: o in tx.shieldedOutputs ==> MadeByProvider(s, q.net, s.provider.value, tx.inputs, o)
  }

  /** An excess is given for data that spend shielded utxos and make no shielded output, and for no
      others. */
  ghost predicate ExcessAsMade(s: WalletStorage, tx: DataTx) {
    && (tx.excess.Some? ==>
          && tx.shieldedOutputs == [] && (exists i :: i in tx.inputs && SpendsShieldedUtxo(s, i))
          && s.provider.Some? && s.provider.value.order > 0 && ExcessBalances(s, tx, s.provider.value.order))
    && (UniqueOutpoints(s.funds) && tx.shieldedOutputs == [] && (exists i :: i in tx.inputs && SpendsShieldedUtxo(s, i)) ==>
          tx.excess.Some?)
  }

  lemma OutputsMade(s: WalletStorage, q: Request, tx: DataTx)
    requires ShieldedCountAllowed(tx) && ShieldedGenuine(s, q, tx) && BlindingBalanced(s, tx)
    ensures OutputsAsMade(s, q, tx)
  {
    if tx.shieldedOutputs != [] {
      BalancedFactors(s, tx, s.provider.value.order);
      forall o | o in tx.shieldedOutputs ensures MadeByProvider(s, q.net, s.provider.value, tx.inputs, o) {
        GenuineIsMade(s, q.net, tx.inputs, o);
      }
    }
  }

  lemma ExcessMade(s: WalletStorage, tx: DataTx)
    requires ExcessExact(s, tx)
    ensures ExcessAsMade(s, tx)
  {
    BlindedMeans(s, tx.inputs);
    if tx.excess.Some? {
      ClosedExcess(s, tx, s.provider.value.order);
    }
  }

  /** Whatever is delivered is made so. */
  lemma DeliveredAsMade(s: WalletStorage, q: Request, tx: DataTx)
    requires Delivered(s, q, tx)
    ensures OutputsAsMade(s, q, tx) && ExcessAsMade(s, tx)
  {
    OutputsMade(s, q, tx);
    ExcessMade(s, tx);
  }
}
