/** The last stage of `prepareTxData` (src/new/sendTransaction.ts:563-824): final output list, input
    commitments, shielded outputs, the excess factor and the public token list. */
module TransactionAssembly {
  import opened Wrappers
  import opened SeqSums
  import opened WalletTypes
  import opened SendModel
  import opened TokenFunding
  import opened ChangeShielding
  import opened SendPlan
  import opened SendBalance
  import opened ShieldedCreation
  import UtxoStore
  import Fee

  /** lodash's `shuffle`; `draw` is its source of randomness. */
  method Shuffle<T(!new)>(s: seq<T>, draw: nat -> nat) returns (r: seq<T>)
    ensures multiset(r) == multiset(s)
  {
    r := s;
    for i := 0 to |s|
      invariant |r| == |s| && multiset(r) == multiset(s)
    {
      var j := i + draw(i) % (|s| - i);
      r := r[i := r[j]][j := r[i]];
    }
  }

  /** Outputs added after the requested ones are new objects, different from every requested one. */
  function Numbered(outs: seq<DataOutput>, from: nat): seq<Slot> {
    seq(|outs|, k requires 0 <= k < |outs| => Slot(from + k, outs[k]))
  }

  function AllSlots(q: Request, p: Plan): seq<Slot> {
    RequestedSlots(q.outputs, q.net) + Numbered(p.kept + p.htrFinal.outputs, |q.outputs|)
  }

  /** In whatever order, the slots that are no phantoms are the plan's transparent outputs. */
  lemma DroppingPhantoms(q: Request, p: Plan, slots: seq<Slot>)
    requires multiset(slots) == multiset(AllSlots(q, p))
    ensures multiset(Map(Filter(slots, NotPhantom(Phantoms(q.outputs))), OutOf())) == multiset(PlanOutputs(q, p))
  {
    var keep := NotPhantom(Phantoms(q.outputs));
    FilterPermutation(slots, AllSlots(q, p), keep);
    MapPermutation(Filter(slots, keep), Filter(AllSlots(q, p), keep), OutOf());
    KeptSlots(q, p);
  }

  /** Added slots are never phantoms. */
  lemma KeptSlots(q: Request, p: Plan)
    ensures Map(Filter(AllSlots(q, p), NotPhantom(Phantoms(q.outputs))), OutOf()) == PlanOutputs(q, p)
  {
    var keep := NotPhantom(Phantoms(q.outputs));
    var change := p.kept + p.htrFinal.outputs;
    var added := Numbered(change, |q.outputs|);
    FilterAppend(RequestedSlots(q.outputs, q.net), added, keep);
    FilterAll(added, keep);
    SlotsToOutputs(ExplicitSlots(q), added, change);
    assert PlanOutputs(q, p) == ExplicitOuts(q) + change;
  }

  lemma SlotsToOutputs(slots: seq<Slot>, added: seq<Slot>, change: seq<DataOutput>)
    requires |added| == |change| && forall k :: 0 <= k < |added| ==> added[k].out == change[k]
    ensures Map(slots + added, OutOf()) == Map(slots, OutOf()) + change
  {
  }

  /** Appending the change, shuffling if there is any, and dropping the phantoms by identity. */
  method FinalOutputs(q: Request, p: Plan, draw: nat -> nat) returns (outputs: seq<DataOutput>)
    ensures multiset(outputs) == multiset(PlanOutputs(q, p))
    ensures p.kept == [] && p.htrFinal.outputs == [] ==> outputs == ExplicitOuts(q)
  {
    var phantoms := Phantoms(q.outputs);
    var slots := RequestedSlots(q.outputs, q.net);
    if |p.kept| > 0 || |p.htrFinal.outputs| > 0 {
      slots := Shuffle(slots + Numbered(p.kept + p.htrFinal.outputs, |q.outputs|), draw);
    } else {
      assert AllSlots(q, p) == slots;
    }
    DroppingPhantoms(q, p, slots);
    outputs := Map(Filter(slots, NotPhantom(phantoms)), OutOf());
  }

  // ----- the inputs' commitments -----

  /** `getUtxo` */
  function FindUtxo(utxos: seq<Utxo>, id: UtxoId): (r: Option<Utxo>)
    ensures r.Some? ==> r.value in utxos && r.value.id == id
    ensures r.None? ==> forall u :: u in utxos ==> u.id != id
  {
    if utxos == [] then None
    else if utxos[0].id == id then Some(utxos[0])
    else
      var r := FindUtxo(utxos[1..], id);
      assert utxos == [utxos[0]] + utxos[1..];
      r
  }

  function UtxoOf(s: WalletStorage, i: DataInput): Option<Utxo> { FindUtxo(s.funds.store.utxos, i.id) }

  function IsBlinded(s: WalletStorage): DataInput -> bool {
    (i: DataInput) => UtxoOf(s, i).Some? && UtxoOf(s, i).value.shielded
  }

  /** A transparent input enters the balance when it is funds. */
  function IsTransparent(s: WalletStorage): DataInput -> bool {
    (i: DataInput) =>
      && UtxoOf(s, i).Some? && !UtxoOf(s, i).value.shielded
      && UtxoOf(s, i).value.authorities == 0 && UtxoOf(s, i).value.value > 0
  }

  function Factor(f: Option<int>): int { if f.Some? then f.value else 0 }

  function BlindedEntry(s: WalletStorage): DataInput -> Entry {
    (i: DataInput) =>
      if UtxoOf(s, i).None? then Entry(0, 0, 0)
      else var u := UtxoOf(s, i).value; Entry(u.value, Factor(u.blindingFactor), Factor(u.assetBlindingFactor))
  }

  function PlainEntry(s: WalletStorage): DataInput -> Entry {
    (i: DataInput) => if UtxoOf(s, i).None? then Entry(0, 0, 0) else Entry(UtxoOf(s, i).value.value, 0, 0)
  }

  function GeneratorFor(s: WalletStorage): DataInput -> Generator {
    (i: DataInput) =>
      Generator(i.token, if UtxoOf(s, i).Some? && UtxoOf(s, i).value.shielded then UtxoOf(s, i).value.assetBlindingFactor else None)
  }

  function Blinded(s: WalletStorage, inputs: seq<DataInput>): seq<Entry> {
    Map(Filter(inputs, IsBlinded(s)), BlindedEntry(s))
  }

  function Transparent(s: WalletStorage, inputs: seq<DataInput>): seq<Entry> {
    Map(Filter(inputs, IsTransparent(s)), PlainEntry(s))
  }

  /** The loop over all inputs. */
  method CollectEntries(s: WalletStorage, inputs: seq<DataInput>)
    returns (r: Result<(seq<Generator>, seq<Entry>, seq<Entry>), SendError>)
    ensures r.Ok? ==>
      && r.value.0 == Map(inputs, GeneratorFor(s))
      && r.value.1 == Blinded(s, inputs)
      && r.value.2 == Transparent(s, inputs)
    ensures r.Ok? <==> forall i :: i in inputs && IsBlinded(s)(i) ==> UtxoOf(s, i).value.blindingFactor.Some?
    ensures r.Err? ==> r.error == MissingBlindingFactor
  {
    var generators: seq<Generator> := [];
    var blinded: seq<Entry> := [];
    var transparent: seq<Entry> := [];
    for k := 0 to |inputs|
      invariant generators == Map(inputs[..k], GeneratorFor(s))
      invariant blinded == Blinded(s, inputs[..k])
      invariant transparent == Transparent(s, inputs[..k])
      invariant forall i :: i in inputs[..k] && IsBlinded(s)(i) ==> UtxoOf(s, i).value.blindingFactor.Some?
    {
      var inp := inputs[k];
      assert inputs[..k+1] == inputs[..k] + [inp];
      EntriesPush(s, inputs[..k], inp);
      var utxo := UtxoOf(s, inp);
      generators := generators + [Generator(inp.token, if utxo.Some? && utxo.value.shielded then utxo.value.assetBlindingFactor else None)];
      if utxo.Some? && utxo.value.shielded {
        if utxo.value.blindingFactor.None? {
          return Err(MissingBlindingFactor);
        }
        blinded := blinded + [Entry(utxo.value.value, utxo.value.blindingFactor.value, Factor(utxo.value.assetBlindingFactor))];
      } else if utxo.Some? && utxo.value.authorities == 0 && utxo.value.value > 0 {
        transparent := transparent + [Entry(utxo.value.value, 0, 0)];
      }
    }
    assert inputs[..|inputs|] == inputs;
    r := Ok((generators, blinded, transparent));
  }

  lemma EntriesPush(s: WalletStorage, inputs: seq<DataInput>, i: DataInput)
    ensures Map(inputs + [i], GeneratorFor(s)) == Map(inputs, GeneratorFor(s)) + [GeneratorFor(s)(i)]
    ensures Blinded(s, inputs + [i]) == Blinded(s, inputs) + if IsBlinded(s)(i) then [BlindedEntry(s)(i)] else []
    ensures Transparent(s, inputs + [i]) == Transparent(s, inputs) + if IsTransparent(s)(i) then [PlainEntry(s)(i)] else []
  {
    MapPush(inputs, i, GeneratorFor(s));
    FilterPush(inputs, i, IsBlinded(s));
    FilterPush(inputs, i, IsTransparent(s));
    MapPush(Filter(inputs, IsBlinded(s)), i, BlindedEntry(s));
    MapPush(Filter(inputs, IsTransparent(s)), i, PlainEntry(s));
  }

  function EntryValue(): Entry -> int { (e: Entry) => e.value }

  function InputValue(): DataInput -> int { (i: DataInput) => i.value }

  function OutputValue(): DataOutput -> int { (o: DataOutput) => o.value }

  /** The utxo of an input is in the store with the same value. */
  predicate Covered(s: WalletStorage, i: DataInput) {
    UtxoOf(s, i).Some? && UtxoOf(s, i).value.value == i.value && UtxoOf(s, i).value.authorities == 0
  }

  /** The collected entries carry the value of every input. */
  lemma {:induction false} EntriesCarryAllValue(s: WalletStorage, inputs: seq<DataInput>)
    requires forall i :: i in inputs ==> Covered(s, i)
    ensures Sum(Blinded(s, inputs), EntryValue()) + Sum(Transparent(s, inputs), EntryValue()) == Sum(inputs, InputValue())
  {
    if inputs == [] {
      assert Blinded(s, inputs) == [] && Transparent(s, inputs) == [];
    } else {
      var init, last := inputs[..|inputs| - 1], inputs[|inputs| - 1];
      assert inputs == init + [last] && last in inputs;
      EntriesCarryAllValue(s, init);
      SumPush(init, last, InputValue());
      EntriesGrow(s, init, last);
    }
  }

  lemma EntriesGrow(s: WalletStorage, init: seq<DataInput>, last: DataInput)
    requires Covered(s, last)
    ensures Sum(Blinded(s, init + [last]), EntryValue()) + Sum(Transparent(s, init + [last]), EntryValue())
         == Sum(Blinded(s, init), EntryValue()) + Sum(Transparent(s, init), EntryValue()) + last.value
  {
    var b, t := Blinded(s, init), Transparent(s, init);
    EntriesPush(s, init, last);
    SumPush(b, BlindedEntry(s)(last), EntryValue());
    SumPush(t, PlainEntry(s)(last), EntryValue());
    assert b + [] == b && t + [] == t;
  }

  /** Every input of a plan is covered by the store. */
  lemma PlanIsCovered(s: WalletStorage, q: Request, p: Plan, pulled: seq<Utxo>)
    requires Planned(s, q, p, pulled) && StoreMirrorsHistory(s)
    ensures forall i :: i in PlanInputs(p) ==> Covered(s, i)
  {
    CallerInputsChecked(s, q, p, pulled);
    WalletAddsOnlyMissingTokens(s, q, p, pulled);
    PlanPartsCovered(s, q, p);
  }

  lemma PlanPartsCovered(s: WalletStorage, q: Request, p: Plan)
    requires StoreMirrorsHistory(s) && ResolvedInputs(s, q.inputs, p.caller)
    requires forall i :: i in p.caller ==> UnspentAndMine(s, i, i.token)
    requires forall i :: i in p.custom.inputs + p.htrFinal.inputs ==> FromStore(s, i.token, i)
    ensures forall i :: i in PlanInputs(p) ==> Covered(s, i)
  {
    forall i | i in PlanInputs(p) ensures Covered(s, i) {
      if i in p.caller {
        var k :| 0 <= k < |p.caller| && p.caller[k] == i;
        assert InputFor(s, q.inputs[k]) == Some(p.caller[k]) && i.id == q.inputs[k];
        assert HasUtxo(s, i);
        var u :| u in s.funds.store.utxos && u.id == i.id && u.value == i.value && u.authorities == 0;
        FoundIs(s, i, u);
      } else {
        assert i in p.custom.inputs + p.htrFinal.inputs;
        var u :| u in s.funds.store.utxos && SpendsUtxo(i, u) && u.authorities == 0;
        FoundIs(s, i, u);
      }
    }
  }

  lemma FoundIs(s: WalletStorage, i: DataInput, u: Utxo)
    requires UtxoStore.UniqueOutpoints(s.funds) && u in s.funds.store.utxos && u.id == i.id
    ensures UtxoOf(s, i) == Some(u)
  {
    var found := UtxoOf(s, i);
    assert found.Some?;
    SameIdSameUtxo(s, found.value, u);
  }

  // ----- shielded outputs and the excess -----

  /** The output pays the script of its address and commits to its value and token; a fully shielded
      one proves its token against the generators of all inputs. */
  ghost predicate Genuine(s: WalletStorage, net: Network, inputs: seq<DataInput>, o: ShieldedOutput) {
    && s.provider.Some?
    && net.scriptOf(o.address) == Some(o.script)
    && Commits(o, ProposalFor(o), s.provider.value, Map(inputs, GeneratorFor(s)))
  }

  function ProposalFor(o: ShieldedOutput): Def { ShieldedCreation.Proposal(o.address, o.value, o.token, o.scanPubkey, o.mode, None) }

  lemma AllGenuine(s: WalletStorage, net: Network, inputs: seq<DataInput>, outs: seq<ShieldedOutput>, defs: seq<Def>)
    requires s.provider.Some? && |outs| == |defs|
    requires forall i :: 0 <= i < |defs| ==>
      ScriptedAndBuilt(outs[i], defs[i], s.provider.value, Map(inputs, GeneratorFor(s)), net.scriptOf(defs[i].address))
    ensures forall o :: o in outs ==> Genuine(s, net, inputs, o)
  {
    forall o | o in outs ensures Genuine(s, net, inputs, o) {
      var i :| 0 <= i < |outs| && outs[i] == o;
      assert ScriptedAndBuilt(o, defs[i], s.provider.value, Map(inputs, GeneratorFor(s)), net.scriptOf(defs[i].address));
      assert CreatedFor(defs[i], s.provider.value, o.blindingFactor, if o.assetBf.Some? then o.assetBf.value else 0)
          == CreatedFor(ProposalFor(o), s.provider.value, o.blindingFactor, if o.assetBf.Some? then o.assetBf.value else 0);
    }
  }

  /** Why the shielded outputs could not be created. */
  ghost predicate CreationRefused(s: WalletStorage, net: Network, inputs: seq<DataInput>, defs: seq<Def>, e: SendError) {
    || (e == CryptoProviderNotSet && defs != [] && s.provider == None)
    || (e == LoneShieldedOutput && |defs| == 1)
    || (e == TooManyShieldedOutputs && |defs| > MAX_SHIELDED_OUTPUTS)
    || (e == ShieldedCreationFailed && 2 <= |defs| <= MAX_SHIELDED_OUTPUTS && BatchFails(s, net, inputs, defs))
  }

  ghost predicate BatchFails(s: WalletStorage, net: Network, inputs: seq<DataInput>, defs: seq<Def>) {
    s.provider.Some? && exists shuffled, cause ::
      multiset(shuffled) == multiset(defs)
      && BatchRefused(shuffled, s.provider.value, net.scriptOf, net.onCurve, Map(inputs, GeneratorFor(s)), cause)
  }

  /** Creating the shielded outputs; the count is checked before any cryptography runs. */
  method CreateOutputs(s: WalletStorage, net: Network, defs: seq<Def>, generators: seq<Generator>, blinded: seq<Entry>,
                       draw: nat -> nat, ghost inputs: seq<DataInput>)
    returns (r: Result<seq<ShieldedOutput>, SendError>, ghost shuffled: seq<Def>)
    requires generators == Map(inputs, GeneratorFor(s))
    requires s.provider.Some? ==> Honest(s.provider.value)
    ensures r.Ok? ==> forall o :: o in r.value ==> Genuine(s, net, inputs, o)
    ensures multiset(shuffled) == multiset(defs)
    ensures r.Ok? ==> |r.value| == |defs|
    ensures r.Ok? && defs != [] ==>
      && 2 <= |defs| <= MAX_SHIELDED_OUTPUTS
      && s.provider.Some?
      && Batch(r.value, shuffled, blinded, s.provider.value.order)
    ensures r.Err? ==> CreationRefused(s, net, inputs, defs, r.error)
  {
    shuffled := defs;
    if |defs| == 0 {
      return Ok([]), shuffled;
    }
    if s.provider.None? {
      return Err(CryptoProviderNotSet), shuffled;
    }
    if |defs| == 1 {
      return Err(LoneShieldedOutput), shuffled;
    }
    if |defs| > MAX_SHIELDED_OUTPUTS {
      return Err(TooManyShieldedOutputs), shuffled;
    }
    var shuffledShieldedDefs := Shuffle(defs, draw);
    shuffled := shuffledShieldedDefs;
    assert |multiset(shuffled)| == |multiset(defs)|;
    var created := CreateShieldedOutputs(shuffledShieldedDefs, s.provider.value, net.scriptOf, net.onCurve, generators, blinded);
    if created.Err? {
      return Err(ShieldedCreationFailed), shuffled;
    }
    AllGenuine(s, net, inputs, created.value, shuffledShieldedDefs);
    r := Ok(created.value);
  }

  function OpenEntry(): DataOutput -> Entry { (o: DataOutput) => Entry(o.value, 0, 0) }

  /** The output side of a transaction without shielded outputs. */
  function OutputEntries(outputs: seq<DataOutput>, fee: int): seq<Entry> {
    Map(outputs, OpenEntry()) + if fee > 0 then [Entry(fee, 0, 0)] else []
  }

  /** The excess factor closes the balance of a transaction that unshields everything. */
  ghost predicate ExcessCloses(provider: Provider, excess: int, ins: seq<Entry>, outs: seq<Entry>)
    requires provider.order > 0
  {
    Congruent(excess + Sum(outs, Term()), Sum(ins, Term()), provider.order)
  }

  /** The full-unshield branch. */
  method ComputeExcess(s: WalletStorage, outputs: seq<DataOutput>, fee: int, shieldedCount: nat, blinded: seq<Entry>, transparent: seq<Entry>)
    returns (r: Result<Option<int>, SendError>)
    requires s.provider.Some? ==> Honest(s.provider.value)
    ensures r.Ok? ==> (r.value.Some? <==> shieldedCount == 0 && blinded != [])
    ensures r.Err? <==> shieldedCount == 0 && blinded != [] && s.provider == None
    ensures r.Err? ==> r.error == CryptoProviderNotSet
    ensures r.Ok? && r.value.Some? ==>
      && s.provider.Some?
      && r.value.value == s.provider.value.balancing(0, 0, blinded + transparent, OutputEntries(outputs, fee))
      && ExcessCloses(s.provider.value, r.value.value, blinded + transparent, OutputEntries(outputs, fee))
  {
    if !(shieldedCount == 0 && |blinded| > 0) {
      return Ok(None);
    }
    if s.provider.None? {
      return Err(CryptoProviderNotSet);
    }
    var entries: seq<Entry> := [];
    for k := 0 to |outputs|
      invariant entries == Map(outputs[..k], OpenEntry())
    {
      assert outputs[..k+1] == outputs[..k] + [outputs[k]];
      entries := entries + [Entry(outputs[k].value, 0, 0)];
    }
    assert outputs[..|outputs|] == outputs;
    if fee > 0 {
      entries := entries + [Entry(fee, 0, 0)];
    }
    assert entries == OutputEntries(outputs, fee);
    var excess := s.provider.value.balancing(0, 0, blinded + transparent, entries);
    assert Congruent(0 * 0 + excess + Sum(entries, Term()), Sum(blinded + transparent, Term()), s.provider.value.order);
    r := Ok(Some(excess));
  }

  /** Why a complete plan could not be assembled. */
  ghost predicate AssemblyRefused(s: WalletStorage, q: Request, p: Plan, e: SendError) {
    || (e == MissingBlindingFactor
        && exists i :: i in PlanInputs(p) && IsBlinded(s)(i) && UtxoOf(s, i).value.blindingFactor == None)
    || CreationRefused(s, q.net, PlanInputs(p), p.defs, e)
    || (e == CryptoProviderNotSet && p.defs == [] && Blinded(s, PlanInputs(p)) != [] && s.provider == None)
  }

  // ----- the public token list -----

  /** A custom token is visible when a transparent or amount-shielded output names it. */
  ghost predicate Visible(outputs: seq<DataOutput>, shielded: seq<ShieldedOutput>, t: Uid) {
    || (exists o :: o in outputs && o.token == t && t != HTR && o.authorities == 0)
    || (exists o :: o in shielded && o.token == t && o.mode != FullyShielded)
  }

  method VisibleTokens(order: seq<Uid>, outputs: seq<DataOutput>, shielded: seq<ShieldedOutput>) returns (tokens: seq<Uid>)
    requires Distinct(order)
    ensures Distinct(tokens)
    ensures forall t :: t in tokens <==> t in order && Visible(outputs, shielded, t)
  {
    var visible: set<Uid> := {};
    for k := 0 to |outputs|
      invariant forall t: Uid :: t in visible <==> exists j :: 0 <= j < k && outputs[j].token == t && t != HTR && outputs[j].authorities == 0
    {
      var out := outputs[k];
      if out.token == HTR || out.authorities != 0 {
        continue;
      }
      visible := visible + {out.token};
    }
    ghost var open := visible;
    for k := 0 to |shielded|
      invariant forall t: Uid :: t in visible <==> t in open || exists j :: 0 <= j < k && shielded[j].token == t && shielded[j].mode != FullyShielded
    {
      if shielded[k].mode != FullyShielded {
        visible := visible + {shielded[k].token};
      }
    }
    VisibleByIndex(outputs, shielded, open, visible);
    tokens := [];
    for k := 0 to |order|
      invariant Distinct(tokens)
      invariant forall t :: t in tokens <==> t in order[..k] && t in visible
    {
      assert order[..k+1] == order[..k] + [order[k]];
      assert order[k] !in order[..k];
      if order[k] in visible {
        tokens := tokens + [order[k]];
      }
    }
    assert order[..|order|] == order;
  }

  lemma VisibleByIndex(outputs: seq<DataOutput>, shielded: seq<ShieldedOutput>, open: set<Uid>, visible: set<Uid>)
    requires forall t: Uid :: t in open <==>
      exists j :: 0 <= j < |outputs| && outputs[j].token == t && t != HTR && outputs[j].authorities == 0
    requires forall t: Uid :: t in visible <==>
      t in open || exists j :: 0 <= j < |shielded| && shielded[j].token == t && shielded[j].mode != FullyShielded
    ensures forall t: Uid :: t in visible <==> Visible(outputs, shielded, t)
  {
  }
}
