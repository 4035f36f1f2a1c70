/** Building shielded outputs: src/shielded/creation.ts.

    Blinding factors are scalars modulo the group order; the crypto provider is a record of
    functions, and `Honest` is the part of its contract the balance law rests on. */
module ShieldedCreation {
  import opened Wrappers
  import opened SeqSums
  import opened Text
  import opened WalletTypes

  type Buffer = seq<nat>

  datatype Proposal = Proposal(
    address: string,
    value: int,
    token: Uid,
    scanPubkey: string,
    mode: Mode,
    timelock: Option<int>)

  /** A committed amount: value, value blinding factor, generator blinding factor. */
  datatype Entry = Entry(value: int, valueBf: int, generatorBf: int)

  datatype Generator = Generator(token: Uid, assetBf: Option<int>)

  datatype DomainEntry = DomainEntry(generator: Buffer, tag: Buffer, bf: int)

  /** What the provider returns for one output; the buffers are checked for their size only. */
  datatype Created = Created(
    ephemeralPubkey: Buffer,
    commitment: Buffer,
    rangeProof: Buffer,
    blindingFactor: int,
    assetCommitment: Option<Buffer>,
    assetBf: Option<int>)

  datatype Provider = Provider(
    order: nat,
    balancing: (int, int, seq<Entry>, seq<Entry>) -> int,
    random: nat -> int,
    createAmount: (int, string, Uid, int) -> Created,
    createBoth: (int, string, Uid, int, int) -> Created,
    deriveTag: Uid -> Buffer,
    assetCommitmentOf: (Buffer, int) -> Buffer,
    surjectionProof: (Buffer, int, seq<DomainEntry>) -> Buffer)

  datatype ShieldedOutput = ShieldedOutput(
    address: string,
    value: int,
    token: Uid,
    scanPubkey: string,
    mode: Mode,
    ephemeralPubkey: Buffer,
    commitment: Buffer,
    rangeProof: Buffer,
    blindingFactor: int,
    assetCommitment: Option<Buffer>,
    assetBf: Option<int>,
    surjectionProof: Option<Buffer>,
    script: Buffer)

  datatype CreationError =
    | TooFewOutputs
    | TooManyOutputs
    | InvalidScanPubkey(index: nat)
    | InvalidTokenUid(index: nat)
    | ValueOutOfRange(index: nat)
    | InvalidTimelock(index: nat)
    | NoInputGenerators
    | DomainTooLarge
    | InvalidGeneratorToken(index: nat)
    | InvalidGeneratorFactor(index: nat)
    | InvalidAddress(index: nat)
    | CreationFailed(index: nat)

  const MAX_SURJECTION_DOMAIN: nat := 256
  const MAX_SHIELDED_OUTPUT_VALUE: nat := 0x100_0000_0000
  const COMPRESSED_PUBKEY_SIZE_BYTES: nat := 33
  /** One more than the greatest number that 32 bytes hold. */
  const SCALAR_BOUND: nat := 0x1_0000_0000_0000_0000_0000_0000_0000_0000_0000_0000_0000_0000_0000_0000_0000_0000
  const TX_HASH_SIZE_BYTES: nat := 32

  /** How much an entry adds to its side of the homomorphic balance. */
  function Term(): Entry -> int { (e: Entry) => e.value * e.generatorBf + e.valueBf }

  /** `a` and `b` are the same scalar. */
  ghost predicate Congruent(a: int, b: int, order: nat)
    requires order > 0
  {
    exists k: int :: a == b + k * order
  }

  /** The provider returns the blinding factors it was given, and its balancing factor closes the
      balance over the inputs and the other outputs. */
  ghost predicate Honest(p: Provider) {
    && p.order > 0
    && (forall v, g, ins, others :: Congruent(v * g + p.balancing(v, g, ins, others) + Sum(others, Term()), Sum(ins, Term()), p.order))
    && (forall v, k, t, bf :: p.createAmount(v, k, t, bf).blindingFactor == bf)
    && (forall v, k, t, bf, abf ::
          p.createBoth(v, k, t, bf, abf).blindingFactor == bf && p.createBoth(v, k, t, bf, abf).assetBf == Some(abf))
  }

  /** A provider that keeps the contract, for any group order. */
  function ExactProvider(order: nat): Provider {
    Provider(order, (v: int, g: int, ins: seq<Entry>, others: seq<Entry>) => Sum(ins, Term()) - Sum(others, Term()) - v * g,
             (n: nat) => n,
             (v: int, k: string, t: Uid, bf: int) => Created([], [], [], bf, None, None),
             (v: int, k: string, t: Uid, bf: int, abf: int) => Created([], [], [], bf, Some([]), Some(abf)),
             (t: Uid) => [], (b: Buffer, i: int) => b, (b: Buffer, i: int, d: seq<DomainEntry>) => b)
  }

  /** The contract can be kept. */
  lemma ExactProviderIsHonest(order: nat)
    requires order > 0
    ensures Honest(ExactProvider(order))
  {
    var p := ExactProvider(order);
    forall v, g, ins, others ensures Congruent(v * g + p.balancing(v, g, ins, others) + Sum(others, Term()), Sum(ins, Term()), order) {
      assert v * g + p.balancing(v, g, ins, others) + Sum(others, Term()) == Sum(ins, Term()) + 0 * order;
    }
  }

  /** The entry a finished output stands for: the token of an amount-shielded output is public, so
      its generator is unblinded. */
  function OutputEntry(o: ShieldedOutput): Entry {
    Entry(o.value, o.blindingFactor, if o.mode == FullyShielded && o.assetBf.Some? then o.assetBf.value else 0)
  }

  function EntryOf(): ShieldedOutput -> Entry { (o: ShieldedOutput) => OutputEntry(o) }

  /** How many bytes `Buffer.from(s, 'hex')` yields: it stops at the first pair that is not hex. */
  function HexBytes(s: string): nat {
    if |s| < 2 || !IsHexChar(s[0]) || !IsHexChar(s[1]) then 0 else 1 + HexBytes(s[2..])
  }

  predicate CanonicalPubkey(s: string) {
    |s| == 2 * COMPRESSED_PUBKEY_SIZE_BYTES && forall i :: 0 <= i < |s| ==> IsHexChar(s[i])
  }

  predicate TokenUidOk(t: Uid) { t == HTR || HexBytes(t.hex) == TX_HASH_SIZE_BYTES }

  /** A blinding factor of the right size: a number of 32 bytes. */
  predicate ScalarOk(bf: int) { 0 <= bf < SCALAR_BOUND }

  predicate GeneratorOk(g: Generator) { TokenUidOk(g.token) && (g.assetBf.Some? ==> ScalarOk(g.assetBf.value)) }

  predicate TimelockOk(t: Option<int>) { t.None? || 0 <= t.value <= 0xffff_ffff }

  predicate Acceptable(proposals: seq<Proposal>, generators: seq<Generator>, onCurve: string -> bool) {
    && 2 <= |proposals| <= MAX_SHIELDED_OUTPUTS
    && (forall i :: 0 <= i < |proposals| ==> ProposalOk(proposals[i], onCurve))
    && ((exists i :: 0 <= i < |proposals| && proposals[i].mode == FullyShielded) ==> generators != [])
    && |generators| <= MAX_SURJECTION_DOMAIN
    && (forall i :: 0 <= i < |generators| ==> GeneratorOk(generators[i]))
  }

  /** The checks made before any cryptography runs. */
  method Validate(proposals: seq<Proposal>, generators: seq<Generator>, onCurve: string -> bool)
    returns (r: Result<(), CreationError>)
    requires |proposals| > 0
    ensures r.Ok? <==> Acceptable(proposals, generators, onCurve)
  {
    if |proposals| == 1 {
      return Err(TooFewOutputs);
    }
    if |proposals| > MAX_SHIELDED_OUTPUTS {
      return Err(TooManyOutputs);
    }
    var hasFullShielded := exists i :: 0 <= i < |proposals| && proposals[i].mode == FullyShielded;
    for idx := 0 to |proposals|
      invariant forall i :: 0 <= i < idx ==> ProposalOk(proposals[i], onCurve)
    {
      var proposal := proposals[idx];
      if !CanonicalPubkey(proposal.scanPubkey) || !onCurve(proposal.scanPubkey) {
        return Err(InvalidScanPubkey(idx));
      }
      if !TokenUidOk(proposal.token) {
        return Err(InvalidTokenUid(idx));
      }
      if proposal.value < 1 || proposal.value >= MAX_SHIELDED_OUTPUT_VALUE {
        return Err(ValueOutOfRange(idx));
      }
      if !TimelockOk(proposal.timelock) {
        return Err(InvalidTimelock(idx));
      }
    }
    if hasFullShielded && |generators| == 0 {
      return Err(NoInputGenerators);
    }
    if |generators| > MAX_SURJECTION_DOMAIN {
      return Err(DomainTooLarge);
    }
    for idx := 0 to |generators|
      invariant forall i :: 0 <= i < idx ==> GeneratorOk(generators[i])
    {
      if !TokenUidOk(generators[idx].token) {
        return Err(InvalidGeneratorToken(idx));
      }
      if generators[idx].assetBf.Some? && !ScalarOk(generators[idx].assetBf.value) {
        return Err(InvalidGeneratorFactor(idx));
      }
    }
    r := Ok(());
  }

  predicate ProposalOk(p: Proposal, onCurve: string -> bool) {
    && CanonicalPubkey(p.scanPubkey) && onCurve(p.scanPubkey)
    && TokenUidOk(p.token)
    && 1 <= p.value < MAX_SHIELDED_OUTPUT_VALUE
    && TimelockOk(p.timelock)
  }

  predicate ShapeOk(c: Created) {
    && |c.ephemeralPubkey| == COMPRESSED_PUBKEY_SIZE_BYTES
    && |c.commitment| == COMPRESSED_PUBKEY_SIZE_BYTES
    && ScalarOk(c.blindingFactor)
    && 1 <= |c.rangeProof| <= MAX_RANGE_PROOF_SIZE
  }

  /** What the provider creates for a proposal under given blinding factors. */
  function CreatedFor(p: Proposal, provider: Provider, bf: int, abf: int): Created {
    if p.mode == FullyShielded then provider.createBoth(p.value, p.scanPubkey, p.token, bf, abf)
    else provider.createAmount(p.value, p.scanPubkey, p.token, bf)
  }

  function SurjectionProof(p: Proposal, provider: Provider, generators: seq<Generator>, abf: int): Buffer {
    provider.surjectionProof(provider.deriveTag(p.token), abf, Map(generators, DomainEntryOf(provider)))
  }

  /** The output commits to the proposed value and token under its own blinding factors; a fully
      shielded one proves its token against the input generators. */
  ghost predicate Commits(o: ShieldedOutput, p: Proposal, provider: Provider, generators: seq<Generator>) {
    var abf := if o.assetBf.Some? then o.assetBf.value else 0;
    var c := CreatedFor(p, provider, o.blindingFactor, abf);
    && ShapeOk(c) && o.ephemeralPubkey == c.ephemeralPubkey && o.commitment == c.commitment && o.rangeProof == c.rangeProof
    && (o.assetBf.Some? <==> p.mode == FullyShielded)
    && o.assetCommitment == (if p.mode == FullyShielded then c.assetCommitment else None)
    && o.surjectionProof == (if p.mode == FullyShielded then Some(SurjectionProof(p, provider, generators, abf)) else None)
  }

  /** One output as proposed. */
  ghost predicate Built(o: ShieldedOutput, p: Proposal, provider: Provider, generators: seq<Generator>, script: Buffer) {
    && o.address == p.address && o.value == p.value && o.token == p.token
    && o.scanPubkey == p.scanPubkey && o.mode == p.mode && o.script == script
    && Commits(o, p, provider, generators)
  }

  /** For some blinding factors the provider returns something of a wrong size, or none at all. */
  ghost predicate ProviderFails(p: Proposal, provider: Provider, generators: seq<Generator>) {
    exists bf, abf :: Misshapen(p, provider, generators, CreatedFor(p, provider, bf, abf))
  }

  predicate Misshapen(p: Proposal, provider: Provider, generators: seq<Generator>, c: Created) {
    || !ShapeOk(c)
    || (p.mode == FullyShielded
        && (c.assetBf.None? || !ScalarOk(c.assetBf.value) || c.assetCommitment.None? || |c.assetCommitment.value| != COMPRESSED_PUBKEY_SIZE_BYTES
            || !(1 <= |SurjectionProof(p, provider, generators, c.assetBf.value)| <= MAX_SURJECTION_PROOF_SIZE)))
  }

  /** The last output of a batch closes the balance. */
  ghost predicate Closes(e: Entry, inputs: seq<Entry>, created: seq<Entry>, order: nat)
    requires order > 0
  {
    Congruent(Sum(created, Term()) + Term()(e), Sum(inputs, Term()), order)
  }

  /** `buildAmountShieldedOutput` */
  method BuildAmount(p: Proposal, isLast: bool, provider: Provider, draw: nat, inputs: seq<Entry>, created: seq<Entry>,
                     script: Buffer, ghost generators: seq<Generator>)
    returns (r: Option<(ShieldedOutput, Entry)>, draw': nat)
    requires Honest(provider) && p.mode == AmountShielded
    ensures r.Some? ==> Built(r.value.0, p, provider, generators, script) && r.value.1 == OutputEntry(r.value.0)
    ensures r.None? ==> ProviderFails(p, provider, generators)
    ensures r.Some? && isLast && created != [] ==> Closes(r.value.1, inputs, created, provider.order)
  {
    draw' := draw;
    var cryptoResult: Created;
    ghost var bf: int;
    if isLast && |created| > 0 {
      var balancingBf := provider.balancing(p.value, 0, inputs, created);
      cryptoResult := provider.createAmount(p.value, p.scanPubkey, p.token, balancingBf);
      bf := balancingBf;
      assert Congruent(p.value * 0 + balancingBf + Sum(created, Term()), Sum(inputs, Term()), provider.order);
    } else {
      var vbf := provider.random(draw');
      draw' := draw' + 1;
      cryptoResult := provider.createAmount(p.value, p.scanPubkey, p.token, vbf);
      bf := vbf;
    }
    assert cryptoResult == CreatedFor(p, provider, bf, 0);
    if !ShapeOk(cryptoResult) {
      assert Misshapen(p, provider, generators, CreatedFor(p, provider, bf, 0));
      return None, draw';
    }
    var output := ShieldedOutput(p.address, p.value, p.token, p.scanPubkey, AmountShielded,
                                 cryptoResult.ephemeralPubkey, cryptoResult.commitment, cryptoResult.rangeProof,
                                 cryptoResult.blindingFactor, None, None, None, script);
    r := Some((output, Entry(p.value, cryptoResult.blindingFactor, 0)));
  }

  function DomainEntryOf(provider: Provider): Generator -> DomainEntry {
    (g: Generator) =>
      var abf := if g.assetBf.Some? then g.assetBf.value else 0;
      DomainEntry(provider.assetCommitmentOf(provider.deriveTag(g.token), abf), provider.deriveTag(g.token), abf)
  }

  /** `buildSurjectionDomain`: one entry per input generator, in order. */
  method BuildSurjectionDomain(generators: seq<Generator>, provider: Provider) returns (domain: seq<DomainEntry>)
    ensures domain == Map(generators, DomainEntryOf(provider))
  {
    domain := [];
    for k := 0 to |generators|
      invariant domain == Map(generators[..k], DomainEntryOf(provider))
    {
      var g := generators[k];
      var tag := provider.deriveTag(g.token);
      var abf := if g.assetBf.Some? then g.assetBf.value else 0;
      domain := domain + [DomainEntry(provider.assetCommitmentOf(tag, abf), tag, abf)];
      assert generators[..k+1] == generators[..k] + [g];
    }
    assert generators[..|generators|] == generators;
  }

  /** `buildFullShieldedOutput` */
  method BuildFull(p: Proposal, isLast: bool, provider: Provider, draw: nat, inputs: seq<Entry>, created: seq<Entry>,
                   script: Buffer, generators: seq<Generator>)
    returns (r: Option<(ShieldedOutput, Entry)>, draw': nat)
    requires Honest(provider) && p.mode == FullyShielded
    ensures r.Some? ==> Built(r.value.0, p, provider, generators, script) && r.value.1 == OutputEntry(r.value.0)
    ensures r.None? ==> ProviderFails(p, provider, generators)
    ensures r.Some? && isLast && created != [] ==> Closes(r.value.1, inputs, created, provider.order)
  {
    draw' := draw;
    var cryptoResult: Created;
    ghost var bfs: (int, int);
    if isLast && |created| > 0 {
      var lastAbf := provider.random(draw');
      draw' := draw' + 1;
      var balancingBf := provider.balancing(p.value, lastAbf, inputs, created);
      cryptoResult := provider.createBoth(p.value, p.scanPubkey, p.token, balancingBf, lastAbf);
      bfs := (balancingBf, lastAbf);
      assert Congruent(p.value * lastAbf + balancingBf + Sum(created, Term()), Sum(inputs, Term()), provider.order);
    } else {
      var vbf, abf := provider.random(draw'), provider.random(draw' + 1);
      draw' := draw' + 2;
      cryptoResult := provider.createBoth(p.value, p.scanPubkey, p.token, vbf, abf);
      bfs := (vbf, abf);
    }
    assert cryptoResult == CreatedFor(p, provider, bfs.0, bfs.1);
    if cryptoResult.assetBf.None? || cryptoResult.assetCommitment.None? || !ShapeOk(cryptoResult)
       || |cryptoResult.assetCommitment.value| != COMPRESSED_PUBKEY_SIZE_BYTES || !ScalarOk(cryptoResult.assetBf.value) {
      assert Misshapen(p, provider, generators, CreatedFor(p, provider, bfs.0, bfs.1));
      return None, draw';
    }
    var codomainTag := provider.deriveTag(p.token);
    var domain := BuildSurjectionDomain(generators, provider);
    var proof := provider.surjectionProof(codomainTag, cryptoResult.assetBf.value, domain);
    assert proof == SurjectionProof(p, provider, generators, cryptoResult.assetBf.value);
    if !(1 <= |proof| <= MAX_SURJECTION_PROOF_SIZE) {
      assert Misshapen(p, provider, generators, CreatedFor(p, provider, bfs.0, bfs.1));
      return None, draw';
    }
    var output := ShieldedOutput(p.address, p.value, p.token, p.scanPubkey, FullyShielded,
                                 cryptoResult.ephemeralPubkey, cryptoResult.commitment, cryptoResult.rangeProof,
                                 cryptoResult.blindingFactor, cryptoResult.assetCommitment, cryptoResult.assetBf, Some(proof), script);
    r := Some((output, Entry(p.value, cryptoResult.blindingFactor, cryptoResult.assetBf.value)));
  }

  /** What a finished batch promises: one output per proposal, in order, every value in the range
      proof's domain, and blinding terms that sum to those of the inputs. */
  ghost predicate Batch(outputs: seq<ShieldedOutput>, proposals: seq<Proposal>, inputs: seq<Entry>, order: nat)
    requires order > 0
  {
    && |outputs| == |proposals|
    && (forall i :: 0 <= i < |proposals| ==>
          && outputs[i].address == proposals[i].address && outputs[i].value == proposals[i].value
          && outputs[i].token == proposals[i].token && outputs[i].mode == proposals[i].mode
          && outputs[i].scanPubkey == proposals[i].scanPubkey
          && 1 <= outputs[i].value < MAX_SHIELDED_OUTPUT_VALUE)
    && Congruent(Sum(Map(outputs, EntryOf()), Term()), Sum(inputs, Term()), order)
  }

  /** Why a batch failed: it is not acceptable, an address has no script, or the provider misbehaves. */
  ghost predicate BatchRefused(proposals: seq<Proposal>, provider: Provider, scriptOf: string -> Option<Buffer>,
                               onCurve: string -> bool, generators: seq<Generator>, e: CreationError) {
    || !Acceptable(proposals, generators, onCurve)
    || (e.InvalidAddress? && e.index < |proposals| && scriptOf(proposals[e.index].address) == None)
    || (e.CreationFailed? && e.index < |proposals| && ProviderFails(proposals[e.index], provider, generators))
  }

  ghost predicate ScriptedAndBuilt(o: ShieldedOutput, p: Proposal, provider: Provider, generators: seq<Generator>, script: Option<Buffer>) {
    script.Some? && Built(o, p, provider, generators, script.value)
  }

  /** `createShieldedOutputs` */
  method CreateShieldedOutputs(proposals: seq<Proposal>, provider: Provider, scriptOf: string -> Option<Buffer>,
                               onCurve: string -> bool, generators: seq<Generator>, blindedInputs: seq<Entry>)
    returns (r: Result<seq<ShieldedOutput>, CreationError>)
    requires Honest(provider)
    ensures r.Ok? && proposals == [] ==> r.value == []
    ensures r.Ok? && proposals != [] ==>
      2 <= |proposals| <= MAX_SHIELDED_OUTPUTS && Batch(r.value, proposals, blindedInputs, provider.order)
    ensures r.Ok? ==> |r.value| == |proposals|
    ensures r.Ok? && proposals != [] ==> Acceptable(proposals, generators, onCurve)
    ensures r.Ok? ==> forall i :: 0 <= i < |proposals| ==>
      ScriptedAndBuilt(r.value[i], proposals[i], provider, generators, scriptOf(proposals[i].address))
    ensures r.Err? ==> proposals != [] && BatchRefused(proposals, provider, scriptOf, onCurve, generators, r.error)
  {
    if |proposals| == 0 {
      return Ok([]);
    }
    var valid := Validate(proposals, generators, onCurve);
    if valid.Err? {
      return Err(valid.error);
    }
    r := BuildAll(proposals, provider, scriptOf, generators, blindedInputs);
    if r.Ok? {
      BatchHolds(r.value, proposals, provider, scriptOf, onCurve, generators, blindedInputs);
    }
  }

  /** The loop over the proposals; the last output closes the balance. */
  method BuildAll(proposals: seq<Proposal>, provider: Provider, scriptOf: string -> Option<Buffer>, generators: seq<Generator>,
                  blindedInputs: seq<Entry>)
    returns (r: Result<seq<ShieldedOutput>, CreationError>)
    requires Honest(provider) && |proposals| >= 2
    ensures r.Ok? ==> AllBuilt(r.value, proposals, provider, scriptOf, generators)
    ensures r.Ok? ==> Congruent(Sum(Map(r.value, EntryOf()), Term()), Sum(blindedInputs, Term()), provider.order)
    ensures r.Err? ==>
      || (r.error.InvalidAddress? && r.error.index < |proposals| && scriptOf(proposals[r.error.index].address) == None)
      || (r.error.CreationFailed? && r.error.index < |proposals| && ProviderFails(proposals[r.error.index], provider, generators))
  {
    var results: seq<ShieldedOutput> := [];
    var createdOutputs: seq<Entry> := [];
    var draw := 0;
    for i := 0 to |proposals|
      invariant |results| == i && createdOutputs == Map(results, EntryOf())
      invariant AllBuilt(results, proposals[..i], provider, scriptOf, generators)
      invariant i == |proposals| ==> Congruent(Sum(createdOutputs, Term()), Sum(blindedInputs, Term()), provider.order)
    {
      var proposal := proposals[i];
      var isLast := i == |proposals| - 1;
      var script := scriptOf(proposal.address);
      if script.None? {
        return Err(InvalidAddress(i));
      }
      var built: Option<(ShieldedOutput, Entry)>;
      built, draw := BuildOne(proposal, isLast, provider, draw, blindedInputs, createdOutputs, script.value, generators);
      if built.None? {
        return Err(CreationFailed(i));
      }
      BuiltPush(results, proposals, i, provider, scriptOf, generators, built.value.0);
      MapPush(results, built.value.0, EntryOf());
      SumPush(createdOutputs, built.value.1, Term());
      results := results + [built.value.0];
      createdOutputs := createdOutputs + [built.value.1];
    }
    assert proposals[..|proposals|] == proposals;
    r := Ok(results);
  }

  /** One output in the mode of its proposal. */
  method BuildOne(p: Proposal, isLast: bool, provider: Provider, draw: nat, inputs: seq<Entry>, created: seq<Entry>,
                  script: Buffer, generators: seq<Generator>)
    returns (r: Option<(ShieldedOutput, Entry)>, draw': nat)
    requires Honest(provider)
    ensures r.Some? ==> Built(r.value.0, p, provider, generators, script) && r.value.1 == OutputEntry(r.value.0)
    ensures r.None? ==> ProviderFails(p, provider, generators)
    ensures r.Some? && isLast && created != [] ==> Closes(r.value.1, inputs, created, provider.order)
  {
    if p.mode == FullyShielded {
      r, draw' := BuildFull(p, isLast, provider, draw, inputs, created, script, generators);
    } else {
      r, draw' := BuildAmount(p, isLast, provider, draw, inputs, created, script, generators);
    }
  }

  lemma BuiltPush(outputs: seq<ShieldedOutput>, proposals: seq<Proposal>, i: nat, provider: Provider, scriptOf: string -> Option<Buffer>,
                  generators: seq<Generator>, output: ShieldedOutput)
    requires i < |proposals| && AllBuilt(outputs, proposals[..i], provider, scriptOf, generators)
    requires ScriptedAndBuilt(output, proposals[i], provider, generators, scriptOf(proposals[i].address))
    ensures AllBuilt(outputs + [output], proposals[..i+1], provider, scriptOf, generators)
  {
    assert proposals[..i+1] == proposals[..i] + [proposals[i]];
  }

  ghost predicate AllBuilt(outputs: seq<ShieldedOutput>, proposals: seq<Proposal>, provider: Provider, scriptOf: string -> Option<Buffer>,
                           generators: seq<Generator>) {
    |outputs| == |proposals| && forall i :: 0 <= i < |proposals| ==>
      ScriptedAndBuilt(outputs[i], proposals[i], provider, generators, scriptOf(proposals[i].address))
  }

  lemma BatchHolds(outputs: seq<ShieldedOutput>, proposals: seq<Proposal>, provider: Provider, scriptOf: string -> Option<Buffer>,
                   onCurve: string -> bool, generators: seq<Generator>, inputs: seq<Entry>)
    requires provider.order > 0 && AllBuilt(outputs, proposals, provider, scriptOf, generators) && Acceptable(proposals, generators, onCurve)
    requires Congruent(Sum(Map(outputs, EntryOf()), Term()), Sum(inputs, Term()), provider.order)
    ensures Batch(outputs, proposals, inputs, provider.order)
  {
    forall i | 0 <= i < |proposals|
      ensures outputs[i].address == proposals[i].address && outputs[i].value == proposals[i].value
        && outputs[i].token == proposals[i].token && outputs[i].mode == proposals[i].mode
        && outputs[i].scanPubkey == proposals[i].scanPubkey && 1 <= outputs[i].value < MAX_SHIELDED_OUTPUT_VALUE
    {
      assert ScriptedAndBuilt(outputs[i], proposals[i], provider, generators, scriptOf(proposals[i].address));
      assert ProposalOk(proposals[i], onCurve);
    }
  }
}
