/** What `createShieldedOutputs` accepts, and why it fails, in plain numbers: counts, sizes, ranges and
    characters (src/shielded/creation.ts). */
module ShieldedLimits {
  import opened Wrappers
  import opened WalletTypes
  import opened ShieldedCreation

  predicate IsDigit(c: char) { '0' <= c <= '9' || 'a' <= c <= 'f' || 'A' <= c <= 'F' }

  /** The string starts with `n` bytes in hexadecimal, and no more. */
  predicate StartsWithBytes(s: string, n: nat) {
    && |s| >= 2 * n && (forall k :: 0 <= k < 2 * n ==> IsDigit(s[k]))
    && !(|s| >= 2 * n + 2 && IsDigit(s[2 * n]) && IsDigit(s[2 * n + 1]))
  }

  lemma {:induction false} HexBytesMeans(s: string, n: nat)
    ensures HexBytes(s) == n <==> StartsWithBytes(s, n)
  {
    if |s| >= 2 && IsDigit(s[0]) && IsDigit(s[1]) {
      if n > 0 {
        HexBytesMeans(s[2..], n - 1);
        DropTwo(s, n);
      }
    } else if n > 0 {
      assert |s| >= 2 ==> !IsDigit(s[0]) || !IsDigit(s[1]);
    }
  }

  lemma DropTwo(s: string, n: nat)
    requires |s| >= 2 && IsDigit(s[0]) && IsDigit(s[1]) && n > 0
    ensures StartsWithBytes(s, n) <==> StartsWithBytes(s[2..], n - 1)
  {
    if StartsWithBytes(s[2..], n - 1) {
      forall k | 0 <= k < 2 * n ensures IsDigit(s[k]) {
        assert k >= 2 ==> s[k] == s[2..][k - 2];
      }
    }
  }

  /** The native token, or an id of 32 bytes. */
  predicate TokenInRange(t: Uid) { t == Uid("00") || StartsWithBytes(t.hex, 32) }

  predicate FactorInRange(bf: int) { 0 <= bf < 0x1_0000_0000_0000_0000_0000_0000_0000_0000_0000_0000_0000_0000_0000_0000_0000_0000 }

  /** A scan key of 66 digits on the curve, a token, a value below 2^40 and a timelock of 32 bits. */
  predicate ProposalInRange(p: Proposal, onCurve: string -> bool) {
    && |p.scanPubkey| == 66 && (forall k :: 0 <= k < 66 ==> IsDigit(p.scanPubkey[k])) && onCurve(p.scanPubkey)
    && TokenInRange(p.token)
    && 0 < p.value < 0x100_0000_0000
    && (p.timelock.Some? ==> 0 <= p.timelock.value < 0x1_0000_0000)
  }

  predicate GeneratorInRange(g: Generator) { TokenInRange(g.token) && (g.assetBf.Some? ==> FactorInRange(g.assetBf.value)) }

  /** From 2 to 32 proposals in range, at most 256 generators in range, and one at least if an output is
      to be fully shielded. */
  predicate InRange(proposals: seq<Proposal>, generators: seq<Generator>, onCurve: string -> bool) {
    && 2 <= |proposals| <= 32 && |generators| <= 256
    && (forall k :: 0 <= k < |proposals| ==> ProposalInRange(proposals[k], onCurve))
    && (forall k :: 0 <= k < |generators| ==> GeneratorInRange(generators[k]))
    && (generators == [] ==> forall k :: 0 <= k < |proposals| ==> proposals[k].mode == AmountShielded)
  }

  lemma TokenMeans(t: Uid)
    ensures TokenUidOk(t) <==> TokenInRange(t)
  {
    HexBytesMeans(t.hex, 32);
  }

  lemma ProposalMeans(p: Proposal, onCurve: string -> bool)
    ensures ProposalOk(p, onCurve) <==> ProposalInRange(p, onCurve)
  {
    TokenMeans(p.token);
  }

  lemma GeneratorMeans(g: Generator)
    ensures GeneratorOk(g) <==> GeneratorInRange(g)
  {
    TokenMeans(g.token);
  }

  /** A batch passes validation exactly within these limits. */
  lemma AcceptableMeans(proposals: seq<Proposal>, generators: seq<Generator>, onCurve: string -> bool)
    ensures Acceptable(proposals, generators, onCurve) <==> InRange(proposals, generators, onCurve)
  {
    forall k | 0 <= k < |proposals| ensures ProposalOk(proposals[k], onCurve) <==> ProposalInRange(proposals[k], onCurve) {
      ProposalMeans(proposals[k], onCurve);
    }
    forall k | 0 <= k < |generators| ensures GeneratorOk(generators[k]) <==> GeneratorInRange(generators[k]) {
      GeneratorMeans(generators[k]);
    }
  }

  // ----- failures of the provider -----

  /** A compressed key, a commitment, a factor and a range proof of the right sizes. */
  predicate SizesRight(c: Created) {
    |c.ephemeralPubkey| == 33 && |c.commitment| == 33 && FactorInRange(c.blindingFactor) && 1 <= |c.rangeProof| <= 3328
  }

  /** The proof of a fully shielded output for the provider's own asset factor. */
  function ProofFor(p: Proposal, provider: Provider, generators: seq<Generator>, assetBf: int): Buffer {
    provider.surjectionProof(provider.deriveTag(p.token), assetBf,
      seq(|generators|, k requires 0 <= k < |generators| =>
        var f := if generators[k].assetBf.Some? then generators[k].assetBf.value else 0;
        DomainEntry(provider.assetCommitmentOf(provider.deriveTag(generators[k].token), f), provider.deriveTag(generators[k].token), f)))
  }

  /** For some blinding factors the provider answers with a part of the wrong size or range. */
  ghost predicate AnswersWrong(p: Proposal, provider: Provider, generators: seq<Generator>) {
    match p.mode
    case AmountShielded => exists bf :: !SizesRight(provider.createAmount(p.value, p.scanPubkey, p.token, bf))
    case FullyShielded => exists bf, abf :: FullAnswerWrong(p, provider, generators, provider.createBoth(p.value, p.scanPubkey, p.token, bf, abf))
  }

  predicate FullAnswerWrong(p: Proposal, provider: Provider, generators: seq<Generator>, c: Created) {
    || !SizesRight(c)
    || c.assetBf.None? || !FactorInRange(c.assetBf.value)
    || c.assetCommitment.None? || |c.assetCommitment.value| != 33
    || !(1 <= |ProofFor(p, provider, generators, c.assetBf.value)| <= 4096)
  }

  lemma ProofIsSurjection(p: Proposal, provider: Provider, generators: seq<Generator>, assetBf: int)
    ensures ProofFor(p, provider, generators, assetBf) == SurjectionProof(p, provider, generators, assetBf)
  {
    var domain := seq(|generators|, k requires 0 <= k < |generators| =>
      var f := if generators[k].assetBf.Some? then generators[k].assetBf.value else 0;
      DomainEntry(provider.assetCommitmentOf(provider.deriveTag(generators[k].token), f), provider.deriveTag(generators[k].token), f));
    assert domain == SeqSums.Map(generators, DomainEntryOf(provider));
  }

  lemma FailureMeans(p: Proposal, provider: Provider, generators: seq<Generator>)
    ensures ProviderFails(p, provider, generators) <==> AnswersWrong(p, provider, generators)
  {
    forall bf, abf ensures Misshapen(p, provider, generators, CreatedFor(p, provider, bf, abf)) <==>
      if p.mode == FullyShielded then FullAnswerWrong(p, provider, generators, provider.createBoth(p.value, p.scanPubkey, p.token, bf, abf))
      else !SizesRight(provider.createAmount(p.value, p.scanPubkey, p.token, bf))
    {
      AnswerMeans(p, provider, generators, CreatedFor(p, provider, bf, abf));
    }
    if p.mode == AmountShielded && AnswersWrong(p, provider, generators) {
      var bf :| !SizesRight(provider.createAmount(p.value, p.scanPubkey, p.token, bf));
      assert Misshapen(p, provider, generators, CreatedFor(p, provider, bf, 0));
    }
  }

  lemma AnswerMeans(p: Proposal, provider: Provider, generators: seq<Generator>, c: Created)
    ensures Misshapen(p, provider, generators, c) <==>
      if p.mode == FullyShielded then FullAnswerWrong(p, provider, generators, c) else !SizesRight(c)
  {
    if c.assetBf.Some? {
      ProofIsSurjection(p, provider, generators, c.assetBf.value);
    }
  }

  /** A batch fails for a true reason: it is out of range, an address has no script, or the provider's
      answer for one of its proposals is wrong. */
  lemma BatchFailureIsTrue(proposals: seq<Proposal>, provider: Provider, scriptOf: string -> Option<Buffer>,
                           onCurve: string -> bool, generators: seq<Generator>, e: CreationError)
    requires BatchRefused(proposals, provider, scriptOf, onCurve, generators, e)
    ensures
      || !InRange(proposals, generators, onCurve)
      || (e.InvalidAddress? && e.index < |proposals| && scriptOf(proposals[e.index].address) == None)
      || (e.CreationFailed? && e.index < |proposals| && AnswersWrong(proposals[e.index], provider, generators))
  {
    AcceptableMeans(proposals, generators, onCurve);
    if e.CreationFailed? && e.index < |proposals| {
      FailureMeans(proposals[e.index], provider, generators);
    }
  }
}
