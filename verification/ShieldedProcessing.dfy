/** Detecting and decoding the wallet's shielded outputs in place: src/shielded/processing.ts, and the
    ownership rule of src/schemas.ts:296-314. Key derivation and the crypto provider are functions;
    `None` is a call that throws. */
module ShieldedProcessing {
  import opened Wrappers
  import opened SeqSums
  import opened WalletTypes

  const NATIVE_TOKEN_UID: string := "00"
  const NATIVE_TOKEN_UID_HEX: string := "0000000000000000000000000000000000000000000000000000000000000000"

  /** One entry of `tx.shielded_outputs`: the wire fields, then the fields a decoder adds. */
  datatype Slot = Slot(
    mode: Mode,
    ephemeralPubkey: Option<string>,
    commitment: string,
    rangeProof: string,
    assetCommitment: string,
    tokenData: Option<nat>,
    address: Option<string>,
    value: Option<int>,
    token: Option<string>,
    blindingFactor: Option<string>,
    assetBlindingFactor: Option<string>)

  datatype Rewound = Rewound(value: int, blindingFactor: string, token: string, assetBlindingFactor: Option<string>)

  datatype AmountRewind = AmountRewind(value: int, blindingFactor: string)

  datatype FullRewind = FullRewind(value: int, blindingFactor: string, token: string, assetBlindingFactor: string)

  datatype ScanProvider = ScanProvider(
    rewindAmount: (int, string, string, string, string) -> Option<AmountRewind>,
    rewindFull: (int, string, string, string, string) -> Option<FullRewind>,
    deriveTag: string -> string,
    createAssetCommitment: (string, string) -> string)

  /** `scanKey` is what unlocking with the given PIN yields. */
  datatype Keys = Keys(mine: set<string>, scanKey: Option<int>, childKey: (int, string) -> Option<int>)

  datatype Tx = Tx(txId: string, outputCount: nat, tokens: seq<string>)

  datatype Report = Report(txId: string, index: nat, value: int, token: string, blindingFactor: string,
                           assetBlindingFactor: Option<string>, mode: Mode, address: string)

  datatype ProcessError = UnlockFailed

  /** `resolveTokenUid`; the low seven bits of the token data are the token index. */
  function ResolveTokenUid(tokenData: Option<nat>, tx: Tx): (r: Option<string>)
    ensures r.Some? <==> tokenData.Some? && tokenData.value % 128 <= |tx.tokens|
  {
    if tokenData.None? then None
    else
      var index := tokenData.value % 128;
      if index == 0 then Some(NATIVE_TOKEN_UID_HEX)
      else if index <= |tx.tokens| then
        Some(if tx.tokens[index - 1] == NATIVE_TOKEN_UID then NATIVE_TOKEN_UID_HEX else tx.tokens[index - 1])
      else None
  }

  /** An undecoded slot at an address of the wallet, with an ECDH hint: it needs the scan key. */
  predicate Candidate(keys: Keys, x: Slot) {
    && x.value.None? && x.ephemeralPubkey.Some? && x.ephemeralPubkey.value != ""
    && x.address.Some? && x.address.value != "" && x.address.value in keys.mine
  }

  /** What the provider recovers from a candidate, if it passes the checks. */
  function Recover(keys: Keys, provider: ScanProvider, tx: Tx, x: Slot): Option<Rewound>
    requires Candidate(keys, x) && keys.scanKey.Some?
  {
    var key := keys.childKey(keys.scanKey.value, x.address.value);
    if key.None? then None
    else if x.mode == FullyShielded then
      var r := provider.rewindFull(key.value, x.ephemeralPubkey.value, x.commitment, x.rangeProof, x.assetCommitment);
      if r.None? then None
      else if provider.createAssetCommitment(provider.deriveTag(r.value.token), r.value.assetBlindingFactor) != x.assetCommitment then None
      else if r.value.value <= 0 then None
      else Some(Rewound(r.value.value, r.value.blindingFactor, r.value.token, Some(r.value.assetBlindingFactor)))
    else
      var token := ResolveTokenUid(x.tokenData, tx);
      if token.None? then None
      else
        var r := provider.rewindAmount(key.value, x.ephemeralPubkey.value, x.commitment, x.rangeProof, token.value);
        if r.None? || r.value.value <= 0 then None
        else Some(Rewound(r.value.value, r.value.blindingFactor, token.value, None))
  }

  function WalletToken(token: string): string {
    if token == NATIVE_TOKEN_UID_HEX then NATIVE_TOKEN_UID else token
  }

  function Written(x: Slot, r: Rewound): Slot {
    x.(value := Some(r.value), token := Some(WalletToken(r.token)), blindingFactor := Some(r.blindingFactor),
       assetBlindingFactor := r.assetBlindingFactor)
  }

  /** What processing leaves in a slot. */
  function Processed(keys: Keys, provider: ScanProvider, tx: Tx, x: Slot): Slot {
    if !Candidate(keys, x) || keys.scanKey.None? then x
    else
      var r := Recover(keys, provider, tx, x);
      if r.None? then x else Written(x, r.value)
  }

  predicate BecomesDecoded(keys: Keys, provider: ScanProvider, tx: Tx, x: Slot) {
    Candidate(keys, x) && keys.scanKey.Some? && Recover(keys, provider, tx, x).Some?
  }

  /** The report on the slots from position `from` on. */
  function Reports(keys: Keys, provider: ScanProvider, tx: Tx, slots: seq<Slot>, from: nat): seq<Report>
    requires from <= |slots|
    decreases |slots| - from
  {
    if from == |slots| then []
    else FirstReport(keys, provider, tx, slots, from) + Reports(keys, provider, tx, slots, from + 1)
  }

  function FirstReport(keys: Keys, provider: ScanProvider, tx: Tx, slots: seq<Slot>, s: nat): seq<Report>
    requires s < |slots|
  {
    if BecomesDecoded(keys, provider, tx, slots[s])
    then [ReportOf(tx, s, slots[s], Recover(keys, provider, tx, slots[s]).value)] else []
  }

  function ReportOf(tx: Tx, s: nat, x: Slot, r: Rewound): Report
    requires x.address.Some?
  {
    Report(tx.txId, tx.outputCount + s, r.value, r.token, r.blindingFactor, r.assetBlindingFactor, x.mode, x.address.value)
  }

  /** `processShieldedOutputs`: one pass over the array, writing the decoded slots in place. */
  method ProcessShieldedOutputs(keys: Keys, provider: ScanProvider, tx: Tx, slots: array<Slot>) returns (r: Result<seq<Report>, ProcessError>)
    modifies slots
    ensures r.Ok? ==> forall s :: 0 <= s < slots.Length ==> slots[s] == Processed(keys, provider, tx, old(slots[s]))
    ensures r.Ok? ==> r.value == Reports(keys, provider, tx, old(slots[..]), 0)
    ensures r.Err? <==> keys.scanKey.None? && exists s :: 0 <= s < slots.Length && Candidate(keys, old(slots[s]))
    ensures r.Err? ==> slots[..] == old(slots[..])
    ensures r.Ok? ==> PassMeans(keys, provider, tx, old(slots[..]), slots[..], r.value)
  {
    var results: seq<Report> := [];
    var scanHdPrivKey: Option<int> := None;
    ghost var before := slots[..];
    PassStarts(keys, provider, tx, before);
    for s := 0 to slots.Length
      invariant slots[..] == Passed(keys, provider, tx, before, s)
      invariant results + Reports(keys, provider, tx, before, s) == Reports(keys, provider, tx, before, 0)
      invariant scanHdPrivKey.Some? ==> scanHdPrivKey == keys.scanKey
      invariant keys.scanKey.None? ==> slots[..] == before && forall j :: 0 <= j < s ==> !Candidate(keys, before[j])
    {
      var x := slots[s];
      PassStep(results, keys, provider, tx, before, s);
      assert slots[..][s] == x == before[s];
      if x.value.Some? || x.ephemeralPubkey.None? || x.ephemeralPubkey.value == "" {
        continue;
      }
      if x.address.None? || x.address.value == "" || x.address.value !in keys.mine {
        continue;
      }
      if scanHdPrivKey.None? {
        if keys.scanKey.None? {
          return Err(UnlockFailed);
        }
        scanHdPrivKey := keys.scanKey;
      }
      var recovered := Rewind(keys, scanHdPrivKey.value, provider, tx, x);
      if recovered.None? {
        continue;
      }
      ghost var now := slots[..];
      slots[s] := Written(x, recovered.value);
      assert slots[..] == now[s := Written(x, recovered.value)];
      results := results + [ReportOf(tx, s, x, recovered.value)];
    }
    assert results + [] == results;
    PassIsMeant(keys, provider, tx, before, slots[..]);
    r := Ok(results);
  }

  /** The slots once those before `s` are processed. */
  function Passed(keys: Keys, provider: ScanProvider, tx: Tx, slots: seq<Slot>, s: nat): (r: seq<Slot>)
    ensures |r| == |slots|
    ensures forall j :: 0 <= j < |slots| ==> r[j] == if j < s then Processed(keys, provider, tx, slots[j]) else slots[j]
  {
    seq(|slots|, j requires 0 <= j < |slots| => if j < s then Processed(keys, provider, tx, slots[j]) else slots[j])
  }

  lemma PassStarts(keys: Keys, provider: ScanProvider, tx: Tx, slots: seq<Slot>)
    ensures Passed(keys, provider, tx, slots, 0) == slots
  {
  }

  lemma PassStep(results: seq<Report>, keys: Keys, provider: ScanProvider, tx: Tx, slots: seq<Slot>, s: nat)
    requires s < |slots|
    ensures var now, next := Passed(keys, provider, tx, slots, s), Passed(keys, provider, tx, slots, s + 1);
      if BecomesDecoded(keys, provider, tx, slots[s]) then
        var r := Recover(keys, provider, tx, slots[s]).value;
        next == now[s := Written(slots[s], r)]
        && results + Reports(keys, provider, tx, slots, s)
           == (results + [ReportOf(tx, s, slots[s], r)]) + Reports(keys, provider, tx, slots, s + 1)
      else
        next == now && Reports(keys, provider, tx, slots, s) == Reports(keys, provider, tx, slots, s + 1)
  {
    ReportsStep(results, keys, provider, tx, slots, s);
  }

  /** The body of the `try`: rewinding one candidate. */
  method Rewind(keys: Keys, scanKey: int, provider: ScanProvider, tx: Tx, x: Slot) returns (r: Option<Rewound>)
    requires Candidate(keys, x) && keys.scanKey == Some(scanKey)
    ensures r == Recover(keys, provider, tx, x)
  {
    var privkey := keys.childKey(scanKey, x.address.value);
    if privkey.None? {
      return None;
    }
    var value: int, blindingFactor, token, assetBlindingFactor;
    if x.mode == FullyShielded {
      var result := provider.rewindFull(privkey.value, x.ephemeralPubkey.value, x.commitment, x.rangeProof, x.assetCommitment);
      if result.None? {
        return None;
      }
      value, blindingFactor, token, assetBlindingFactor := result.value.value, result.value.blindingFactor, result.value.token, Some(result.value.assetBlindingFactor);
      if provider.createAssetCommitment(provider.deriveTag(token), result.value.assetBlindingFactor) != x.assetCommitment {
        return None;
      }
    } else {
      var tokenUid := ResolveTokenUid(x.tokenData, tx);
      if tokenUid.None? {
        return None;
      }
      var result := provider.rewindAmount(privkey.value, x.ephemeralPubkey.value, x.commitment, x.rangeProof, tokenUid.value);
      if result.None? {
        return None;
      }
      value, blindingFactor, token, assetBlindingFactor := result.value.value, result.value.blindingFactor, tokenUid.value, None;
    }
    if value <= 0 {
      return None;
    }
    r := Some(Rewound(value, blindingFactor, token, assetBlindingFactor));
  }

  lemma ReportsStep(results: seq<Report>, keys: Keys, provider: ScanProvider, tx: Tx, slots: seq<Slot>, s: nat)
    requires s < |slots|
    ensures BecomesDecoded(keys, provider, tx, slots[s]) ==>
      results + Reports(keys, provider, tx, slots, s)
      == (results + [ReportOf(tx, s, slots[s], Recover(keys, provider, tx, slots[s]).value)]) + Reports(keys, provider, tx, slots, s + 1)
    ensures !BecomesDecoded(keys, provider, tx, slots[s]) ==>
      Reports(keys, provider, tx, slots, s) == Reports(keys, provider, tx, slots, s + 1)
  {
    assert [] + Reports(keys, provider, tx, slots, s + 1) == Reports(keys, provider, tx, slots, s + 1);
  }

  // ----- what a pass means -----

  /** The token of an amount-shielded output: HTR for index 0 and for the native uid, else the custom token
      at the index, counted from 1. */
  predicate NamesToken(tx: Tx, tokenData: Option<nat>, token: string) {
    && tokenData.Some?
    && var k := tokenData.value % 128;
       && k <= |tx.tokens|
       && token == if k == 0 || tx.tokens[k - 1] == "00" then "0000000000000000000000000000000000000000000000000000000000000000"
                   else tx.tokens[k - 1]
  }

  /** The provider opens a slot of the wallet to this answer, under the child key of its address: an
      amount-shielded one for the token it names, a fully shielded one to a token that explains its asset
      commitment. */
  predicate Opens(keys: Keys, provider: ScanProvider, tx: Tx, x: Slot, d: Rewound) {
    && x.value == None && x.ephemeralPubkey.Some? && x.ephemeralPubkey.value != ""
    && x.address.Some? && x.address.value != "" && x.address.value in keys.mine
    && keys.scanKey.Some? && keys.childKey(keys.scanKey.value, x.address.value).Some?
    && d.value > 0
    && var key := keys.childKey(keys.scanKey.value, x.address.value).value;
       if x.mode == FullyShielded then
         && d.assetBlindingFactor.Some?
         && provider.rewindFull(key, x.ephemeralPubkey.value, x.commitment, x.rangeProof, x.assetCommitment)
            == Some(FullRewind(d.value, d.blindingFactor, d.token, d.assetBlindingFactor.value))
         && provider.createAssetCommitment(provider.deriveTag(d.token), d.assetBlindingFactor.value) == x.assetCommitment
       else
         && d.assetBlindingFactor == None && NamesToken(tx, x.tokenData, d.token)
         && provider.rewindAmount(key, x.ephemeralPubkey.value, x.commitment, x.rangeProof, d.token)
            == Some(AmountRewind(d.value, d.blindingFactor))
  }

  /** A slot that opens holds the answer, HTR under its short name, and is reported with it, HTR under its
      long name; a slot that does not is left alone and not reported. */
  ghost predicate SlotMeans(keys: Keys, provider: ScanProvider, tx: Tx, x: Slot, y: Slot, index: nat, reports: seq<Report>) {
    && (forall d :: Opens(keys, provider, tx, x, d) ==>
          && y == Slot(x.mode, x.ephemeralPubkey, x.commitment, x.rangeProof, x.assetCommitment, x.tokenData, x.address,
                       Some(d.value),
                       Some(if d.token == "0000000000000000000000000000000000000000000000000000000000000000" then "00" else d.token),
                       Some(d.blindingFactor), d.assetBlindingFactor)
          && Report(tx.txId, index, d.value, d.token, d.blindingFactor, d.assetBlindingFactor, x.mode, x.address.value) in reports)
    && ((forall d :: !Opens(keys, provider, tx, x, d)) ==> y == x && !Lists(reports, index))
  }

  /** Every slot is treated so, and the reports come in order, one for a slot. */
  ghost predicate PassMeans(keys: Keys, provider: ScanProvider, tx: Tx, before: seq<Slot>, after: seq<Slot>, reports: seq<Report>) {
    && |after| == |before|
    && (forall s :: 0 <= s < |before| ==> SlotMeans(keys, provider, tx, before[s], after[s], tx.outputCount + s, reports))
    && InOrder(reports, tx.outputCount, tx.outputCount + |before|)
  }

  lemma TokenIsNamed(tokenData: Option<nat>, tx: Tx, token: string)
    ensures ResolveTokenUid(tokenData, tx) == Some(token) <==> NamesToken(tx, tokenData, token)
  {
  }

  lemma OpensIsRecover(keys: Keys, provider: ScanProvider, tx: Tx, x: Slot, d: Rewound)
    ensures Opens(keys, provider, tx, x, d) <==> BecomesDecoded(keys, provider, tx, x) && Recover(keys, provider, tx, x) == Some(d)
  {
    TokenIsNamed(x.tokenData, tx, d.token);
  }

  /** The report of a decoded slot is in the list. */
  lemma {:induction false} ReportIsListed(keys: Keys, provider: ScanProvider, tx: Tx, slots: seq<Slot>, from: nat, s: nat)
    requires from <= s < |slots| && BecomesDecoded(keys, provider, tx, slots[s])
    ensures ReportOf(tx, s, slots[s], Recover(keys, provider, tx, slots[s]).value) in Reports(keys, provider, tx, slots, from)
    decreases |slots| - from
  {
    if s > from {
      ReportIsListed(keys, provider, tx, slots, from + 1, s);
    }
  }

  lemma SlotIsMeant(keys: Keys, provider: ScanProvider, tx: Tx, slots: seq<Slot>, s: nat)
    requires s < |slots|
    ensures SlotMeans(keys, provider, tx, slots[s], Processed(keys, provider, tx, slots[s]), tx.outputCount + s,
                      Reports(keys, provider, tx, slots, 0))
  {
    var x := slots[s];
    ReportIsExact(keys, provider, tx, slots, 0, s);
    if BecomesDecoded(keys, provider, tx, x) {
      ReportIsListed(keys, provider, tx, slots, 0, s);
      OpensIsRecover(keys, provider, tx, x, Recover(keys, provider, tx, x).value);
    }
    forall d | Opens(keys, provider, tx, x, d)
      ensures BecomesDecoded(keys, provider, tx, x) && Recover(keys, provider, tx, x) == Some(d)
    {
      OpensIsRecover(keys, provider, tx, x, d);
    }
  }

  /** What a pass leaves and reports. */
  lemma PassIsMeant(keys: Keys, provider: ScanProvider, tx: Tx, before: seq<Slot>, after: seq<Slot>)
    requires |after| == |before| && forall s :: 0 <= s < |before| ==> after[s] == Processed(keys, provider, tx, before[s])
    ensures PassMeans(keys, provider, tx, before, after, Reports(keys, provider, tx, before, 0))
  {
    forall s | 0 <= s < |before|
      ensures SlotMeans(keys, provider, tx, before[s], after[s], tx.outputCount + s, Reports(keys, provider, tx, before, 0))
    {
      SlotIsMeant(keys, provider, tx, before, s);
    }
    ReportsAreOrdered(keys, provider, tx, before, 0);
  }

  /** The decode-only fields agree with the ownership gate `value`. */
  predicate Consistent(x: Slot) {
    && (x.blindingFactor.Some? <==> x.value.Some?)
    && (x.mode == FullyShielded ==> (x.token.Some? <==> x.value.Some?) && (x.assetBlindingFactor.Some? <==> x.value.Some?))
    && (x.mode == AmountShielded && x.value.Some? ==> x.token.Some?)
  }

  /** A pass keeps the consistency rule of every entry. */
  lemma ProcessingKeepsConsistency(keys: Keys, provider: ScanProvider, tx: Tx, x: Slot)
    requires Consistent(x)
    ensures Consistent(Processed(keys, provider, tx, x))
  {
  }

  /** A pass touches only candidates, writes a positive value, keeps every wire field, and accepts a
      hidden token only when it explains the asset commitment. */
  lemma OnlyOwnedUndecodedChange(keys: Keys, provider: ScanProvider, tx: Tx, x: Slot)
    ensures var y := Processed(keys, provider, tx, x);
      && (y != x <==> BecomesDecoded(keys, provider, tx, x))
      && (y != x ==> Candidate(keys, x) && y.value.Some? && y.value.value > 0)
      && y == x.(value := y.value, token := y.token, blindingFactor := y.blindingFactor, assetBlindingFactor := y.assetBlindingFactor)
    ensures var y := Processed(keys, provider, tx, x);
      y != x && x.mode == FullyShielded ==>
        && var hidden := if y.token == Some(NATIVE_TOKEN_UID) then [NATIVE_TOKEN_UID, NATIVE_TOKEN_UID_HEX] else [y.token.value];
        exists t :: t in hidden && provider.createAssetCommitment(provider.deriveTag(t), y.assetBlindingFactor.value) == x.assetCommitment
  {
    var y := Processed(keys, provider, tx, x);
    if y != x && x.mode == FullyShielded {
      var t := Recover(keys, provider, tx, x).value.token;
      assert provider.createAssetCommitment(provider.deriveTag(t), y.assetBlindingFactor.value) == x.assetCommitment;
      if t == NATIVE_TOKEN_UID_HEX {
        assert t in [NATIVE_TOKEN_UID, NATIVE_TOKEN_UID_HEX];
      }
    }
  }

  function ProcessAll(keys: Keys, provider: ScanProvider, tx: Tx): Slot -> Slot {
    (x: Slot) => Processed(keys, provider, tx, x)
  }

  /** A second pass changes nothing and reports nothing. */
  lemma {:induction false} ProcessingIsIdempotent(keys: Keys, provider: ScanProvider, tx: Tx, slots: seq<Slot>, from: nat)
    requires from <= |slots|
    ensures Map(Map(slots, ProcessAll(keys, provider, tx)), ProcessAll(keys, provider, tx)) == Map(slots, ProcessAll(keys, provider, tx))
    ensures Reports(keys, provider, tx, Map(slots, ProcessAll(keys, provider, tx)), from) == []
    decreases |slots| - from
  {
    if from < |slots| {
      ProcessingIsIdempotent(keys, provider, tx, slots, from + 1);
    }
  }

  ghost predicate Lists(reports: seq<Report>, index: nat) {
    exists k :: 0 <= k < |reports| && reports[k].index == index
  }

  ghost predicate InOrder(reports: seq<Report>, lo: nat, hi: nat) {
    && (forall k :: 0 <= k < |reports| ==> lo <= reports[k].index < hi)
    && (forall k, l :: 0 <= k < l < |reports| ==> reports[k].index < reports[l].index)
  }

  lemma InOrderPush(first: seq<Report>, later: seq<Report>, lo: nat, hi: nat)
    requires InOrder(later, lo + 1, hi) && lo < hi && |first| <= 1 && (|first| == 1 ==> first[0].index == lo)
    ensures InOrder(first + later, lo, hi)
  {
  }

  /** Reports come in slot order, at on-chain indexes, each once. */
  lemma {:induction false} ReportsAreOrdered(keys: Keys, provider: ScanProvider, tx: Tx, slots: seq<Slot>, from: nat)
    requires from <= |slots|
    ensures InOrder(Reports(keys, provider, tx, slots, from), tx.outputCount + from, tx.outputCount + |slots|)
    decreases |slots| - from
  {
    if from < |slots| {
      ReportsAreOrdered(keys, provider, tx, slots, from + 1);
      InOrderPush(FirstReport(keys, provider, tx, slots, from), Reports(keys, provider, tx, slots, from + 1),
                  tx.outputCount + from, tx.outputCount + |slots|);
    }
  }

  lemma ListsPush(first: seq<Report>, later: seq<Report>, index: nat)
    requires |first| <= 1
    ensures Lists(first + later, index) <==> (|first| == 1 && first[0].index == index) || Lists(later, index)
  {
    if Lists(later, index) {
      var k :| 0 <= k < |later| && later[k].index == index;
      assert (first + later)[|first| + k].index == index;
    }
    if |first| == 1 && first[0].index == index {
      assert (first + later)[0].index == index;
    }
  }

  /** The report lists exactly the slots that became decoded. */
  lemma {:induction false} ReportIsExact(keys: Keys, provider: ScanProvider, tx: Tx, slots: seq<Slot>, from: nat, s: nat)
    requires from <= s < |slots|
    ensures Lists(Reports(keys, provider, tx, slots, from), tx.outputCount + s) <==> BecomesDecoded(keys, provider, tx, slots[s])
    decreases |slots| - from
  {
    var later := Reports(keys, provider, tx, slots, from + 1);
    ListsPush(FirstReport(keys, provider, tx, slots, from), later, tx.outputCount + s);
    ReportsAreOrdered(keys, provider, tx, slots, from + 1);
    if s > from {
      ReportIsExact(keys, provider, tx, slots, from + 1, s);
    }
  }
}
