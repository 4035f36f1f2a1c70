/** Partial transactions and their text form (src/models/partial_tx.ts), which nests the wire codec,
    hexadecimal integers and three separators. */
module ProposalText {
  import opened Wrappers
  import opened SeqSums
  import opened Bytes
  import opened Text
  import opened Separated
  import Wire
  import HeaderWire
  import TransactionWire
  import StandardScript

  const NATIVE: string := "00"
  const PREFIX: string := "PartialTx"
  const DEFAULT_TX_VERSION: int := 1
  const ZERO_WEIGHT: Bytes := [0, 0, 0, 0, 0, 0, 0, 0]

  datatype ProposalInput = ProposalInput(
    hash: string, index: int, value: nat, address: string, token: string, authorities: nat, data: Option<Bytes>)

  datatype ProposalOutput = ProposalOutput(value: int, script: Bytes, token: string, authorities: nat, isChange: bool)

  datatype Proposal = Proposal(inputs: seq<ProposalInput>, outputs: seq<ProposalOutput>)

  datatype PartialError = UnsupportedScript | InvalidPartialTx | MissingInputData | UnsupportedVersion | Codec(error: CodecError)

  // ----- the transaction of a proposal -----

  function OutputToken(): ProposalOutput -> string { (o: ProposalOutput) => o.token }

  function InputToken(): ProposalInput -> string { (i: ProposalInput) => i.token }

  /** The custom tokens, outputs first, each once. */
  function TokensOf(p: Proposal): (r: seq<string>)
    ensures Distinct(r) && NATIVE !in r
    ensures forall o :: o in p.outputs && o.token != NATIVE ==> o.token in r
    ensures forall i :: i in p.inputs && i.token != NATIVE ==> i.token in r
  {
    var all := Map(p.outputs, OutputToken()) + Map(p.inputs, InputToken());
    TokensListed(p, all);
    Without(Dedup(all), NATIVE)
  }

  lemma TokensListed(p: Proposal, all: seq<string>)
    requires all == Map(p.outputs, OutputToken()) + Map(p.inputs, InputToken())
    ensures forall o :: o in p.outputs ==> o.token in all
    ensures forall i :: i in p.inputs ==> i.token in all
  {
    forall k | 0 <= k < |p.outputs| ensures p.outputs[k].token in all {
      assert all[k] == p.outputs[k].token;
    }
    forall k | 0 <= k < |p.inputs| ensures p.inputs[k].token in all {
      assert all[|p.outputs| + k] == p.inputs[k].token;
    }
  }

  /** Setting bit 7. */
  function WithAuthorityBit(index: nat): nat { if index / 128 % 2 == 1 then index else index + 128 }

  /** `getTokenDataFromOutput` */
  function TokenDataOf(o: ProposalOutput, tokens: seq<string>): nat {
    var index := Position(tokens, o.token);
    if o.authorities == 0 then index else WithAuthorityBit(index)
  }

  function WireInput(): ProposalInput -> Wire.Input {
    (i: ProposalInput) => Wire.Input(i.hash, i.index, if i.data == Some([]) then None else i.data)
  }

  /** An output's script is parsed and created again on the way. */
  function Recreated(script: Bytes): Bytes {
    if StandardScript.ParseStandard(script).Some?
    then StandardScript.CreateScript(StandardScript.ParseStandard(script).value) else []
  }

  function WireOutput(tokens: seq<string>): ProposalOutput -> Wire.Output {
    (o: ProposalOutput) =>
      Wire.Output(o.value, TokenDataOf(o, tokens), Recreated(o.script))
  }

  function TxOf(p: Proposal): TransactionWire.TxData {
    TransactionWire.TxData(
      TransactionWire.Funds(0, DEFAULT_TX_VERSION, TokensOf(p), Map(p.inputs, WireInput()), Map(p.outputs, WireOutput(TokensOf(p)))),
      TransactionWire.Graph(ZERO_WEIGHT, None, [], 0), [])
  }

  // ----- the text form -----

  function MetaParts(i: ProposalInput): seq<string> {
    [i.address, i.token, ToHexInt(i.authorities), ToHexInt(i.value)]
  }

  function MetaText(): ProposalInput -> string { (i: ProposalInput) => Join(MetaParts(i), ',') }

  function ChangeIndexes(outputs: seq<ProposalOutput>): (r: seq<nat>)
    ensures forall k: nat :: k in r <==> k < |outputs| && outputs[k].isChange
  {
    if outputs == [] then []
    else
      var n := |outputs| - 1;
      var r := ChangeIndexes(outputs[..n]);
      assert forall k: nat :: k < n ==> outputs[..n][k] == outputs[k];
      if outputs[n].isChange then r + [n] else r
  }

  function HexText(): nat -> string { (n: nat) => ToHexInt(n) }

  predicate AllStandard(outputs: seq<ProposalOutput>) {
    forall k :: 0 <= k < |outputs| ==> StandardScript.ParseStandard(outputs[k].script).Some?
  }

  function Fields(p: Proposal, bytes: Bytes): seq<string> {
    [PREFIX, BufferToHex(bytes), Join(Map(p.inputs, MetaText()), ':'), Join(Map(ChangeIndexes(p.outputs), HexText()), ':')]
  }

  /** `serialize` */
  function Serialized(p: Proposal): Result<string, PartialError> {
    if !AllStandard(p.outputs) then Err(UnsupportedScript)
    else
      var bytes := TransactionWire.PrintTx(TxOf(p));
      if bytes.Err? then Err(Codec(bytes.error)) else Ok(Join(Fields(p, bytes.value), '|'))
  }

  datatype Meta = Meta(address: string, token: string, authorities: nat, value: nat)

  /** One input's metadata; missing numbers make `BigInt` throw. */
  function ParseMeta(h: string): Result<Meta, PartialError> {
    var parts := Split(h, ',');
    if |parts| < 4 then Err(InvalidPartialTx)
    else
      var authorities, value := ParseBigHex(parts[2]), ParseBigHex(parts[3]);
      if authorities.None? || value.None? then Err(InvalidPartialTx)
      else Ok(Meta(parts[0], parts[1], authorities.value, value.value))
  }

  function ParseMetas(hs: seq<string>): Result<seq<Meta>, PartialError> {
    if hs == [] then Ok([])
    else
      var first :- ParseMeta(hs[0]);
      var others :- ParseMetas(hs[1..]);
      Ok([first] + others)
  }

  function ParsedInt(): string -> Option<nat> { (s: string) => ParseIntHex(s) }

  function RestoredInput(i: Wire.Input, m: Meta): ProposalInput {
    ProposalInput(i.hash, i.index, m.value, m.address, m.token, m.authorities, None)
  }

  /** Mint is the first bit of an authority's value, melt the second. */
  function RestoredAuthorities(o: Wire.Output): nat
    requires o.tokenData >= 0
  {
    if o.tokenData / 128 % 2 == 1 then o.value % 4 else 0
  }

  function RestoredToken(o: Wire.Output, tokens: seq<string>): string
    requires o.tokenData >= 0
  {
    var index := o.tokenData % 128;
    if index == 0 || index > |tokens| then NATIVE else tokens[index - 1]
  }

  function RestoredOutput(o: Wire.Output, tokens: seq<string>, isChange: bool): ProposalOutput
    requires o.tokenData >= 0
  {
    ProposalOutput(o.value, o.script, RestoredToken(o, tokens), RestoredAuthorities(o), isChange)
  }

  /** The loops over the parsed transaction's inputs and outputs. */
  function RestoreInputs(inputs: seq<Wire.Input>, metas: seq<Meta>): seq<ProposalInput>
    requires |inputs| <= |metas|
  {
    seq(|inputs|, k requires 0 <= k < |inputs| => RestoredInput(inputs[k], metas[k]))
  }

  function NonNegative(o: Wire.Output): Wire.Output { o.(tokenData := if o.tokenData < 0 then 0 else o.tokenData) }

  function RestoreOutputs(outputs: seq<Wire.Output>, tokens: seq<string>, changes: seq<Option<nat>>): seq<ProposalOutput> {
    seq(|outputs|, k requires 0 <= k < |outputs| => RestoredOutput(NonNegative(outputs[k]), tokens, Some(k) in changes))
  }

  /** `deserialize` */
  function Deserialized(serialized: string, net: HeaderWire.Network): Result<Proposal, PartialError> {
    var fields := Split(serialized, '|');
    if |fields| != 4 || fields[0] != PREFIX then Err(InvalidPartialTx)
    else
      var metas :- ParseMetas(if fields[2] == "" then [] else Split(fields[2], ':'));
      var bytes := HexToBuffer(fields[1]);
      if bytes.Err? then Err(Codec(bytes.error))
      else RestoredFrom(TransactionWire.ParseTx(net, bytes.value), metas, Map(Split(fields[3], ':'), ParsedInt()))
  }

  function RestoredFrom(tx: Result<TransactionWire.TxData, CodecError>, metas: seq<Meta>, changes: seq<Option<nat>>): Result<Proposal, PartialError> {
    if tx.Err? then Err(Codec(tx.error))
    else
      var f := tx.value.funds;
      if f.version != DEFAULT_TX_VERSION then Err(UnsupportedVersion)
      else if |f.inputs| > |metas| then Err(MissingInputData)
      else if exists k :: 0 <= k < |f.outputs| && StandardScript.ParseStandard(f.outputs[k].script).None? then Err(UnsupportedScript)
      else Ok(Proposal(RestoreInputs(f.inputs, metas), RestoreOutputs(f.outputs, f.tokens, changes)))
  }

  // ----- which proposals survive -----

  predicate TokenFits(t: string) { t == NATIVE || (Wire.IsHash(t) && LowerHex(t) == t) }

  ghost predicate SeparatorFree(s: string) { FreeOf(s, ',') && FreeOf(s, ':') && FreeOf(s, '|') }

  ghost predicate InputFits(i: ProposalInput) {
    && Wire.IsHash(i.hash) && LowerHex(i.hash) == i.hash && 0 <= i.index < 256
    && (i.data.Some? ==> |i.data.value| < 0x1_0000)
    && SeparatorFree(i.address) && TokenFits(i.token)
  }

  predicate OutputFits(o: ProposalOutput) { TokenFits(o.token) && StandardScript.ParseStandard(o.script).Some? }

  ghost predicate Fits(p: Proposal) {
    && |p.inputs| < 256 && |p.outputs| < 256 && |TokensOf(p)| <= 127
    && (forall i :: i in p.inputs ==> InputFits(i)) && (forall o :: o in p.outputs ==> OutputFits(o))
  }

  /** What the text keeps of an input: everything but its data. */
  function ReadInput(): ProposalInput -> ProposalInput { (i: ProposalInput) => i.(data := None) }

  /** What the text keeps of an output: the authorities come back from its value. */
  function ReadOutput(): ProposalOutput -> ProposalOutput {
    (o: ProposalOutput) => o.(authorities := if o.authorities == 0 then 0 else o.value % 4, script := Recreated(o.script))
  }

  function ReadBack(p: Proposal): Proposal { Proposal(Map(p.inputs, ReadInput()), Map(p.outputs, ReadOutput())) }

  /** No input carries data, an authority output carries its mask as its value, and no script a
      timelock of zero. */
  predicate Survives(p: Proposal) {
    && (forall i :: i in p.inputs ==> i.data == None)
    && (forall o :: o in p.outputs ==> OutputSurvives(o))
  }

  predicate OutputSurvives(o: ProposalOutput) {
    && (o.authorities == 0 || o.authorities == o.value % 4)
    && StandardScript.ParseStandard(o.script).Some?
    && StandardScript.ParseStandard(o.script).value.timelock != Some(0)
  }

  // ----- the text is read back -----

  lemma MetaBack(i: ProposalInput)
    requires SeparatorFree(i.address) && SeparatorFree(i.token)
    ensures ParseMeta(MetaText()(i)) == Ok(Meta(i.address, i.token, i.authorities, i.value))
    ensures FreeOf(MetaText()(i), ':') && FreeOf(MetaText()(i), '|') && MetaText()(i) != ""
  {
    HexIsFree(ToHexInt(i.authorities));
    HexIsFree(ToHexInt(i.value));
    SplitJoin(MetaParts(i), ',');
    HexIntRoundTrip(i.authorities);
    HexIntRoundTrip(i.value);
    JoinIsFree(MetaParts(i), ',', ':');
    JoinIsFree(MetaParts(i), ',', '|');
    assert MetaText()(i)[|i.address|] == ',';
  }

  function MetaOf(): ProposalInput -> Meta { (i: ProposalInput) => Meta(i.address, i.token, i.authorities, i.value) }

  lemma {:induction false} MetasBack(inputs: seq<ProposalInput>)
    requires forall i :: i in inputs ==> SeparatorFree(i.address) && SeparatorFree(i.token)
    ensures ParseMetas(Map(inputs, MetaText())) == Ok(Map(inputs, MetaOf()))
  {
    if inputs == [] {
      assert Map(inputs, MetaText()) == [] && Map(inputs, MetaOf()) == [];
    } else {
      assert inputs[0] in inputs && forall i :: i in inputs[1..] ==> i in inputs;
      MetaBack(inputs[0]);
      MetasBack(inputs[1..]);
      FirstMeta(inputs);
    }
  }

  lemma FirstMeta(inputs: seq<ProposalInput>)
    requires inputs != []
    ensures Map(inputs, MetaText())[1..] == Map(inputs[1..], MetaText())
    ensures Map(inputs, MetaOf()) == [MetaOf()(inputs[0])] + Map(inputs[1..], MetaOf())
  {
  }

  lemma MetaFieldBack(inputs: seq<ProposalInput>)
    requires forall i :: i in inputs ==> SeparatorFree(i.address) && SeparatorFree(i.token)
    ensures var field := Join(Map(inputs, MetaText()), ':');
      && ParseMetas(if field == "" then [] else Split(field, ':')) == Ok(Map(inputs, MetaOf()))
      && FreeOf(field, '|')
  {
    var texts := Map(inputs, MetaText());
    forall t | t in texts ensures FreeOf(t, ':') && FreeOf(t, '|') && t != "" {
      var k :| 0 <= k < |texts| && texts[k] == t;
      assert inputs[k] in inputs;
      MetaBack(inputs[k]);
    }
    JoinIsFree(texts, ':', '|');
    MetasBack(inputs);
    if inputs == [] {
      assert texts == [] && Map(inputs, MetaOf()) == [];
    } else {
      SplitJoin(texts, ':');
      assert texts[0] in texts;
    }
  }

  lemma ChangeFieldBack(outputs: seq<ProposalOutput>)
    ensures var field := Join(Map(ChangeIndexes(outputs), HexText()), ':');
      && FreeOf(field, '|')
      && (forall k: nat :: Some(k) in Map(Split(field, ':'), ParsedInt()) <==> k < |outputs| && outputs[k].isChange)
  {
    var indexes := ChangeIndexes(outputs);
    var texts := Map(indexes, HexText());
    forall t | t in texts ensures FreeOf(t, ':') && FreeOf(t, '|') {
      var k :| 0 <= k < |texts| && texts[k] == t;
      HexIsFree(ToHexInt(indexes[k]));
    }
    JoinIsFree(texts, ':', '|');
    if indexes == [] {
      assert texts == [] && Split("", ':') == [""];
      NoChange(outputs);
    } else {
      SplitJoin(texts, ':');
      ChangesBack(outputs, texts);
    }
  }

  lemma NoChange(outputs: seq<ProposalOutput>)
    requires ChangeIndexes(outputs) == []
    ensures forall k: nat :: Some(k) in Map([""], ParsedInt()) <==> k < |outputs| && outputs[k].isChange
  {
    assert Map([""], ParsedInt()) == [None];
    forall k: nat ensures !(k < |outputs| && outputs[k].isChange) {
      assert k !in ChangeIndexes(outputs);
    }
  }

  lemma ChangesBack(outputs: seq<ProposalOutput>, texts: seq<string>)
    requires texts == Map(ChangeIndexes(outputs), HexText())
    ensures forall k: nat :: Some(k) in Map(texts, ParsedInt()) <==> k < |outputs| && outputs[k].isChange
  {
    var indexes := ChangeIndexes(outputs);
    assert Map(texts, ParsedInt()) == Map(indexes, Present()) by {
      forall j | 0 <= j < |indexes| ensures ParseIntHex(texts[j]) == Some(indexes[j]) {
        HexIntRoundTrip(indexes[j]);
      }
    }
    forall k: nat ensures Some(k) in Map(indexes, Present()) <==> k in indexes {
      PresentIn(indexes, k);
    }
  }

  function Present(): nat -> Option<nat> { (n: nat) => Some(n) }

  lemma PresentIn(indexes: seq<nat>, k: nat)
    ensures Some(k) in Map(indexes, Present()) <==> k in indexes
  {
    var r := Map(indexes, Present());
    if Some(k) in r {
      var j :| 0 <= j < |r| && r[j] == Some(k);
      assert indexes[j] == k;
    }
    if k in indexes {
      var j :| 0 <= j < |indexes| && indexes[j] == k;
      assert r[j] == Some(k);
    }
  }

  lemma FieldsBack(p: Proposal, bytes: Bytes)
    requires forall i :: i in p.inputs ==> SeparatorFree(i.address) && SeparatorFree(i.token)
    ensures Split(Join(Fields(p, bytes), '|'), '|') == Fields(p, bytes)
  {
    FieldsAreFree(p, bytes);
    SplitJoin(Fields(p, bytes), '|');
  }

  lemma FieldsAreFree(p: Proposal, bytes: Bytes)
    requires forall i :: i in p.inputs ==> SeparatorFree(i.address) && SeparatorFree(i.token)
    ensures Fields(p, bytes) != [] && forall f :: f in Fields(p, bytes) ==> FreeOf(f, '|')
  {
    MetaFieldBack(p.inputs);
    ChangeFieldBack(p.outputs);
    HexIsFree(BufferToHex(bytes));
  }

  // ----- the transaction survives -----

  /** A printable proposal's tokens are hexadecimal. */
  lemma {:induction false} PrintedHashes(hs: seq<string>)
    requires Wire.PrintMany(Wire.HashPrinter(), hs).Ok?
    ensures forall h :: h in hs ==> IsHexa(h)
  {
    if hs != [] {
      PrintedHashes(hs[1..]);
      assert hs == [hs[0]] + hs[1..];
    }
  }

  lemma TokensAreHex(p: Proposal)
    requires Fits(p) && TransactionWire.PrintTx(TxOf(p)).Ok?
    ensures forall t :: t in TokensOf(p) ==> IsHexa(t) && Wire.IsHash(t) && LowerHex(t) == t
    ensures forall i :: i in p.inputs ==> SeparatorFree(i.token)
  {
    PrintedHashes(TokensOf(p));
    TokensFit(p);
    forall i | i in p.inputs ensures SeparatorFree(i.token) {
      if i.token != NATIVE {
        HexIsFree(i.token);
      }
    }
  }

  lemma TokensFit(p: Proposal)
    requires Fits(p)
    ensures forall t :: t in TokensOf(p) ==> TokenFits(t) && t != NATIVE
  {
    AllTokensFit(p, Map(p.outputs, OutputToken()) + Map(p.inputs, InputToken()));
  }

  lemma AllTokensFit(p: Proposal, all: seq<string>)
    requires Fits(p) && all == Map(p.outputs, OutputToken()) + Map(p.inputs, InputToken())
    ensures forall t :: t in all ==> TokenFits(t)
  {
    forall k | 0 <= k < |all| ensures TokenFits(all[k]) {
      if k < |p.outputs| {
        assert p.outputs[k] in p.outputs && all[k] == p.outputs[k].token;
      } else {
        var i := p.inputs[k - |p.outputs|];
        assert i in p.inputs && all[k] == i.token && InputFits(i);
      }
    }
  }

  /** A script created again is standard too. */
  lemma RecreatedIsStandard(b: Bytes)
    requires StandardScript.ParseStandard(b).Some?
    ensures |Recreated(b)| <= 31 && StandardScript.ParseStandard(Recreated(b)).Some?
  {
    var s := StandardScript.ParseStandard(b).value;
    if s.timelock.Some? {
      Powers();
      assert s.timelock.value == FromBytes(b[1..5]) && |b[1..5]| == 4;
    }
    StandardScript.CreatedScriptParses(s);
  }

  lemma TxFits(p: Proposal, net: HeaderWire.Network)
    requires Fits(p) && TransactionWire.PrintTx(TxOf(p)).Ok?
    ensures TransactionWire.TxFits(net, TxOf(p))
  {
    TokensAreHex(p);
    WireInputsFit(p);
    WireOutputsFit(p, TokensOf(p));
  }

  lemma WireInputsFit(p: Proposal)
    requires Fits(p)
    ensures forall i :: i in Map(p.inputs, WireInput()) ==> Wire.InputFits(i)
  {
    var inputs := Map(p.inputs, WireInput());
    forall i | i in inputs ensures Wire.InputFits(i) {
      var k :| 0 <= k < |p.inputs| && inputs[k] == i;
      assert p.inputs[k] in p.inputs;
    }
  }

  lemma WireOutputsFit(p: Proposal, tokens: seq<string>)
    requires Fits(p)
    ensures forall o :: o in Map(p.outputs, WireOutput(tokens)) ==> Wire.OutputFits(o)
  {
    var outputs := Map(p.outputs, WireOutput(tokens));
    forall o | o in outputs ensures Wire.OutputFits(o) {
      var k :| 0 <= k < |p.outputs| && outputs[k] == o;
      assert p.outputs[k] in p.outputs;
      RecreatedIsStandard(p.outputs[k].script);
    }
  }

  lemma TokenDataBack(o: ProposalOutput, tokens: seq<string>)
    requires |tokens| <= 127 && (o.token == NATIVE || o.token in tokens) && NATIVE !in tokens
    ensures var data := TokenDataOf(o, tokens);
      && data < 256
      && data % 128 == Position(tokens, o.token)
      && (data / 128 % 2 == 1 <==> o.authorities != 0)
  {
    var index := Position(tokens, o.token);
    assert index <= 127;
    AuthorityBit(index);
  }

  lemma AuthorityBit(index: nat)
    requires index <= 127
    ensures WithAuthorityBit(index) == index + 128
    ensures index % 128 == index && (index + 128) % 128 == index && index / 128 == 0 && (index + 128) / 128 == 1
  {
  }

  lemma OutputRestored(o: ProposalOutput, tokens: seq<string>, isChange: bool)
    requires OutputFits(o) && |tokens| <= 127 && (o.token == NATIVE || o.token in tokens) && NATIVE !in tokens
    ensures TokenDataOf(o, tokens) < 256
    ensures RestoredOutput(WireOutput(tokens)(o), tokens, isChange) == ReadOutput()(o).(isChange := isChange)
  {
    TokenDataBack(o, tokens);
    TokenRestored(o, tokens, WireOutput(tokens)(o));
  }

  lemma TokenRestored(o: ProposalOutput, tokens: seq<string>, w: Wire.Output)
    requires (o.token == NATIVE || o.token in tokens) && NATIVE !in tokens
    requires w.tokenData >= 0 && w.tokenData % 128 == Position(tokens, o.token)
    ensures RestoredToken(w, tokens) == o.token
  {
  }

  lemma InputRestored(i: ProposalInput)
    requires InputFits(i)
    ensures RestoredInput(Wire.NormalInput()(WireInput()(i)), MetaOf()(i)) == ReadInput()(i)
  {
  }

  lemma InputsRestored(p: Proposal, f: TransactionWire.Funds)
    requires Fits(p) && f == TransactionWire.NormalTx(TxOf(p)).funds
    ensures |f.inputs| == |p.inputs| && RestoreInputs(f.inputs, Map(p.inputs, MetaOf())) == ReadBack(p).inputs
  {
    forall k | 0 <= k < |p.inputs| ensures RestoredInput(f.inputs[k], MetaOf()(p.inputs[k])) == ReadInput()(p.inputs[k]) {
      assert p.inputs[k] in p.inputs;
      InputRestored(p.inputs[k]);
    }
  }

  lemma LoweredTokens(tokens: seq<string>)
    requires forall t :: t in tokens ==> LowerHex(t) == t
    ensures Map(tokens, Wire.Lowered()) == tokens
  {
    forall k | 0 <= k < |tokens| ensures Wire.Lowered()(tokens[k]) == tokens[k] {
      assert tokens[k] in tokens;
    }
  }

  lemma OutputsRestored(p: Proposal, f: TransactionWire.Funds, changes: seq<Option<nat>>)
    requires Fits(p) && f == TransactionWire.NormalTx(TxOf(p)).funds && forall t :: t in TokensOf(p) ==> LowerHex(t) == t
    requires forall k: nat :: Some(k) in changes <==> k < |p.outputs| && p.outputs[k].isChange
    ensures forall k :: 0 <= k < |f.outputs| ==> StandardScript.ParseStandard(f.outputs[k].script).Some?
    ensures RestoreOutputs(f.outputs, f.tokens, changes) == ReadBack(p).outputs
  {
    var tokens := TokensOf(p);
    LoweredTokens(tokens);
    assert |f.outputs| == |p.outputs| && f.tokens == tokens;
    forall k: nat | k < |p.outputs|
      ensures p.outputs[k] in p.outputs
      ensures StandardScript.ParseStandard(f.outputs[k].script).Some?
      ensures RestoredOutput(NonNegative(f.outputs[k]), tokens, Some(k) in changes) == ReadOutput()(p.outputs[k])
    {
      OneOutputRestored(p.outputs[k], tokens);
      assert f.outputs[k] == Wire.NormalOutput()(WireOutput(tokens)(p.outputs[k]));
      assert Some(k) in changes <==> p.outputs[k].isChange;
    }
    assert RestoreOutputs(f.outputs, tokens, changes) == ReadBack(p).outputs;
  }

  lemma OneOutputRestored(o: ProposalOutput, tokens: seq<string>)
    requires OutputFits(o) && |tokens| <= 127 && (o.token == NATIVE || o.token in tokens) && NATIVE !in tokens
    ensures var w := Wire.NormalOutput()(WireOutput(tokens)(o));
      && StandardScript.ParseStandard(w.script).Some?
      && RestoredOutput(NonNegative(w), tokens, o.isChange) == ReadOutput()(o)
  {
    OutputRestored(o, tokens, o.isChange);
    RecreatedIsStandard(o.script);
    SmallTokenData(WireOutput(tokens)(o));
  }

  lemma SmallTokenData(w: Wire.Output)
    requires 0 <= w.tokenData < 256
    ensures Wire.NormalOutput()(w) == w && NonNegative(w) == w
  {
  }

  /** Round trip. Tokens, values, addresses, scripts, authorities and change flags of a proposal come back
      from its text, if addresses are free of separators and there are at most 127 custom tokens; the
      proposal comes back unchanged exactly when it `Survives`. */
  lemma TextRoundTrip(p: Proposal, net: HeaderWire.Network)
    requires Fits(p) && Serialized(p).Ok?
    ensures Deserialized(Serialized(p).value, net) == Ok(ReadBack(p))
    ensures Deserialized(Serialized(p).value, net) == Ok(p) <==> Survives(p)
  {
    var bytes := TransactionWire.PrintTx(TxOf(p)).value;
    TokensAreHex(p);
    InputsAreFree(p);
    TextIsRead(p, bytes, net);
    BytesBack(p, bytes, net);
    ChangeFieldBack(p.outputs);
    ProposalRestored(p, ChangesRead(p.outputs));
    OnlySurvivorsUnchanged(p);
  }

  lemma OutputUnchanged(o: ProposalOutput)
    requires StandardScript.ParseStandard(o.script).Some?
    ensures ReadOutput()(o) == o <==> OutputSurvives(o)
  {
    StandardScript.ScriptSurvives(o.script);
  }

  lemma OnlySurvivorsUnchanged(p: Proposal)
    requires forall o :: o in p.outputs ==> StandardScript.ParseStandard(o.script).Some?
    ensures ReadBack(p) == p <==> Survives(p)
  {
    UnchangedPointwise(p.inputs, ReadInput());
    UnchangedPointwise(p.outputs, ReadOutput());
    forall o | o in p.outputs ensures ReadOutput()(o) == o <==> OutputSurvives(o) {
      OutputUnchanged(o);
    }
  }

  lemma UnchangedPointwise<T(!new)>(s: seq<T>, f: T -> T)
    ensures Map(s, f) == s <==> forall x :: x in s ==> f(x) == x
  {
    if Map(s, f) == s {
      forall k | 0 <= k < |s| ensures f(s[k]) == s[k] {
        assert Map(s, f)[k] == s[k];
      }
    }
  }

  /** The change indexes as they are read back. */
  function ChangesRead(outputs: seq<ProposalOutput>): seq<Option<nat>> {
    Map(Split(Join(Map(ChangeIndexes(outputs), HexText()), ':'), ':'), ParsedInt())
  }

  /** Reading the text recovers the bytes, the metadata and the change indexes. */
  lemma TextIsRead(p: Proposal, bytes: Bytes, net: HeaderWire.Network)
    requires forall i :: i in p.inputs ==> SeparatorFree(i.address) && SeparatorFree(i.token)
    ensures Deserialized(Join(Fields(p, bytes), '|'), net)
         == RestoredFrom(TransactionWire.ParseTx(net, bytes), Map(p.inputs, MetaOf()), ChangesRead(p.outputs))
  {
    FieldsBack(p, bytes);
    MetaFieldBack(p.inputs);
    BytesSurviveHex(bytes);
  }

  lemma InputsAreFree(p: Proposal)
    requires Fits(p)
    ensures forall i :: i in p.inputs ==> SeparatorFree(i.address)
  {
    forall i | i in p.inputs ensures SeparatorFree(i.address) {
      assert InputFits(i);
    }
  }

  lemma BytesBack(p: Proposal, bytes: Bytes, net: HeaderWire.Network)
    requires Fits(p) && TransactionWire.PrintTx(TxOf(p)) == Ok(bytes)
    ensures TransactionWire.ParseTx(net, bytes) == Ok(TransactionWire.NormalTx(TxOf(p)))
  {
    TxFits(p, net);
    TransactionWire.TransactionRoundTrip(net, TxOf(p));
  }

  lemma ProposalRestored(p: Proposal, changes: seq<Option<nat>>)
    requires Fits(p) && forall t :: t in TokensOf(p) ==> LowerHex(t) == t
    requires forall k: nat :: Some(k) in changes <==> k < |p.outputs| && p.outputs[k].isChange
    ensures RestoredFrom(Ok(TransactionWire.NormalTx(TxOf(p))), Map(p.inputs, MetaOf()), changes) == Ok(ReadBack(p))
  {
    var tx := TransactionWire.NormalTx(TxOf(p));
    InputsRestored(p, tx.funds);
    OutputsRestored(p, tx.funds, changes);
    VersionIsPlain(p);
    RestoredAll(tx, Map(p.inputs, MetaOf()), changes, ReadBack(p));
  }

  lemma VersionIsPlain(p: Proposal)
    ensures TransactionWire.NormalTx(TxOf(p)).funds.version == DEFAULT_TX_VERSION
  {
    assert TxOf(p).funds.version == 1;
  }

  lemma RestoredAll(tx: TransactionWire.TxData, metas: seq<Meta>, changes: seq<Option<nat>>, p: Proposal)
    requires tx.funds.version == DEFAULT_TX_VERSION && |tx.funds.inputs| <= |metas|
    requires forall k :: 0 <= k < |tx.funds.outputs| ==> StandardScript.ParseStandard(tx.funds.outputs[k].script).Some?
    requires RestoreInputs(tx.funds.inputs, metas) == p.inputs && RestoreOutputs(tx.funds.outputs, tx.funds.tokens, changes) == p.outputs
    ensures RestoredFrom(Ok(tx), metas, changes) == Ok(p)
  {
  }

  // ----- what does not come back -----

  /** A proposal of one output. */
  function Single(o: ProposalOutput): Proposal { Proposal([], [o]) }

  lemma SingleTokens(o: ProposalOutput)
    ensures TokensOf(Single(o)) == if o.token == NATIVE then [] else [o.token]
  {
    var r, all := TokensOf(Single(o)), Map([o], OutputToken()) + Map([], InputToken());
    assert all == [o.token];
    DistinctCounts(r);
    var expected := if o.token == NATIVE then [] else [o.token];
    forall t ensures multiset(r)[t] == multiset(expected)[t] {
      assert t in r <==> t in all && t != NATIVE;
      assert t in r <==> t in multiset(r);
    }
    assert multiset(r) == multiset(expected);
    assert |r| == |multiset(r)| && |expected| == |multiset(expected)|;
    assert expected != [] ==> r[0] in multiset(r);
  }

  lemma SingleFits(o: ProposalOutput)
    requires OutputFits(o)
    ensures Fits(Single(o))
  {
    SingleTokens(o);
  }

  lemma SingleIsWritten(o: ProposalOutput)
    requires OutputFits(o) && IsHexa(o.token) && 0 < o.value <= MAX_OUTPUT_VALUE
    ensures Serialized(Single(o)).Ok?
  {
    SingleIsPrinted(o);
    WrittenIfPrinted(Single(o));
  }

  lemma SingleIsPrinted(o: ProposalOutput)
    requires IsHexa(o.token) && 0 < o.value <= MAX_OUTPUT_VALUE
    ensures TransactionWire.PrintTx(TxOf(Single(o))).Ok?
  {
    SingleTokens(o);
    SingleTxOf(o, TokensOf(Single(o)));
    SingleTxPrints(o, TokensOf(Single(o)));
  }

  lemma WrittenIfPrinted(p: Proposal)
    requires AllStandard(p.outputs) && TransactionWire.PrintTx(TxOf(p)).Ok?
    ensures Serialized(p).Ok?
  {
  }

  lemma SingleTxOf(o: ProposalOutput, tokens: seq<string>)
    requires tokens == TokensOf(Single(o))
    ensures TxOf(Single(o)) == SingleTx(o, tokens)
  {
    assert Map([o], WireOutput(tokens)) == [WireOutput(tokens)(o)];
    assert Map([], WireInput()) == [];
  }

  function SingleTx(o: ProposalOutput, tokens: seq<string>): TransactionWire.TxData {
    TransactionWire.TxData(
      TransactionWire.Funds(0, DEFAULT_TX_VERSION, tokens, [], [WireOutput(tokens)(o)]),
      TransactionWire.Graph(ZERO_WEIGHT, None, [], 0), [])
  }

  lemma SingleTxPrints(o: ProposalOutput, tokens: seq<string>)
    requires |tokens| <= 1 && (forall t :: t in tokens ==> IsHexa(t)) && 0 < o.value <= MAX_OUTPUT_VALUE
    ensures TransactionWire.PrintTx(SingleTx(o, tokens)).Ok?
  {
    var d := SingleTx(o, tokens);
    PrintedOnce(Wire.OutputPrinter(), d.funds.outputs);
    PrintedOnce(Wire.HashPrinter(), d.funds.tokens);
    PartsWritten(d);
  }

  lemma PrintedOnce<T(!new)>(p: T -> Wire.Printed, xs: seq<T>)
    requires |xs| <= 1 && forall x :: x in xs ==> p(x).Ok?
    ensures Wire.PrintMany(p, xs).Ok?
  {
    assert xs != [] ==> xs[1..] == [];
  }

  lemma PartsWritten(d: TransactionWire.TxData)
    requires d.headers == [] && d.funds.inputs == [] && d.graph == TransactionWire.Graph(ZERO_WEIGHT, None, [], 0)
    requires Wire.PrintMany(Wire.OutputPrinter(), d.funds.outputs).Ok? && Wire.PrintMany(Wire.HashPrinter(), d.funds.tokens).Ok?
    ensures TransactionWire.PrintTx(d).Ok?
  {
    assert TransactionWire.PrintTransfers(d.funds, true).Ok?;
    assert TransactionWire.PrintGraph(d.graph).Ok?;
  }

  /** A written proposal of one output comes back as what the text keeps of it. */
  lemma SingleBack(o: ProposalOutput, net: HeaderWire.Network)
    requires OutputFits(o) && IsHexa(o.token) && 0 < o.value <= MAX_OUTPUT_VALUE
    ensures Serialized(Single(o)).Ok? && Deserialized(Serialized(Single(o)).value, net) == Ok(Single(ReadOutput()(o)))
  {
    SingleFits(o);
    SingleIsWritten(o);
    TextRoundTrip(Single(o), net);
    ReadSingle(o);
  }

  lemma ReadSingle(o: ProposalOutput)
    ensures ReadBack(Single(o)) == Single(ReadOutput()(o))
  {
    assert Map([o], ReadOutput()) == [ReadOutput()(o)];
    assert Map([], ReadInput()) == [];
  }

  /** A script to a public key hash with a timelock of zero written out. */
  function LockedAtZero(hash: Bytes): Bytes {
    [4, 0, 0, 0, 0, StandardScript.OP_GREATERTHAN_TIMESTAMP] + StandardScript.Body(StandardScript.PubKeyHash, hash)
  }

  /** Such an output is written, and comes back with a script that has no timelock. */
  lemma ZeroTimelockIsLost(hash: Bytes, net: HeaderWire.Network)
    requires |hash| == StandardScript.HASH_SIZE
    ensures var p := Single(ProposalOutput(5, LockedAtZero(hash), NATIVE, 0, false));
      && Serialized(p).Ok?
      && Deserialized(Serialized(p).value, net)
         == Ok(Single(ProposalOutput(5, StandardScript.Body(StandardScript.PubKeyHash, hash), NATIVE, 0, false)))
  {
    ZeroIsParsed(hash);
    SingleBack(ProposalOutput(5, LockedAtZero(hash), NATIVE, 0, false), net);
  }

  lemma ZeroIsParsed(hash: Bytes)
    requires |hash| == StandardScript.HASH_SIZE
    ensures StandardScript.ParseStandard(LockedAtZero(hash)) == Some(StandardScript.Script(StandardScript.PubKeyHash, hash, Some(0)))
    ensures Recreated(LockedAtZero(hash)) == StandardScript.Body(StandardScript.PubKeyHash, hash)
  {
    var b, body := LockedAtZero(hash), StandardScript.Body(StandardScript.PubKeyHash, hash);
    assert b[6..] == body && b[1..5] == [0, 0, 0, 0];
    StandardScript.BodyParses(StandardScript.PubKeyHash, hash);
    ZeroIsZero();
  }

  lemma ZeroIsZero()
    ensures FromBytes([0, 0, 0, 0]) == 0
  {
    assert [0, 0, 0, 0][..3] == [0, 0, 0] && [0, 0, 0][..2] == [0, 0] && [0, 0][..1] == [0] && [0][..0] == [];
  }

  /** A mint authority written with the value of a melt authority comes back as a melt authority. */
  lemma AuthorityIsReplaced(hash: Bytes, token: string, net: HeaderWire.Network)
    requires |hash| == StandardScript.HASH_SIZE && Wire.IsHash(token) && IsHexa(token) && LowerHex(token) == token
    ensures var script := StandardScript.Body(StandardScript.PubKeyHash, hash);
      var p := Single(ProposalOutput(2, script, token, 1, false));
      && Serialized(p).Ok?
      && Deserialized(Serialized(p).value, net) == Ok(Single(ProposalOutput(2, script, token, 2, false)))
  {
    var script := StandardScript.Body(StandardScript.PubKeyHash, hash);
    StandardScript.BodyParses(StandardScript.PubKeyHash, hash);
    SingleBack(ProposalOutput(2, script, token, 1, false), net);
  }
}
