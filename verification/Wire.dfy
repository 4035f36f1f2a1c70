/** Lists, inputs, outputs and shielded outputs on the wire (src/models/input.ts, output.ts,
    shielded_output.ts). A printer yields the bytes its buffers concatenate to; a parser yields a
    value and the bytes it left. */
module Wire {
  import opened Wrappers
  import opened SeqSums
  import opened Bytes
  import opened Text
  import WalletTypes

  type Printed = Result<Bytes, CodecError>

  // ----- lists -----

  function ParseMany<T(!new)>(p: Bytes -> Parsed<T>, n: nat, b: Bytes): Parsed<seq<T>> {
    if n == 0 then Ok(([], b))
    else
      var first :- p(b);
      var others :- ParseMany(p, n - 1, first.1);
      Ok(([first.0] + others.0, others.1))
  }

  function PrintMany<T(!new)>(f: T -> Printed, xs: seq<T>): Printed {
    if xs == [] then Ok([])
    else
      var first :- f(xs[0]);
      var others :- PrintMany(f, xs[1..]);
      Ok(first + others)
  }

  /** `p` reads back what `f` writes for `x`, as `g(x)`. */
  ghost predicate ReadsBack<T(!new), U(!new)>(f: T -> Printed, p: Bytes -> Parsed<U>, g: T -> U, x: T) {
    f(x).Ok? ==> forall rest: Bytes :: p(f(x).value + rest) == Ok((g(x), rest))
  }

  lemma {:induction false} ManyBack<T(!new), U(!new)>(f: T -> Printed, p: Bytes -> Parsed<U>, g: T -> U, xs: seq<T>, rest: Bytes)
    requires PrintMany(f, xs).Ok? && forall x :: x in xs ==> ReadsBack(f, p, g, x)
    ensures ParseMany(p, |xs|, PrintMany(f, xs).value + rest) == Ok((Map(xs, g), rest))
  {
    if xs == [] {
      assert [] + rest == rest && Map(xs, g) == [];
    } else {
      assert xs[0] in xs && forall x :: x in xs[1..] ==> x in xs;
      var first, others := f(xs[0]).value, PrintMany(f, xs[1..]).value;
      assert (first + others) + rest == first + (others + rest);
      assert ReadsBack(f, p, g, xs[0]);
      assert p(f(xs[0]).value + (others + rest)) == Ok((g(xs[0]), others + rest));
      ManyBack(f, p, g, xs[1..], rest);
      assert Map(xs, g) == [g(xs[0])] + Map(xs[1..], g);
    }
  }

  ghost predicate Shrinks<T(!new)>(p: Bytes -> Parsed<T>) {
    forall b: Bytes :: p(b).Ok? ==> |p(b).value.1| <= |b|
  }

  lemma {:induction false} ManyShrinks<T(!new)>(p: Bytes -> Parsed<T>, n: nat, b: Bytes)
    requires Shrinks(p)
    ensures ParseMany(p, n, b).Ok? ==> |ParseMany(p, n, b).value.1| <= |b| && |ParseMany(p, n, b).value.0| == n
  {
    if n > 0 && p(b).Ok? {
      ManyShrinks(p, n - 1, p(b).value.1);
    }
  }

  function Prepend<T>(xs: seq<T>, r: Parsed<seq<T>>): Parsed<seq<T>> {
    match r
    case Ok((ys, rest)) => Ok((xs + ys, rest))
    case Err(e) => Err(e)
  }

  /** The counted loops of the parsers. */
  method ReadMany<T(!new)>(p: Bytes -> Parsed<T>, n: nat, b: Bytes) returns (r: Parsed<seq<T>>)
    ensures r == ParseMany(p, n, b)
  {
    var buf := b;
    var xs: seq<T> := [];
    PrependNothing(ParseMany(p, n, b));
    for i := 0 to n
      invariant Prepend(xs, ParseMany(p, n - i, buf)) == ParseMany(p, n, b)
    {
      var x := p(buf);
      if x.Err? {
        return Err(x.error);
      }
      PrependStep(xs, x.value.0, ParseMany(p, n - i - 1, x.value.1));
      buf := x.value.1;
      xs := xs + [x.value.0];
    }
    assert xs + [] == xs;
    r := Ok((xs, buf));
  }

  lemma PrependNothing<T>(r: Parsed<seq<T>>)
    ensures Prepend([], r) == r
  {
    if r.Ok? {
      assert [] + r.value.0 == r.value.0;
    }
  }

  lemma PrependStep<T>(xs: seq<T>, x: T, r: Parsed<seq<T>>)
    ensures Prepend(xs, Prepend([x], r)) == Prepend(xs + [x], r)
  {
    if r.Ok? {
      assert xs + ([x] + r.value.0) == (xs + [x]) + r.value.0;
    }
  }

  /** The loops of the serializers: every element's bytes, pushed one after another. */
  method WriteMany<T(!new)>(f: T -> Printed, xs: seq<T>) returns (r: Printed)
    ensures r == PrintMany(f, xs)
  {
    var out: Bytes := [];
    AfterNothing(PrintMany(f, xs));
    assert xs[0..] == xs;
    for i := 0 to |xs|
      invariant After(out, PrintMany(f, xs[i..])) == PrintMany(f, xs)
    {
      assert xs[i..][0] == xs[i] && xs[i..][1..] == xs[i+1..];
      var x := f(xs[i]);
      if x.Err? {
        return Err(x.error);
      }
      AfterStep(out, x.value, PrintMany(f, xs[i+1..]));
      out := out + x.value;
    }
    assert xs[|xs|..] == [] && out + [] == out;
    r := Ok(out);
  }

  function After(out: Bytes, more: Printed): Printed {
    match more
    case Ok(b) => Ok(out + b)
    case Err(e) => Err(e)
  }

  lemma AfterNothing(more: Printed)
    ensures After([], more) == more
  {
    if more.Ok? {
      assert [] + more.value == more.value;
    }
  }

  lemma AfterStep(out: Bytes, x: Bytes, more: Printed)
    ensures After(out, After(x, more)) == After(out + x, more)
  {
    if more.Ok? {
      assert out + (x + more.value) == (out + x) + more.value;
    }
  }

  // ----- bytes and short lengths -----

  lemma ByteBack(value: int, rest: Bytes)
    ensures UnpackInt(1, ToBytes(value, 1) + rest) == Ok((value % 256, rest))
  {
    Powers();
    UnpackIntBack(value, 1, rest);
  }

  lemma ShortBack(x: Bytes, rest: Bytes)
    requires |x| < 0x1_0000
    ensures UnpackPrefixed(2, Prefixed(2, x) + rest) == Ok((x, rest))
  {
    Powers();
    PrefixedBack(2, x, rest);
  }

  // ----- 32-byte hashes -----

  const TX_HASH_SIZE_BYTES: nat := 32

  function HashPrinter(): string -> Printed { (h: string) => HexToBuffer(h) }

  /** `unpackToHex(TX_HASH_SIZE_BYTES, …)` */
  function ParseHash(b: Bytes): Parsed<string> {
    var h :- UnpackLen(TX_HASH_SIZE_BYTES, b);
    Ok((BufferToHex(h.0), h.1))
  }

  function HashParser(): Bytes -> Parsed<string> { (b: Bytes) => ParseHash(b) }

  function Lowered(): string -> string { (h: string) => LowerHex(h) }

  predicate IsHash(h: string) { |h| == 2 * TX_HASH_SIZE_BYTES }

  lemma HashBack(h: string, rest: Bytes)
    requires IsHash(h) && HexToBuffer(h).Ok?
    ensures ParseHash(HexToBuffer(h).value + rest) == Ok((LowerHex(h), rest))
  {
    UnpackLenBack(FromHex(h), rest);
    HexSurvivesLowercased(h);
  }

  lemma HashesReadBack(hs: seq<string>)
    requires forall h :: h in hs ==> IsHash(h)
    ensures forall h :: h in hs ==> ReadsBack(HashPrinter(), HashParser(), Lowered(), h)
  {
    forall h | h in hs && HashPrinter()(h).Ok?
      ensures forall rest: Bytes :: HashParser()(HashPrinter()(h).value + rest) == Ok((Lowered()(h), rest))
    {
      forall rest: Bytes ensures HashParser()(HashPrinter()(h).value + rest) == Ok((Lowered()(h), rest)) {
        HashBack(h, rest);
      }
    }
  }

  lemma HashesBack(hs: seq<string>, rest: Bytes)
    requires PrintMany(HashPrinter(), hs).Ok? && forall h :: h in hs ==> IsHash(h)
    ensures ParseMany(HashParser(), |hs|, PrintMany(HashPrinter(), hs).value + rest) == Ok((Map(hs, Lowered()), rest))
  {
    HashesReadBack(hs);
    ManyBack(HashPrinter(), HashParser(), Lowered(), hs, rest);
  }

  // ----- inputs -----

  datatype Input = Input(hash: string, index: int, data: Option<Bytes>)

  function InputData(i: Input, addData: bool): Bytes {
    if i.data.Some? && addData then Prefixed(2, i.data.value) else ToBytes(0, 2)
  }

  /** `Input.serialize` */
  function PrintInput(i: Input, addData: bool): Printed {
    var hash :- HexToBuffer(i.hash);
    Ok(hash + ToBytes(i.index, 1) + InputData(i, addData))
  }

  function InputPrinter(addData: bool): Input -> Printed { (i: Input) => PrintInput(i, addData) }

  /** `Input.createFromBytes` */
  function ParseInput(b: Bytes): Parsed<Input> {
    var hash :- ParseHash(b);
    var index :- UnpackInt(1, hash.1);
    var data :- UnpackPrefixed(2, index.1);
    Ok((Input(hash.0, index.0, if data.0 == [] then None else Some(data.0)), data.1))
  }

  function InputParser(): Bytes -> Parsed<Input> { (b: Bytes) => ParseInput(b) }

  predicate InputFits(i: Input) { IsHash(i.hash) && (i.data.Some? ==> |i.data.value| < 0x1_0000) }

  /** What an input reads back as: lower-case hash, index modulo 256, empty data absent. */
  function NormalInput(): Input -> Input {
    (i: Input) => Input(LowerHex(i.hash), i.index % 256, if i.data == Some([]) then None else i.data)
  }

  lemma InputRoundTrip(i: Input, rest: Bytes)
    requires InputFits(i) && PrintInput(i, true).Ok?
    ensures ParseInput(PrintInput(i, true).value + rest) == Ok((NormalInput()(i), rest))
  {
    var hash, index := HexToBuffer(i.hash).value, ToBytes(i.index, 1);
    var data := if i.data.Some? then i.data.value else [];
    assert InputData(i, true) == Prefixed(2, data) by {
      assert ToBytes(0, 2) + [] == ToBytes(0, 2);
    }
    assert PrintInput(i, true).value + rest == hash + (index + (Prefixed(2, data) + rest));
    HashBack(i.hash, index + (Prefixed(2, data) + rest));
    ByteBack(i.index, Prefixed(2, data) + rest);
    ShortBack(data, rest);
  }

  lemma InputsReadBack(inputs: seq<Input>)
    requires forall i :: i in inputs ==> InputFits(i)
    ensures forall i :: i in inputs ==> ReadsBack(InputPrinter(true), InputParser(), NormalInput(), i)
  {
    forall i | i in inputs && InputPrinter(true)(i).Ok?
      ensures forall rest: Bytes :: InputParser()(InputPrinter(true)(i).value + rest) == Ok((NormalInput()(i), rest))
    {
      forall rest: Bytes ensures InputParser()(InputPrinter(true)(i).value + rest) == Ok((NormalInput()(i), rest)) {
        InputRoundTrip(i, rest);
      }
    }
  }

  lemma InputsBack(inputs: seq<Input>, rest: Bytes)
    requires PrintMany(InputPrinter(true), inputs).Ok? && forall i :: i in inputs ==> InputFits(i)
    ensures ParseMany(InputParser(), |inputs|, PrintMany(InputPrinter(true), inputs).value + rest) == Ok((Map(inputs, NormalInput()), rest))
  {
    InputsReadBack(inputs);
    ManyBack(InputPrinter(true), InputParser(), NormalInput(), inputs, rest);
  }

  // ----- outputs -----

  datatype Output = Output(value: int, tokenData: int, script: Bytes)

  /** `Output.serialize` */
  function PrintOutput(o: Output): Printed {
    var value :- OutputValueToBytes(o.value);
    Ok(value + ToBytes(o.tokenData, 1) + Prefixed(2, o.script))
  }

  function OutputPrinter(): Output -> Printed { (o: Output) => PrintOutput(o) }

  /** `Output.createFromBytes`; the constructor refuses a zero value. */
  function ParseOutput(b: Bytes): Parsed<Output> {
    var value :- BytesToOutputValue(b);
    ParseOutputRest(value.0, value.1)
  }

  function ParseOutputRest(value: int, b: Bytes): Parsed<Output> {
    var tokenData :- UnpackInt(1, b);
    var script :- UnpackPrefixed(2, tokenData.1);
    if value == 0 then Err(InvalidOutputValue) else Ok((Output(value, tokenData.0, script.0), script.1))
  }

  function OutputParser(): Bytes -> Parsed<Output> { (b: Bytes) => ParseOutput(b) }

  predicate OutputFits(o: Output) { |o.script| < 0x1_0000 }

  function NormalOutput(): Output -> Output { (o: Output) => o.(tokenData := o.tokenData % 256) }

  lemma OutputRestBack(o: Output, rest: Bytes)
    requires OutputFits(o) && o.value != 0
    ensures ParseOutputRest(o.value, ToBytes(o.tokenData, 1) + (Prefixed(2, o.script) + rest)) == Ok((NormalOutput()(o), rest))
  {
    ByteBack(o.tokenData, Prefixed(2, o.script) + rest);
    ShortBack(o.script, rest);
  }

  lemma OutputRoundTrip(o: Output, rest: Bytes)
    requires OutputFits(o) && PrintOutput(o).Ok?
    ensures ParseOutput(PrintOutput(o).value + rest) == Ok((NormalOutput()(o), rest))
  {
    var value := OutputValueToBytes(o.value).value;
    var more := ToBytes(o.tokenData, 1) + (Prefixed(2, o.script) + rest);
    OutputValueRoundTrip(o.value, more);
    OutputRestBack(o, rest);
    Regroup(value, ToBytes(o.tokenData, 1), Prefixed(2, o.script), rest);
  }

  lemma Regroup(a: Bytes, b: Bytes, c: Bytes, rest: Bytes)
    ensures (a + b + c) + rest == a + (b + (c + rest))
  {
  }

  lemma RegroupThree(a: Bytes, b: Bytes, c: Bytes, rest: Bytes)
    ensures (a + (b + c)) + rest == a + (b + (c + rest))
  {
  }

  lemma OutputsReadBack(outputs: seq<Output>)
    requires forall o :: o in outputs ==> OutputFits(o)
    ensures forall o :: o in outputs ==> ReadsBack(OutputPrinter(), OutputParser(), NormalOutput(), o)
  {
    forall o | o in outputs && OutputPrinter()(o).Ok?
      ensures forall rest: Bytes :: OutputParser()(OutputPrinter()(o).value + rest) == Ok((NormalOutput()(o), rest))
    {
      forall rest: Bytes ensures OutputParser()(OutputPrinter()(o).value + rest) == Ok((NormalOutput()(o), rest)) {
        OutputRoundTrip(o, rest);
      }
    }
  }

  lemma OutputsBack(outputs: seq<Output>, rest: Bytes)
    requires PrintMany(OutputPrinter(), outputs).Ok? && forall o :: o in outputs ==> OutputFits(o)
    ensures ParseMany(OutputParser(), |outputs|, PrintMany(OutputPrinter(), outputs).value + rest) == Ok((Map(outputs, NormalOutput()), rest))
  {
    OutputsReadBack(outputs);
    ManyBack(OutputPrinter(), OutputParser(), NormalOutput(), outputs, rest);
  }

  // ----- shielded outputs -----

  const AMOUNT_SHIELDED: int := 1
  const FULLY_SHIELDED: int := 2
  const PUBKEY_SIZE: nat := 33
  const MAX_SHIELDED_OUTPUT_SCRIPT_SIZE: nat := 1024

  /** `value` is local knowledge and never printed. */
  datatype ShieldedOutput = ShieldedOutput(
    mode: int,
    commitment: Bytes,
    rangeProof: Bytes,
    tokenData: Option<int>,
    script: Bytes,
    ephemeralPubkey: Bytes,
    value: int,
    assetCommitment: Option<Bytes>,
    surjectionProof: Option<Bytes>)

  /** `serializeModeSpecificFields` */
  function PrintModeFields(o: ShieldedOutput, includeProof: bool): Printed {
    if o.mode == AMOUNT_SHIELDED then
      if o.tokenData.None? then Err(MissingShieldedField) else Ok(ToBytes(o.tokenData.value, 1))
    else if o.mode == FULLY_SHIELDED then
      if o.assetCommitment.None? then Err(MissingShieldedField)
      else if !includeProof then Ok(o.assetCommitment.value)
      else if o.surjectionProof.None? then Err(MissingShieldedField)
      else Ok(o.assetCommitment.value + Prefixed(2, o.surjectionProof.value))
    else Err(UnsupportedMode)
  }

  /** `ShieldedOutput.serialize` */
  function PrintShielded(o: ShieldedOutput): Printed {
    var fields :- PrintModeFields(o, true);
    if |o.ephemeralPubkey| != PUBKEY_SIZE then Err(InvalidPubkeySize)
    else Ok(ToBytes(o.mode, 1) + o.commitment + Prefixed(2, o.rangeProof) + Prefixed(2, o.script) + fields + o.ephemeralPubkey)
  }

  function ShieldedPrinter(): ShieldedOutput -> Printed { (o: ShieldedOutput) => PrintShielded(o) }

  /** A length-prefixed field whose length is checked against a maximum before it is read. */
  function UnpackSized(max: nat, b: Bytes): Parsed<Bytes> {
    var len :- UnpackInt(2, b);
    if len.0 > max then Err(SizeExceedsMaximum) else UnpackLen(len.0, len.1)
  }

  datatype ModeFields = ModeFields(tokenData: Option<int>, assetCommitment: Option<Bytes>, surjectionProof: Option<Bytes>)

  function ParseModeFields(mode: int, b: Bytes): Parsed<ModeFields> {
    if mode == AMOUNT_SHIELDED then
      var tokenData :- UnpackInt(1, b);
      Ok((ModeFields(Some(tokenData.0), None, None), tokenData.1))
    else if mode == FULLY_SHIELDED then
      var asset :- UnpackLen(PUBKEY_SIZE, b);
      var proof :- UnpackSized(WalletTypes.MAX_SURJECTION_PROOF_SIZE, asset.1);
      Ok((ModeFields(None, Some(asset.0), Some(proof.0)), proof.1))
    else Err(UnsupportedMode)
  }

  /** `ShieldedOutput.deserialize` */
  function ParseShielded(b: Bytes): Parsed<ShieldedOutput> {
    var mode :- UnpackInt(1, b);
    var commitment :- UnpackLen(PUBKEY_SIZE, mode.1);
    ParseShieldedBody(mode.0, commitment.0, commitment.1)
  }

  function ParseShieldedBody(mode: int, commitment: Bytes, b: Bytes): Parsed<ShieldedOutput> {
    var rangeProof :- UnpackSized(WalletTypes.MAX_RANGE_PROOF_SIZE, b);
    var script :- UnpackSized(MAX_SHIELDED_OUTPUT_SCRIPT_SIZE, rangeProof.1);
    ParseShieldedRest(mode, commitment, rangeProof.0, script.0, script.1)
  }

  function ParseShieldedRest(mode: int, commitment: Bytes, rangeProof: Bytes, script: Bytes, b: Bytes): Parsed<ShieldedOutput> {
    var fields :- ParseModeFields(mode, b);
    var pubkey :- UnpackLen(PUBKEY_SIZE, fields.1);
    Ok((ShieldedOutput(mode, commitment, rangeProof, fields.0.tokenData, script, pubkey.0, 0,
                       fields.0.assetCommitment, fields.0.surjectionProof), pubkey.1))
  }

  function ShieldedParser(): Bytes -> Parsed<ShieldedOutput> { (b: Bytes) => ParseShielded(b) }

  /** The field widths of the layout; the maxima are the parser's own. */
  predicate ShieldedFits(o: ShieldedOutput) {
    && |o.commitment| == PUBKEY_SIZE && |o.rangeProof| < 0x1_0000 && |o.script| < 0x1_0000
    && (o.mode == FULLY_SHIELDED && o.assetCommitment.Some? ==> |o.assetCommitment.value| == PUBKEY_SIZE)
    && (o.mode == FULLY_SHIELDED && o.surjectionProof.Some? ==> |o.surjectionProof.value| < 0x1_0000)
  }

  predicate WithinMaxima(o: ShieldedOutput) {
    && |o.rangeProof| <= WalletTypes.MAX_RANGE_PROOF_SIZE && |o.script| <= MAX_SHIELDED_OUTPUT_SCRIPT_SIZE
    && ProofWithinMaximum(o)
  }

  /** What a shielded output reads back as: no value, and only the fields of its mode. */
  function NormalShielded(): ShieldedOutput -> ShieldedOutput {
    (o: ShieldedOutput) =>
      if o.mode == AMOUNT_SHIELDED
      then o.(value := 0, tokenData := if o.tokenData.Some? then Some(o.tokenData.value % 256) else None,
              assetCommitment := None, surjectionProof := None)
      else o.(value := 0, tokenData := None)
  }

  lemma SizedBack(max: nat, x: Bytes, rest: Bytes)
    requires |x| < 0x1_0000
    ensures UnpackSized(max, Prefixed(2, x) + rest) == if |x| <= max then Ok((x, rest)) else Err(SizeExceedsMaximum)
  {
    Powers();
    assert Prefixed(2, x) + rest == ToBytes(|x|, 2) + (x + rest);
    UnpackIntBack(|x|, 2, x + rest);
    RemainderIs(|x|, Pow256(2), 0, |x|);
    UnpackLenBack(x, rest);
  }

  lemma ModeFieldsBack(o: ShieldedOutput, rest: Bytes)
    requires ShieldedFits(o) && PrintModeFields(o, true).Ok?
    ensures ParseModeFields(o.mode, PrintModeFields(o, true).value + rest)
         == if o.mode == AMOUNT_SHIELDED then Ok((ModeFields(Some(o.tokenData.value % 256), None, None), rest))
            else if |o.surjectionProof.value| <= WalletTypes.MAX_SURJECTION_PROOF_SIZE
            then Ok((ModeFields(None, o.assetCommitment, o.surjectionProof), rest))
            else Err(SizeExceedsMaximum)
  {
    if o.mode == AMOUNT_SHIELDED {
      ByteBack(o.tokenData.value, rest);
    } else {
      var asset, proof := o.assetCommitment.value, Prefixed(2, o.surjectionProof.value);
      assert (asset + proof) + rest == asset + (proof + rest);
      UnpackLenBack(asset, proof + rest);
      SizedBack(WalletTypes.MAX_SURJECTION_PROOF_SIZE, o.surjectionProof.value, rest);
    }
  }

  predicate ProofWithinMaximum(o: ShieldedOutput) {
    o.mode == FULLY_SHIELDED && o.surjectionProof.Some? ==> |o.surjectionProof.value| <= WalletTypes.MAX_SURJECTION_PROOF_SIZE
  }

  lemma ShieldedRestBack(o: ShieldedOutput, rest: Bytes)
    requires ShieldedFits(o) && PrintModeFields(o, true).Ok? && |o.ephemeralPubkey| == PUBKEY_SIZE
    ensures ParseShieldedRest(o.mode, o.commitment, o.rangeProof, o.script, PrintModeFields(o, true).value + (o.ephemeralPubkey + rest))
         == if ProofWithinMaximum(o) then Ok((NormalShielded()(o), rest)) else Err(SizeExceedsMaximum)
  {
    ModeFieldsBack(o, o.ephemeralPubkey + rest);
    UnpackLenBack(o.ephemeralPubkey, rest);
  }

  lemma RegroupShielded(mode: Bytes, commitment: Bytes, proof: Bytes, script: Bytes, fields: Bytes, pubkey: Bytes, rest: Bytes)
    ensures (mode + commitment + proof + script + fields + pubkey) + rest
         == mode + (commitment + (proof + (script + (fields + (pubkey + rest)))))
  {
  }

  lemma ShieldedBodyBack(o: ShieldedOutput, fields: Bytes, rest: Bytes)
    requires ShieldedFits(o) && PrintModeFields(o, true) == Ok(fields) && |o.ephemeralPubkey| == PUBKEY_SIZE
    ensures ParseShieldedBody(o.mode, o.commitment, Prefixed(2, o.rangeProof) + (Prefixed(2, o.script) + (fields + (o.ephemeralPubkey + rest))))
         == if WithinMaxima(o) then Ok((NormalShielded()(o), rest)) else Err(SizeExceedsMaximum)
  {
    var tail := fields + (o.ephemeralPubkey + rest);
    SizedBack(WalletTypes.MAX_RANGE_PROOF_SIZE, o.rangeProof, Prefixed(2, o.script) + tail);
    SizedBack(MAX_SHIELDED_OUTPUT_SCRIPT_SIZE, o.script, tail);
    ShieldedRestBack(o, rest);
  }

  lemma ShieldedHeadBack(mode: int, commitment: Bytes, body: Bytes)
    requires |commitment| == PUBKEY_SIZE
    ensures ParseShielded(ToBytes(mode, 1) + (commitment + body)) == ParseShieldedBody(mode % 256, commitment, body)
  {
    ByteBack(mode, commitment + body);
    UnpackLenBack(commitment, body);
  }

  /** A printed shielded output reads back exactly when its proofs and script keep the maxima, which
      only the parser checks. */
  lemma ShieldedRoundTrip(o: ShieldedOutput, rest: Bytes)
    requires ShieldedFits(o) && PrintShielded(o).Ok?
    ensures ParseShielded(PrintShielded(o).value + rest)
         == if WithinMaxima(o) then Ok((NormalShielded()(o), rest)) else Err(SizeExceedsMaximum)
  {
    var fields := PrintModeFields(o, true).value;
    var body := Prefixed(2, o.rangeProof) + (Prefixed(2, o.script) + (fields + (o.ephemeralPubkey + rest)));
    ShieldedSplit(o, fields, rest);
    ShieldedHeadBack(o.mode, o.commitment, body);
    ShieldedBodyBack(o, fields, rest);
  }

  lemma ShieldedSplit(o: ShieldedOutput, fields: Bytes, rest: Bytes)
    requires PrintModeFields(o, true) == Ok(fields) && |o.ephemeralPubkey| == PUBKEY_SIZE
    ensures PrintShielded(o).value + rest
         == ToBytes(o.mode, 1) + (o.commitment + (Prefixed(2, o.rangeProof) + (Prefixed(2, o.script) + (fields + (o.ephemeralPubkey + rest)))))
    ensures o.mode % 256 == o.mode
  {
    RegroupShielded(ToBytes(o.mode, 1), o.commitment, Prefixed(2, o.rangeProof), Prefixed(2, o.script), fields, o.ephemeralPubkey, rest);
  }

  /** An output with a range proof above the maximum, which can be printed. */
  function Oversized(proofSize: nat): ShieldedOutput {
    ShieldedOutput(AMOUNT_SHIELDED, Zeros(PUBKEY_SIZE), Zeros(proofSize), Some(0), [], Zeros(PUBKEY_SIZE), 5, None, None)
  }

  function Zeros(n: nat): (r: Bytes)
    ensures |r| == n
  {
    seq(n, _ => 0)
  }

  /** An output that can be written and not read, whatever follows it. */
  lemma OversizedProofIsRefused(proofSize: nat, rest: Bytes)
    requires WalletTypes.MAX_RANGE_PROOF_SIZE < proofSize < 0x1_0000
    ensures PrintShielded(Oversized(proofSize)).Ok?
    ensures ParseShielded(PrintShielded(Oversized(proofSize)).value + rest) == Err(SizeExceedsMaximum)
  {
    ShieldedRoundTrip(Oversized(proofSize), rest);
  }

  lemma ShieldedReadBack(outputs: seq<ShieldedOutput>)
    requires forall o :: o in outputs ==> ShieldedFits(o) && WithinMaxima(o)
    ensures forall o :: o in outputs ==> ReadsBack(ShieldedPrinter(), ShieldedParser(), NormalShielded(), o)
  {
    forall o | o in outputs && ShieldedPrinter()(o).Ok?
      ensures forall rest: Bytes :: ShieldedParser()(ShieldedPrinter()(o).value + rest) == Ok((NormalShielded()(o), rest))
    {
      forall rest: Bytes ensures ShieldedParser()(ShieldedPrinter()(o).value + rest) == Ok((NormalShielded()(o), rest)) {
        ShieldedRoundTrip(o, rest);
      }
    }
  }

  lemma ShieldedOutputsBack(outputs: seq<ShieldedOutput>, rest: Bytes)
    requires PrintMany(ShieldedPrinter(), outputs).Ok? && forall o :: o in outputs ==> ShieldedFits(o) && WithinMaxima(o)
    ensures ParseMany(ShieldedParser(), |outputs|, PrintMany(ShieldedPrinter(), outputs).value + rest) == Ok((Map(outputs, NormalShielded()), rest))
  {
    ShieldedReadBack(outputs);
    ManyBack(ShieldedPrinter(), ShieldedParser(), NormalShielded(), outputs, rest);
  }

  lemma ModeFieldsShrink(mode: int, b: Bytes)
    requires ParseModeFields(mode, b).Ok?
    ensures |ParseModeFields(mode, b).value.1| <= |b|
  {
  }

  lemma ShieldedRestShrinks(mode: int, commitment: Bytes, rangeProof: Bytes, script: Bytes, b: Bytes)
    requires ParseShieldedRest(mode, commitment, rangeProof, script, b).Ok?
    ensures |ParseShieldedRest(mode, commitment, rangeProof, script, b).value.1| <= |b|
  {
    ModeFieldsShrink(mode, b);
  }

  lemma ShieldedBodyShrinks(mode: int, commitment: Bytes, b: Bytes)
    requires ParseShieldedBody(mode, commitment, b).Ok?
    ensures |ParseShieldedBody(mode, commitment, b).value.1| <= |b|
  {
    var rangeProof := UnpackSized(WalletTypes.MAX_RANGE_PROOF_SIZE, b).value;
    var script := UnpackSized(MAX_SHIELDED_OUTPUT_SCRIPT_SIZE, rangeProof.1).value;
    ShieldedRestShrinks(mode, commitment, rangeProof.0, script.0, script.1);
  }

  lemma ShieldedShrinks()
    ensures Shrinks(ShieldedParser())
  {
    forall b: Bytes | ShieldedParser()(b).Ok? ensures |ShieldedParser()(b).value.1| <= |b| {
      var mode := UnpackInt(1, b).value;
      var commitment := UnpackLen(PUBKEY_SIZE, mode.1).value;
      ShieldedBodyShrinks(mode.0, commitment.0, commitment.1);
    }
  }
}
