/** The text of a partial transaction and the scripts in it, written out: absolute statements beside the
    round trips (src/models/partial_tx.ts, src/utils/scripts.ts). */
module PartialLayout {
  import opened Wrappers
  import opened SeqSums
  import opened Bytes
  import opened Text
  import opened Separated
  import opened StandardScript
  import opened ProposalText
  import opened TransactionLayout
  import Wire
  import WireLayout
  import TransactionWire
  import HeaderWire

  // ----- scripts -----

  /** Pay to a public key hash, or to a script hash. */
  function Unlocked(kind: Kind, hash: Bytes): Bytes {
    match kind
    case PubKeyHash => [0x76, 0xa9, 20] + hash + [0x88, 0xac]
    case ScriptHash => [0xa9, 20] + hash + [0x87]
  }

  /** A timelock goes before it: four bytes, and the opcode that compares them. */
  function Locked(timelock: nat, kind: Kind, hash: Bytes): Bytes {
    [4] + Four(timelock) + [0x6f] + Unlocked(kind, hash)
  }

  lemma BodyLayout(kind: Kind, hash: Bytes)
    ensures Body(kind, hash) == Unlocked(kind, hash)
  {
  }

  lemma LockedParts(t: int, body: Bytes)
    ensures [4] + (ToBytes(t, 4) + ([0x6f] + body)) == [4] + Four(t) + [0x6f] + body
  {
    WireLayout.BigEndian(t);
  }

  /** Scripts are created with these bytes; a zero timelock is none. */
  lemma ScriptLayout(s: Script)
    ensures CreateScript(s) ==
      if s.timelock.Some? && s.timelock.value != 0 then Locked(s.timelock.value, s.kind, s.hash) else Unlocked(s.kind, s.hash)
  {
    BodyLayout(s.kind, s.hash);
    if s.timelock.Some? {
      LockedParts(s.timelock.value, Body(s.kind, s.hash));
    }
  }

  /** The script, with its timelock before it if it has one. */
  predicate Spells(b: Bytes, s: Script) {
    && |s.hash| == 20
    && if s.timelock.None? then b == Unlocked(s.kind, s.hash)
       else s.timelock.value < 0x1_0000_0000 && b == Locked(s.timelock.value, s.kind, s.hash)
  }

  lemma ReadFromBytes(b: Bytes)
    requires ParseStandard(b).Some?
    ensures Spells(b, ParseStandard(b).value)
  {
    var s := ParseStandard(b).value;
    if s.timelock.None? {
      BodyBack(b);
      BodyLayout(s.kind, s.hash);
    } else {
      BodyBack(b[6..]);
      BytesRoundTrip(b[1..5]);
      Powers();
      assert b == [b[0]] + (b[1..5] + ([b[5]] + b[6..]));
      LockedParts(s.timelock.value, b[6..]);
      LockedIs(s.timelock.value, s.kind, s.hash);
    }
  }

  lemma LockedIs(t: nat, kind: Kind, hash: Bytes)
    ensures [4] + Four(t) + [0x6f] + Body(kind, hash) == Locked(t, kind, hash)
  {
    BodyLayout(kind, hash);
  }

  lemma LockedIsCreated(t: nat, kind: Kind, hash: Bytes)
    ensures Locked(t, kind, hash) == [4] + (ToBytes(t, 4) + ([0x6f] + Body(kind, hash)))
  {
    LockedParts(t, Body(kind, hash));
    LockedIs(t, kind, hash);
  }

  lemma LockIsRead(t: nat)
    requires t < 0x1_0000_0000
    ensures FromBytes(ToBytes(t, 4)) == t
  {
    Powers();
    IntRoundTrip(t, 4);
  }

  lemma BytesAreRead(b: Bytes, s: Script)
    requires Spells(b, s)
    ensures ParseStandard(b) == Some(s)
  {
    if s.timelock.None? {
      BodyLayout(s.kind, s.hash);
      CreatedScriptParses(s);
    } else {
      var t := s.timelock.value;
      LockedIsCreated(t, s.kind, s.hash);
      LockIsRead(t);
      LockedParses(s.kind, s.hash, ToBytes(t, 4));
    }
  }

  /** Exactly the bytes so made are read as a standard script. */
  lemma StandardMeans(b: Bytes, s: Script)
    ensures ParseStandard(b) == Some(s) <==> Spells(b, s)
  {
    if ParseStandard(b) == Some(s) {
      ReadFromBytes(b);
    }
    if Spells(b, s) {
      BytesAreRead(b, s);
    }
  }

  // ----- numbers and text -----

  /** A number below 16 is one small hexadecimal digit; a greater one has its digit of lowest order last. */
  lemma HexIntLayout(n: nat)
    ensures n < 16 ==> ToHexInt(n) == ["0123456789abcdef"[n]]
    ensures n >= 16 ==> ToHexInt(n) == ToHexInt(n / 16) + ["0123456789abcdef"[n % 16]]
  {
    SmallDigit(n % 16);
  }

  /** One piece after another, a separator between two. */
  function Listed(parts: seq<string>, separator: string): string {
    if parts == [] then "" else if |parts| == 1 then parts[0] else parts[0] + separator + Listed(parts[1..], separator)
  }

  lemma {:induction false} JoinIsListed(parts: seq<string>, c: char)
    ensures Join(parts, c) == Listed(parts, [c])
  {
    if |parts| >= 2 {
      JoinIsListed(parts[1..], c);
      assert parts[0] + ([c] + Join(parts[1..], c)) == parts[0] + [c] + Join(parts[1..], c);
    }
  }

  /** Address, token, authorities and value of an input, the numbers in hexadecimal. */
  function InputText(): ProposalInput -> string {
    (i: ProposalInput) => i.address + "," + i.token + "," + ToHexInt(i.authorities) + "," + ToHexInt(i.value)
  }

  lemma InputTextIs(i: ProposalInput)
    ensures MetaText()(i) == InputText()(i)
  {
    var parts := MetaParts(i);
    JoinIsListed(parts, ',');
    FourListed(parts[0], parts[1], parts[2], parts[3], ",");
    assert parts == [parts[0], parts[1], parts[2], parts[3]];
  }

  lemma FourListed(a: string, b: string, c: string, d: string, s: string)
    ensures Listed([a, b, c, d], s) == a + s + b + s + c + s + d
  {
    assert [a, b, c, d][1..] == [b, c, d] && [b, c, d][1..] == [c, d] && [c, d][1..] == [d];
    assert Listed([d], s) == d;
    assert Listed([c, d], s) == c + s + d;
    assert Listed([b, c, d], s) == b + s + (c + s + d);
    assert a + s + (b + s + (c + s + d)) == a + s + b + s + c + s + d;
  }

  lemma InputTextsAre(inputs: seq<ProposalInput>)
    ensures Map(inputs, MetaText()) == Map(inputs, InputText())
  {
    forall k | 0 <= k < |inputs| ensures Map(inputs, MetaText())[k] == Map(inputs, InputText())[k] {
      InputTextIs(inputs[k]);
    }
  }

  /** The places of the change outputs, in rising order. */
  ghost predicate ChangePlaces(outputs: seq<ProposalOutput>, places: seq<nat>) {
    && (forall k: nat :: k in places <==> k < |outputs| && outputs[k].isChange)
    && (forall i, j :: 0 <= i < j < |places| ==> places[i] < places[j])
  }

  lemma {:induction false} ChangeIndexesRise(outputs: seq<ProposalOutput>)
    ensures ChangePlaces(outputs, ChangeIndexes(outputs))
  {
    if outputs != [] {
      var n := |outputs| - 1;
      ChangeIndexesRise(outputs[..n]);
      var r := ChangeIndexes(outputs[..n]);
      forall i | 0 <= i < |r| ensures r[i] < n {
        assert r[i] in r;
      }
    }
  }

  // ----- the transaction inside -----

  /** The token data of an output: 0 for HTR, else the place of its token counted from 1; the top bit for an
      authority. */
  predicate TokenDataTells(o: ProposalOutput, tokens: seq<string>, tokenData: int) {
    var index := tokenData - if o.authorities == 0 then 0 else 128;
    if o.token == "00" then index == 0 else 1 <= index <= |tokens| && tokens[index - 1] == o.token
  }

  /** The custom tokens of outputs and inputs, each once. */
  ghost predicate TokensTold(p: Proposal, tokens: seq<string>) {
    && Distinct(tokens)
    && forall t :: t in tokens <==>
         t != "00" && ((exists o :: o in p.outputs && o.token == t) || exists i :: i in p.inputs && i.token == t)
  }

  lemma TokensAreTold(p: Proposal)
    ensures TokensTold(p, TokensOf(p))
  {
    var all := Map(p.outputs, OutputToken()) + Map(p.inputs, InputToken());
    forall t | t in all ensures (exists o :: o in p.outputs && o.token == t) || exists i :: i in p.inputs && i.token == t {
      var k :| 0 <= k < |all| && all[k] == t;
      if k < |p.outputs| {
        assert p.outputs[k] in p.outputs;
      } else {
        assert p.inputs[k - |p.outputs|] in p.inputs;
      }
    }
  }

  lemma TokenDataIsTold(o: ProposalOutput, tokens: seq<string>)
    requires |tokens| <= 127 && "00" !in tokens && (o.token != "00" ==> o.token in tokens)
    ensures TokenDataTells(o, tokens, TokenDataOf(o, tokens))
  {
  }

  /** A standard script goes on the wire as it is, but for a zero timelock, which is left out. */
  ghost predicate ScriptTold(script: Bytes, wire: Bytes) {
    exists s: Script :: Spells(script, s) && wire == if s.timelock == Some(0) then Unlocked(s.kind, s.hash) else script
  }

  lemma ScriptIsTold(script: Bytes)
    requires ParseStandard(script).Some?
    ensures ScriptTold(script, Recreated(script))
  {
    var s := ParseStandard(script).value;
    ReadFromBytes(script);
    ScriptLayout(s);
  }

  /** The transaction inside: version 1, the tokens, every input with its outpoint and data, every output with
      its value, token data and script, and nothing else. */
  ghost predicate TxTold(p: Proposal, d: TransactionWire.TxData) {
    && d == TransactionWire.TxData(
              TransactionWire.Funds(0, 1, d.funds.tokens, d.funds.inputs, d.funds.outputs),
              TransactionWire.Graph([0, 0, 0, 0, 0, 0, 0, 0], None, [], 0), [])
    && TokensTold(p, d.funds.tokens)
    && |d.funds.inputs| == |p.inputs| && |d.funds.outputs| == |p.outputs|
    && (forall k :: 0 <= k < |p.inputs| ==> InputTold(p.inputs[k], d.funds.inputs[k]))
    && (forall k :: 0 <= k < |p.outputs| ==> OutputTold(p.outputs[k], d.funds.tokens, d.funds.outputs[k]))
  }

  predicate InputTold(i: ProposalInput, w: Wire.Input) {
    w.hash == i.hash && w.index == i.index && w.data == if i.data == Some([]) then None else i.data
  }

  ghost predicate OutputTold(o: ProposalOutput, tokens: seq<string>, w: Wire.Output) {
    && w.value == o.value && ScriptTold(o.script, w.script)
    && (|tokens| <= 127 ==> TokenDataTells(o, tokens, w.tokenData))
  }

  lemma TxIsTold(p: Proposal)
    requires AllStandard(p.outputs)
    ensures TxTold(p, TxOf(p))
  {
    var tokens := TokensOf(p);
    TokensAreTold(p);
    forall k | 0 <= k < |p.outputs| ensures OutputTold(p.outputs[k], tokens, WireOutput(tokens)(p.outputs[k])) {
      ScriptIsTold(p.outputs[k].script);
      assert p.outputs[k] in p.outputs;
      if |tokens| <= 127 {
        TokenDataIsTold(p.outputs[k], tokens);
      }
    }
  }

  function PlaceText(): nat -> string { (n: nat) => ToHexInt(n) }

  /** Four fields between bars: the mark, the bytes of the transaction in hexadecimal, the inputs and the
      change places, each list between colons. */
  ghost predicate TextTold(p: Proposal, text: string) {
    exists d, places: seq<nat> ::
      && TxTold(p, d) && TxWritable(d) && ChangePlaces(p.outputs, places)
      && text == "PartialTx" + "|" + BufferToHex(TxBytes(d)) + "|" + Listed(Map(p.inputs, InputText()), ":") + "|"
                 + Listed(Map(places, PlaceText()), ":")
  }

  lemma FieldsListed(p: Proposal, b: Bytes)
    ensures Join(Fields(p, b), '|') == "PartialTx" + "|" + BufferToHex(b) + "|" + Listed(Map(p.inputs, InputText()), ":") + "|"
                                     + Listed(Map(ChangeIndexes(p.outputs), PlaceText()), ":")
  {
    var f := Fields(p, b);
    JoinIsListed(f, '|');
    JoinIsListed(Map(p.inputs, MetaText()), ':');
    InputTextsAre(p.inputs);
    JoinIsListed(Map(ChangeIndexes(p.outputs), HexText()), ':');
    assert Map(ChangeIndexes(p.outputs), HexText()) == Map(ChangeIndexes(p.outputs), PlaceText());
    FourListed(f[0], f[1], f[2], f[3], "|");
    assert f == [f[0], f[1], f[2], f[3]];
  }

  /** A partial transaction whose scripts are standard is written so, if its transaction can be written. */
  lemma TextLayout(p: Proposal)
    ensures Serialized(p).Ok? <==> (forall o :: o in p.outputs ==> exists s: Script :: Spells(o.script, s)) && TxWritable(TxOf(p))
    ensures Serialized(p).Ok? ==> TextTold(p, Serialized(p).value)
  {
    TransactionLayout.TransactionLayout(TxOf(p));
    StandardScripts(p.outputs);
    if Serialized(p).Ok? {
      TxIsTold(p);
      ChangeIndexesRise(p.outputs);
      FieldsListed(p, TxBytes(TxOf(p)));
    }
  }

  lemma StandardScripts(outputs: seq<ProposalOutput>)
    ensures AllStandard(outputs) <==> forall o :: o in outputs ==> exists s: Script :: Spells(o.script, s)
  {
    forall o | o in outputs ensures ParseStandard(o.script).Some? <==> exists s: Script :: Spells(o.script, s) {
      if ParseStandard(o.script).Some? {
        ReadFromBytes(o.script);
      }
      if s: Script :| Spells(o.script, s) {
        BytesAreRead(o.script, s);
      }
    }
    if forall o :: o in outputs ==> exists s: Script :: Spells(o.script, s) {
      forall k | 0 <= k < |outputs| ensures ParseStandard(outputs[k].script).Some? {
        assert outputs[k] in outputs;
      }
    }
    if AllStandard(outputs) {
      forall o | o in outputs ensures ParseStandard(o.script).Some? {
        var k :| 0 <= k < |outputs| && outputs[k] == o;
      }
    }
  }

  // ----- reading -----

  lemma {:induction false} SplitParts(s: string, c: char)
    ensures Join(Split(s, c), c) == s && forall p :: p in Split(s, c) ==> FreeOf(p, c)
  {
    if s != "" {
      SplitParts(s[1..], c);
      var r := Split(s[1..], c);
      if s[0] == c {
        assert Split(s, c)[1..] == r;
        assert s == "" + ([c] + s[1..]);
      } else {
        FirstLonger(s, c, r);
      }
    }
  }

  lemma FirstLonger(s: string, c: char, r: seq<string>)
    requires s != "" && s[0] != c && r != [] && Join(r, c) == s[1..] && forall p :: p in r ==> FreeOf(p, c)
    ensures var longer := [[s[0]] + r[0]] + r[1..];
      Join(longer, c) == s && forall p :: p in longer ==> FreeOf(p, c)
  {
    var longer := [[s[0]] + r[0]] + r[1..];
    assert r[0] in r && forall p :: p in r[1..] ==> p in r;
    assert longer[1..] == r[1..];
    if |r| > 1 {
      assert ([s[0]] + r[0]) + ([c] + Join(r[1..], c)) == [s[0]] + (r[0] + ([c] + Join(r[1..], c)));
    }
    assert s == [s[0]] + s[1..];
  }

  /** A text is split into the only pieces without the separator that make it up. */
  lemma SplitMeans(s: string, c: char, parts: seq<string>)
    ensures Split(s, c) == parts <==> parts != [] && (forall p :: p in parts ==> c !in p) && s == Listed(parts, [c])
  {
    SplitParts(s, c);
    JoinIsListed(Split(s, c), c);
    if parts != [] && (forall p :: p in parts ==> c !in p) && s == Listed(parts, [c]) {
      JoinIsListed(parts, c);
      SplitJoin(parts, c);
    }
  }

  /** Four pieces at least between commas: address, token, authorities and value. */
  predicate MetaRead(h: string, m: Meta) {
    var parts := Split(h, ',');
    && |parts| >= 4 && m.address == parts[0] && m.token == parts[1]
    && ParseBigHex(parts[2]) == Some(m.authorities) && ParseBigHex(parts[3]) == Some(m.value)
  }

  /** One for each piece between colons; none for an empty field. */
  ghost predicate MetasRead(field: string, metas: seq<Meta>) {
    if field == "" then metas == []
    else |metas| == |Split(field, ':')| && forall k :: 0 <= k < |metas| ==> MetaRead(Split(field, ':')[k], metas[k])
  }

  lemma {:induction false} MetasAreRead(hs: seq<string>, metas: seq<Meta>)
    ensures ParseMetas(hs) == Ok(metas) <==> |metas| == |hs| && forall k :: 0 <= k < |hs| ==> MetaRead(hs[k], metas[k])
  {
    if hs != [] && metas != [] {
      MetasAreRead(hs[1..], metas[1..]);
      assert metas == [metas[0]] + metas[1..];
      assert ParseMeta(hs[0]) == Ok(metas[0]) <==> MetaRead(hs[0], metas[0]);
    }
  }

  /** An input holds its outpoint from the transaction and the rest from the text. */
  predicate InputRead(w: Wire.Input, m: Meta, i: ProposalInput) {
    i == ProposalInput(w.hash, w.index, m.value, m.address, m.token, m.authorities, None)
  }

  /** An output holds value and script of the wire; the low bits of the token data name its token, HTR if there
      is none, and with the top bit the value names its authorities. */
  predicate OutputRead(w: Wire.Output, tokens: seq<string>, changes: string, k: nat, o: ProposalOutput) {
    && o.value == w.value && o.script == w.script
    && (var n := if w.tokenData < 0 then 0 else w.tokenData % 128;
        o.token == if 1 <= n <= |tokens| then tokens[n - 1] else "00")
    && o.authorities == (if w.tokenData >= 0 && w.tokenData / 128 % 2 == 1 then w.value % 4 else 0)
    && (o.isChange <==> exists j :: 0 <= j < |Split(changes, ':')| && ParseIntHex(Split(changes, ':')[j]) == Some(k))
  }

  /** The proposal holds what a transaction of version 1 with standard scripts, the inputs and the change
      places say. */
  ghost predicate HoldsRead(d: TransactionWire.TxData, metas: seq<Meta>, changes: string, p: Proposal) {
    && d.funds.version == 1 && |d.funds.inputs| <= |metas|
    && (forall k :: 0 <= k < |d.funds.outputs| ==> ParseStandard(d.funds.outputs[k].script).Some?)
    && InputsRead(d.funds.inputs, metas, p.inputs) && OutputsRead(d.funds.outputs, d.funds.tokens, changes, p.outputs)
  }

  ghost predicate InputsRead(ws: seq<Wire.Input>, metas: seq<Meta>, inputs: seq<ProposalInput>)
    requires |ws| <= |metas|
  {
    |inputs| == |ws| && forall k :: 0 <= k < |ws| ==> InputRead(ws[k], metas[k], inputs[k])
  }

  ghost predicate OutputsRead(ws: seq<Wire.Output>, tokens: seq<string>, changes: string, outputs: seq<ProposalOutput>) {
    |outputs| == |ws| && forall k :: 0 <= k < |ws| ==> OutputRead(ws[k], tokens, changes, k, outputs[k])
  }

  /** The text is four fields between bars: the mark, the transaction in hexadecimal, the inputs and the
      change places. */
  ghost predicate ReadsAs(text: string, net: HeaderWire.Network, p: Proposal) {
    exists f: seq<string>, d, metas ::
      && Split(text, '|') == f && |f| == 4 && f[0] == "PartialTx"
      && Hexadecimal(f[1]) && TransactionWire.ParseTx(net, Spelt(f[1])) == Ok(d)
      && MetasRead(f[2], metas) && HoldsRead(d, metas, f[3], p)
  }

  lemma ChangeMeans(changes: string, k: nat)
    ensures Some(k) in Map(Split(changes, ':'), ParsedInt())
       <==> exists j :: 0 <= j < |Split(changes, ':')| && ParseIntHex(Split(changes, ':')[j]) == Some(k)
  {
    var ints := Map(Split(changes, ':'), ParsedInt());
    if Some(k) in ints {
      var j :| 0 <= j < |ints| && ints[j] == Some(k);
      assert ParseIntHex(Split(changes, ':')[j]) == Some(k);
    }
    if j :| 0 <= j < |Split(changes, ':')| && ParseIntHex(Split(changes, ':')[j]) == Some(k) {
      assert ints[j] == Some(k);
    }
  }

  lemma OutputIsRead(w: Wire.Output, tokens: seq<string>, changes: string, k: nat, o: ProposalOutput)
    ensures OutputRead(w, tokens, changes, k, o)
       <==> o == RestoredOutput(NonNegative(w), tokens, Some(k) in Map(Split(changes, ':'), ParsedInt()))
  {
    ChangeMeans(changes, k);
  }

  lemma OutputsAreRead(ws: seq<Wire.Output>, tokens: seq<string>, changes: string, outputs: seq<ProposalOutput>)
    ensures OutputsRead(ws, tokens, changes, outputs) <==> outputs == RestoreOutputs(ws, tokens, Map(Split(changes, ':'), ParsedInt()))
  {
    var r := RestoreOutputs(ws, tokens, Map(Split(changes, ':'), ParsedInt()));
    if |outputs| == |ws| {
      forall k | 0 <= k < |ws| ensures OutputRead(ws[k], tokens, changes, k, outputs[k]) <==> outputs[k] == r[k] {
        OutputIsRead(ws[k], tokens, changes, k, outputs[k]);
      }
    }
  }

  lemma InputsAreRead(ws: seq<Wire.Input>, metas: seq<Meta>, inputs: seq<ProposalInput>)
    requires |ws| <= |metas|
    ensures InputsRead(ws, metas, inputs) <==> inputs == RestoreInputs(ws, metas)
  {
    var r := RestoreInputs(ws, metas);
    if |inputs| == |ws| {
      forall k | 0 <= k < |ws| ensures InputRead(ws[k], metas[k], inputs[k]) <==> inputs[k] == r[k] {
      }
    }
  }

  lemma RestoredIsRead(d: TransactionWire.TxData, metas: seq<Meta>, changes: string, p: Proposal)
    ensures RestoredFrom(Ok(d), metas, Map(Split(changes, ':'), ParsedInt())) == Ok(p) <==> HoldsRead(d, metas, changes, p)
  {
    if |d.funds.inputs| <= |metas| {
      InputsAreRead(d.funds.inputs, metas, p.inputs);
      OutputsAreRead(d.funds.outputs, d.funds.tokens, changes, p.outputs);
    }
  }

  lemma FieldIsRead(field: string, metas: seq<Meta>)
    ensures ParseMetas(if field == "" then [] else Split(field, ':')) == Ok(metas) <==> MetasRead(field, metas)
  {
    MetasAreRead(if field == "" then [] else Split(field, ':'), metas);
  }

  lemma ReadIsTold(text: string, net: HeaderWire.Network, p: Proposal)
    requires Deserialized(text, net) == Ok(p)
    ensures ReadsAs(text, net, p)
  {
    var f := Split(text, '|');
    var metas := ParseMetas(if f[2] == "" then [] else Split(f[2], ':')).value;
    FieldIsRead(f[2], metas);
    HexLayout(f[1]);
    var d := TransactionWire.ParseTx(net, Spelt(f[1])).value;
    RestoredIsRead(d, metas, f[3], p);
  }

  lemma ToldIsRead(text: string, net: HeaderWire.Network, p: Proposal)
    requires ReadsAs(text, net, p)
    ensures Deserialized(text, net) == Ok(p)
  {
    var f: seq<string>, d, metas :|
      && Split(text, '|') == f && |f| == 4 && f[0] == "PartialTx"
      && Hexadecimal(f[1]) && TransactionWire.ParseTx(net, Spelt(f[1])) == Ok(d)
      && MetasRead(f[2], metas) && HoldsRead(d, metas, f[3], p);
    FieldIsRead(f[2], metas);
    HexLayout(f[1]);
    RestoredIsRead(d, metas, f[3], p);
  }

  /** A text is read as a proposal exactly if its fields say so. */
  lemma ReadMeans(text: string, net: HeaderWire.Network, p: Proposal)
    ensures Deserialized(text, net) == Ok(p) <==> ReadsAs(text, net, p)
  {
    if Deserialized(text, net) == Ok(p) {
      ReadIsTold(text, net, p);
    }
    if ReadsAs(text, net, p) {
      ToldIsRead(text, net, p);
    }
  }
}
