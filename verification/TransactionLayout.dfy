/** The bytes of a whole transaction, each part written out: what goes where, in how many bytes and most
    significant first, for every transaction whose fields fit (src/models/transaction.ts,
    src/models/create_token_transaction.ts and the headers they carry). */
module TransactionLayout {
  import opened Wrappers
  import opened SeqSums
  import opened Bytes
  import opened Text
  import opened Wire
  import opened HeaderWire
  import opened TransactionWire
  import opened WireLayout
  import Leb128

  /** One after another. */
  function Joined(parts: seq<Bytes>): Bytes {
    if parts == [] then [] else parts[0] + Joined(parts[1..])
  }

  /** A list is written when each of its parts is, and in their order. */
  lemma {:induction false} ManyLayout<T(!new)>(f: T -> Printed, ok: T -> bool, g: T -> Bytes, xs: seq<T>)
    requires forall x :: x in xs ==> (f(x).Ok? <==> ok(x)) && (ok(x) ==> f(x).value == g(x))
    ensures PrintMany(f, xs).Ok? <==> forall x :: x in xs ==> ok(x)
    ensures PrintMany(f, xs).Ok? ==> PrintMany(f, xs).value == Joined(Map(xs, g))
  {
    if xs != [] {
      assert xs == [xs[0]] + xs[1..];
      ManyLayout(f, ok, g, xs[1..]);
      assert Map(xs, g)[1..] == Map(xs[1..], g);
    }
  }

  // ----- hexadecimal and UTF-8 -----

  predicate IsDigit(c: char) { '0' <= c <= '9' || 'a' <= c <= 'f' || 'A' <= c <= 'F' }

  /** The value of a digit, in either case. */
  function Digit(c: char): (n: byte)
    ensures n < 16
  {
    if '0' <= c <= '9' then c as int - 48
    else if 'a' <= c <= 'f' then c as int - 87
    else if 'A' <= c <= 'F' then c as int - 55
    else 0
  }

  /** The bytes a hexadecimal string spells, two digits each, the upper first. */
  function Spelt(h: string): Bytes {
    seq(|h| / 2, k requires 0 <= k < |h| / 2 => 16 * Digit(h[2 * k]) + Digit(h[2 * k + 1]))
  }

  lemma DigitIsNibble(c: char)
    ensures IsHexChar(c) <==> IsDigit(c)
    ensures IsDigit(c) ==> Nibble(c) == Digit(c)
  {
  }

  predicate Hexadecimal(h: string) { forall k :: 0 <= k < |h| ==> IsDigit(h[k]) }

  /** Hexadecimal is read two digits a byte, and refused exactly for a character that is no digit. */
  lemma {:induction false} HexLayout(h: string)
    ensures HexToBuffer(h) == if Hexadecimal(h) then Ok(Spelt(h)) else Err(NotHexadecimal)
  {
    forall k | 0 <= k < |h| ensures IsHexChar(h[k]) <==> IsDigit(h[k]) {
      DigitIsNibble(h[k]);
    }
    if IsHexa(h) {
      SpeltBytes(h);
    }
  }

  lemma {:induction false} SpeltBytes(h: string)
    requires IsHexa(h)
    ensures FromHex(h) == Spelt(h)
  {
    if |h| >= 2 {
      SpeltBytes(h[2..]);
      DigitIsNibble(h[0]);
      DigitIsNibble(h[1]);
      SpeltRest(h);
    }
  }

  lemma SpeltRest(h: string)
    requires |h| >= 2
    ensures Spelt(h) == [16 * Digit(h[0]) + Digit(h[1])] + Spelt(h[2..])
  {
    forall k | 0 < k < |h| / 2 ensures Spelt(h)[k] == Spelt(h[2..])[k - 1] {
    }
  }

  /** A byte is written in two small digits, the upper first. */
  lemma {:induction false} WrittenInHex(b: Bytes)
    ensures |BufferToHex(b)| == 2 * |b|
    ensures forall k :: 0 <= k < |b| ==>
      && BufferToHex(b)[2 * k] == "0123456789abcdef"[b[k] / 16]
      && BufferToHex(b)[2 * k + 1] == "0123456789abcdef"[b[k] % 16]
  {
    if b != [] {
      WrittenInHex(b[1..]);
      SmallDigit(b[0] / 16);
      SmallDigit(b[0] % 16);
      TwoDigits([HexChar(b[0] / 16), HexChar(b[0] % 16)], BufferToHex(b[1..]));
    }
  }

  lemma TwoDigits(two: string, rest: string)
    requires |two| == 2
    ensures forall k :: 0 < k && 2 * k + 1 < |rest| + 2 ==>
      (two + rest)[2 * k] == rest[2 * (k - 1)] && (two + rest)[2 * k + 1] == rest[2 * (k - 1) + 1]
  {
  }

  lemma SmallDigit(n: nat)
    requires n < 16
    ensures HexChar(n) == "0123456789abcdef"[n]
  {
  }

  /** The later bytes of a character start with the bits 10. */
  predicate Later(x: int) { x / 64 == 2 }

  predicate InTwo(n: int, a: int, b: int) { a / 32 == 6 && Later(b) && n == a % 32 * 64 + b % 64 }

  predicate InThree(n: int, a: int, b: int, c: int) {
    a / 16 == 14 && Later(b) && Later(c) && n == a % 16 * 4096 + b % 64 * 64 + c % 64
  }

  predicate InFour(n: int, a: int, b: int, c: int, d: int) {
    a / 8 == 30 && Later(b) && Later(c) && Later(d) && n == a % 8 * 262144 + b % 64 * 4096 + c % 64 * 64 + d % 64
  }

  lemma Bits(n: nat)
    ensures n == n / 64 * 64 + n % 64
    ensures n == n / 4096 * 4096 + n / 64 % 64 * 64 + n % 64
    ensures n == n / 262144 * 262144 + n / 4096 % 64 * 4096 + n / 64 % 64 * 64 + n % 64
  {
    assert n / 64 / 64 == n / 4096;
    assert n / 4096 / 64 == n / 262144;
  }

  lemma LaterBits(m: int)
    requires 0 <= m < 64
    ensures Later(0x80 + m) && (0x80 + m) % 64 == m
  {
  }

  lemma LeadBits(m: int)
    ensures 0 <= m < 32 ==> (0xC0 + m) / 32 == 6 && (0xC0 + m) % 32 == m
    ensures 0 <= m < 16 ==> (0xE0 + m) / 16 == 14 && (0xE0 + m) % 16 == m
    ensures 0 <= m < 8 ==> (0xF0 + m) / 8 == 30 && (0xF0 + m) % 8 == m
  {
  }

  /** The bytes of one character: the first tells their number, and together they hold its bits. */
  lemma CharacterLayout(c: char)
    ensures var n, b := c as int, EncodeChar(c);
      if n < 0x80 then b == [n]
      else if n < 0x800 then |b| == 2 && InTwo(n, b[0], b[1])
      else if n < 0x1_0000 then |b| == 3 && InThree(n, b[0], b[1], b[2])
      else |b| == 4 && InFour(n, b[0], b[1], b[2], b[3])
  {
    var n := c as int;
    Bits(n);
    LaterBits(n % 64);
    LaterBits(n / 64 % 64);
    LaterBits(n / 4096 % 64);
    LeadBits(n / 64);
    LeadBits(n / 4096);
    LeadBits(n / 262144);
  }

  function CharBytes(): char -> Bytes { (c: char) => EncodeChar(c) }

  /** A string is the bytes of its characters, in order. */
  lemma {:induction false} Utf8Layout(s: string)
    ensures ToUtf8(s) == Joined(Map(s, CharBytes()))
  {
    if s != [] {
      Utf8Layout(s[1..]);
      assert Map(s, CharBytes())[1..] == Map(s[1..], CharBytes());
    }
  }

  function IsSupplementary(): char -> bool { (c: char) => c as int >= 0x1_0000 }

  /** The length that limits names and symbols: one for each character, two for one beyond 16 bits. */
  lemma {:induction false} Utf16Layout(s: string)
    ensures Utf16Length(s) == |s| + Count(s, IsSupplementary())
  {
    if s != [] {
      Utf16Layout(s[1..]);
    }
  }

  // ----- LEB128 -----

  /** Seven bits a byte, the lowest first, the top bit telling that more follow. */
  lemma {:induction false} Leb128Layout(v: int, signed: bool)
    requires signed || v >= 0
    ensures var b := Leb128.Encode(v, signed);
      forall k :: 0 <= k < |b| ==> b[k] == v / Leb128.Pow128(k) % 128 + if k < |b| - 1 then 128 else 0
    decreases Leb128.Magnitude(v)
  {
    var b := Leb128.Encode(v, signed);
    assert v / 1 == v;
    if !Leb128.IsLast(v, signed) {
      Leb128.MagnitudeFalls(v, signed);
      Leb128Layout(v / 128, signed);
      var more := Leb128.Encode(v / 128, signed);
      forall k | 0 < k < |b| ensures b[k] == v / Leb128.Pow128(k) % 128 + if k < |b| - 1 then 128 else 0 {
        assert b[k] == more[k - 1];
        QuotientOf128(v, Leb128.Pow128(k - 1));
      }
    }
  }

  lemma QuotientOf128(v: int, m: nat)
    requires m >= 1
    ensures v / 128 / m == v / (128 * m)
  {
    var q := v / 128 / m;
    var r := 128 * (v / 128 % m) + v % 128;
    assert v == 128 * (m * q + v / 128 % m) + v % 128;
    assert 128 * (m * q) == (128 * m) * q;
    assert v == (128 * m) * q + r && 0 <= r < 128 * m;
    QuotientIs(v, 128 * m, q, r);
  }

  lemma LastLeb(n: nat)
    requires n < 128
    ensures Leb128.Encode(n, false) == Single(n)
  {
  }

  lemma MoreLeb(n: nat)
    requires n >= 128
    ensures Leb128.Encode(n, false) == Single(128 + n % 128) + Leb128.Encode(n / 128, false)
  {
  }

  lemma OneAndOne(a: int, b: int)
    ensures Single(a) + Single(b) == Pair(a, b)
  {
  }

  lemma ShortLeb(n: nat)
    requires n < 0x4000
    ensures Leb128.Encode(n, false) == if n < 128 then Single(n) else Pair(128 + n % 128, n / 128)
  {
    if n < 128 {
      LastLeb(n);
    } else {
      MoreLeb(n);
      LastLeb(n / 128);
      OneAndOne(128 + n % 128, n / 128);
    }
  }

  /** A length below 2^14 takes one byte, or two; a longer one does not fit. */
  lemma ShortLebLayout(n: nat)
    ensures |Leb128.Encode(n, false)| <= 2 <==> n < 0x4000
    ensures n < 0x4000 ==> Leb128.Encode(n, false) == if n < 128 then Single(n) else Pair(128 + n % 128, n / 128)
  {
    if n < 0x4000 {
      ShortLeb(n);
    } else {
      MoreLeb(n);
      MoreLeb(n / 128);
    }
  }

  // ----- inputs, outputs, tokens -----

  function Single(v: int): Bytes { [v % 256] }

  function Pair(v: int, w: int): Bytes { [v % 256, w % 256] }

  function Four(v: int): Bytes { [v / 0x100_0000 % 256, v / 0x1_0000 % 256, v / 256 % 256, v % 256] }

  /** Two bytes of length, then the bytes. */
  function Sized(b: Bytes): Bytes { Pair(|b| / 256, |b|) + b }

  lemma SizedIs(b: Bytes)
    ensures Prefixed(2, b) == Sized(b)
  {
    BigEndian(|b|);
  }

  predicate ValueFits(value: int) { 0 < value <= 0x8000_0000_0000_0000 }

  lemma ValueIs(value: int)
    ensures OutputValueToBytes(value) == if ValueFits(value) then Ok(ValueLayout(value)) else Err(InvalidOutputValue)
  {
    if ValueFits(value) {
      ValueBytes(value);
    }
  }

  function InputWritable(): Input -> bool { (i: Input) => Hexadecimal(i.hash) }

  /** The spent transaction's id, the index, and the data with its length. To be signed, and where there
      is none, the data is left out and its length is 0. */
  function InputBytes(addData: bool): Input -> Bytes {
    (i: Input) => Spelt(i.hash) + Single(i.index) + if addData && i.data.Some? then Sized(i.data.value) else [0, 0]
  }

  lemma InputLayout(i: Input, addData: bool)
    ensures PrintInput(i, addData) == if Hexadecimal(i.hash) then Ok(InputBytes(addData)(i)) else Err(NotHexadecimal)
  {
    HexLayout(i.hash);
    OneByte(i.index);
    BigEndian(0);
    if i.data.Some? {
      SizedIs(i.data.value);
    }
  }

  function OutputWritable(): Output -> bool { (o: Output) => ValueFits(o.value) }

  /** Value, token data, and the script with its length. */
  function OutputBytes(): Output -> Bytes {
    (o: Output) => ValueLayout(o.value) + Single(o.tokenData) + Sized(o.script)
  }

  lemma OutputLayout(o: Output)
    ensures PrintOutput(o) == if ValueFits(o.value) then Ok(OutputBytes()(o)) else Err(InvalidOutputValue)
  {
    ValueIs(o.value);
    OneByte(o.tokenData);
    SizedIs(o.script);
  }

  function IsHex(): string -> bool { (h: string) => Hexadecimal(h) }

  function HashBytes(): string -> Bytes { (h: string) => Spelt(h) }

  lemma HashesLayout(hs: seq<string>)
    ensures PrintMany(HashPrinter(), hs).Ok? <==> forall h :: h in hs ==> Hexadecimal(h)
    ensures PrintMany(HashPrinter(), hs).Ok? ==> PrintMany(HashPrinter(), hs).value == Joined(Map(hs, HashBytes()))
  {
    forall h | h in hs ensures HashPrinter()(h) == if Hexadecimal(h) then Ok(HashBytes()(h)) else Err(NotHexadecimal) {
      HexLayout(h);
    }
    ManyLayout(HashPrinter(), IsHex(), HashBytes(), hs);
  }

  predicate TransfersWritable(inputs: seq<Input>, outputs: seq<Output>) {
    (forall i :: i in inputs ==> Hexadecimal(i.hash)) && (forall o :: o in outputs ==> ValueFits(o.value))
  }

  /** All inputs, then all outputs. */
  function TransferBytes(inputs: seq<Input>, outputs: seq<Output>, addData: bool): Bytes {
    Joined(Map(inputs, InputBytes(addData))) + Joined(Map(outputs, OutputBytes()))
  }

  lemma InputsLayout(inputs: seq<Input>, addData: bool)
    ensures PrintMany(InputPrinter(addData), inputs).Ok? <==> forall i :: i in inputs ==> Hexadecimal(i.hash)
    ensures PrintMany(InputPrinter(addData), inputs).Ok? ==>
      PrintMany(InputPrinter(addData), inputs).value == Joined(Map(inputs, InputBytes(addData)))
  {
    forall i | i in inputs
      ensures InputPrinter(addData)(i) == if Hexadecimal(i.hash) then Ok(InputBytes(addData)(i)) else Err(NotHexadecimal)
    {
      InputLayout(i, addData);
    }
    ManyLayout(InputPrinter(addData), InputWritable(), InputBytes(addData), inputs);
  }

  lemma OutputsLayout(outputs: seq<Output>)
    ensures PrintMany(OutputPrinter(), outputs).Ok? <==> forall o :: o in outputs ==> ValueFits(o.value)
    ensures PrintMany(OutputPrinter(), outputs).Ok? ==>
      PrintMany(OutputPrinter(), outputs).value == Joined(Map(outputs, OutputBytes()))
  {
    forall o | o in outputs
      ensures OutputPrinter()(o) == if ValueFits(o.value) then Ok(OutputBytes()(o)) else Err(InvalidOutputValue)
    {
      OutputLayout(o);
    }
    ManyLayout(OutputPrinter(), OutputWritable(), OutputBytes(), outputs);
  }

  lemma TransfersLayout(f: Funds, addData: bool)
    ensures PrintTransfers(f, addData).Ok? <==> TransfersWritable(f.inputs, f.outputs)
    ensures PrintTransfers(f, addData).Ok? ==> PrintTransfers(f, addData).value == TransferBytes(f.inputs, f.outputs, addData)
  {
    InputsLayout(f.inputs, addData);
    OutputsLayout(f.outputs);
  }

  predicate FundsWritable(f: Funds) {
    TransfersWritable(f.inputs, f.outputs) && forall t :: t in f.tokens ==> Hexadecimal(t)
  }

  function Five(a: int, b: int, c: int, d: int, e: int): Bytes { [a % 256, b % 256, c % 256, d % 256, e % 256] }

  /** Signal bits, version and three counts, a byte each; tokens, inputs, outputs. */
  function FundsBytes(f: Funds, addData: bool): Bytes {
    Five(f.signalBits, f.version, |f.tokens|, |f.inputs|, |f.outputs|)
    + Joined(Map(f.tokens, HashBytes())) + TransferBytes(f.inputs, f.outputs, addData)
  }

  lemma FundsLayout(f: Funds, addData: bool)
    ensures PrintFunds(f, addData).Ok? <==> FundsWritable(f)
    ensures PrintFunds(f, addData).Ok? ==> PrintFunds(f, addData).value == FundsBytes(f, addData)
  {
    HashesLayout(f.tokens);
    TransfersLayout(f, addData);
    FiveThen(f.signalBits, f.version, |f.tokens|, |f.inputs|, |f.outputs|, Joined(Map(f.tokens, HashBytes())),
             TransferBytes(f.inputs, f.outputs, addData));
  }

  lemma FiveThen(a: int, b: int, c: int, d: int, e: int, x: Bytes, y: Bytes)
    ensures ToBytes(a, 1) + (ToBytes(b, 1) + (ToBytes(c, 1) + (ToBytes(d, 1) + (ToBytes(e, 1) + (x + y))))) == Five(a, b, c, d, e) + x + y
  {
    OneByte(a);
    OneByte(b);
    OneByte(c);
    OneByte(d);
    OneByte(e);
  }

  // ----- graph -----

  predicate GraphWritable(g: Graph) { forall p :: p in g.parents ==> Hexadecimal(p) }

  /** Weight, timestamp (0 if unset), count of parents, parents, nonce. */
  function GraphBytes(g: Graph): Bytes {
    g.weight + Four(if g.timestamp.Some? then g.timestamp.value else 0) + Single(|g.parents|)
    + Joined(Map(g.parents, HashBytes())) + Four(g.nonce)
  }

  lemma GraphLayout(g: Graph)
    ensures PrintGraph(g).Ok? <==> GraphWritable(g)
    ensures PrintGraph(g).Ok? ==> PrintGraph(g).value == GraphBytes(g)
  {
    HashesLayout(g.parents);
    BigEndian(Timestamp(g));
    OneByte(|g.parents|);
    BigEndian(g.nonce);
    FiveParts(g.weight, Four(Timestamp(g)), Single(|g.parents|), Joined(Map(g.parents, HashBytes())), Four(g.nonce));
  }

  lemma FiveParts(a: Bytes, b: Bytes, c: Bytes, d: Bytes, e: Bytes)
    ensures a + (b + (c + (d + e))) == a + b + c + d + e
  {
  }

  // ----- headers -----

  function ActionWritable(): NanoAction -> bool { (a: NanoAction) => ValueFits(a.amount) }

  /** Kind, token index and amount. */
  function ActionBytes(): NanoAction -> Bytes {
    (a: NanoAction) => Single(a.kind) + Single(a.tokenIndex) + ValueLayout(a.amount)
  }

  lemma ActionsLayout(actions: seq<NanoAction>)
    ensures PrintMany(ActionPrinter(), actions).Ok? <==> forall a :: a in actions ==> ValueFits(a.amount)
    ensures PrintMany(ActionPrinter(), actions).Ok? ==> PrintMany(ActionPrinter(), actions).value == Joined(Map(actions, ActionBytes()))
  {
    forall a | a in actions
      ensures PrintAction(a) == if ValueFits(a.amount) then Ok(ActionBytes()(a)) else Err(InvalidOutputValue)
    {
      OneByte(a.kind);
      OneByte(a.tokenIndex);
      ValueIs(a.amount);
    }
    ManyLayout(ActionPrinter(), ActionWritable(), ActionBytes(), actions);
  }

  predicate NanoWritable(h: NanoHeader) {
    && Hexadecimal(h.id) && h.seqnum >= 0 && (forall a :: a in h.actions ==> ValueFits(a.amount))
    && (h.script.Some? ==> |h.script.value| < 0x4000)
  }

  /** A character each, in one byte. */
  function Characters(s: string): Bytes { seq(|s|, k requires 0 <= k < |s| => (s[k] as int % 256) as byte) }

  /** The script with its length in LEB128, which is 0 without script. */
  function ScriptBytes(script: Option<Bytes>): Bytes {
    if script.None? then [0]
    else (if |script.value| < 128 then Single(|script.value|) else Pair(128 + |script.value| % 128, |script.value| / 128)) + script.value
  }

  /** 0x10, contract or blueprint id, sequence number, method name, arguments, actions, the caller's
      address and its script; each list with its length before it. */
  function NanoBytes(h: NanoHeader): Bytes
    requires h.seqnum >= 0
  {
    [0x10] + Spelt(h.id) + Leb128.Encode(h.seqnum, false) + (Single(|h.method_|) + Characters(h.method_)) + Sized(h.args)
    + (Single(|h.actions|) + Joined(Map(h.actions, ActionBytes()))) + h.address + ScriptBytes(h.script)
  }

  lemma NanoLayout(h: NanoHeader)
    ensures PrintNano(h).Ok? <==> NanoWritable(h)
    ensures PrintNano(h).Ok? ==> PrintNano(h).value == NanoBytes(h)
  {
    HexLayout(h.id);
    ActionsLayout(h.actions);
    ScriptPart(h.script);
    if NanoWritable(h) {
      NamePart(h.method_);
      SizedIs(h.args);
      OneByte(|h.actions|);
      NineParts([0x10], Spelt(h.id), Leb128.Encode(h.seqnum, false), Single(|h.method_|) + Characters(h.method_), Sized(h.args),
                Single(|h.actions|), Joined(Map(h.actions, ActionBytes())), h.address, ScriptBytes(h.script));
    }
  }

  lemma NamePart(name: string)
    ensures Prefixed(1, ToAscii(name)) == Single(|name|) + Characters(name)
  {
    OneByte(|name|);
    assert ToAscii(name) == Characters(name);
  }

  lemma ScriptPart(script: Option<Bytes>)
    ensures PrintScript(script) == if script.Some? && |script.value| >= 0x4000 then Err(TooManyLebBytes) else Ok(ScriptBytes(script))
  {
    if script.Some? {
      ShortLebLayout(|script.value|);
    } else {
      ShortLebLayout(0);
      assert Single(0) == [0] && Single(0) + [] == [0];
    }
  }

  lemma NineParts(a: Bytes, b: Bytes, c: Bytes, d: Bytes, e: Bytes, f: Bytes, g: Bytes, h: Bytes, i: Bytes)
    ensures a + (b + (c + (d + (e + (f + (g + (h + i))))))) == a + b + c + d + e + (f + g) + h + i
  {
    var tail := g + (h + i);
    assert a + (b + (c + (d + (e + (f + tail))))) == a + b + c + d + e + (f + tail);
    assert a + b + c + d + e + (f + tail) == a + b + c + d + e + (f + g) + h + i;
  }

  /** An address is read from 25 bytes: the network's byte for key or script hashes, 20 bytes, and the four
      bytes of checksum of the 21 before them. */
  lemma AddressLayout(net: Network, b: Bytes)
    ensures ParseAddress(net, b) ==
      if |b| < 25 then Err(NotEnoughBytes)
      else if b[0] in {net.p2pkh, net.p2sh} && b[21..25] == net.checksum(b[..21]) then Ok((b[..25], b[25..]))
      else Err(InvalidAddressBytes)
  {
    if |b| >= 25 {
      assert b[..25][21..] == b[21..25] && b[..25][..21] == b[..21];
    }
  }

  function FeeWritable(): FeeEntry -> bool { (e: FeeEntry) => ValueFits(e.amount) }

  /** Token index and amount. */
  function FeeBytes(): FeeEntry -> Bytes { (e: FeeEntry) => Single(e.tokenIndex) + ValueLayout(e.amount) }

  lemma FeesLayout(fees: seq<FeeEntry>)
    ensures PrintFee(fees).Ok? <==> forall e :: e in fees ==> ValueFits(e.amount)
    ensures PrintFee(fees).Ok? ==> PrintFee(fees).value == Pair(0x11, |fees|) + Joined(Map(fees, FeeBytes()))
  {
    forall e | e in fees
      ensures PrintFeeEntry(e) == if ValueFits(e.amount) then Ok(FeeBytes()(e)) else Err(InvalidOutputValue)
    {
      OneByte(e.tokenIndex);
      ValueIs(e.amount);
    }
    ManyLayout(FeeEntryPrinter(), FeeWritable(), FeeBytes(), fees);
    TwoThen(0x11, |fees|, Joined(Map(fees, FeeBytes())));
  }

  lemma TwoThen(a: byte, n: int, x: Bytes)
    ensures [a] + (ToBytes(n, 1) + x) == Pair(a, n) + x
  {
    OneByte(n);
  }

  function ShieldedWritable(): ShieldedOutput -> bool {
    (o: ShieldedOutput) =>
      && |o.ephemeralPubkey| == 33 && (o.mode == 1 || o.mode == 2)
      && (o.mode == 1 ==> o.tokenData.Some?)
      && (o.mode == 2 ==> o.assetCommitment.Some? && o.surjectionProof.Some?)
  }

  function Present(b: Option<Bytes>): Bytes { if b.Some? then b.value else [] }

  /** Mode, commitment, range proof, script; then the token data of mode 1, or the asset commitment and
      surjection proof of mode 2; then the ephemeral key. */
  function ShieldedBytes(): ShieldedOutput -> Bytes {
    (o: ShieldedOutput) =>
      Single(o.mode) + o.commitment + Sized(o.rangeProof) + Sized(o.script)
      + (if o.mode == 1 then (if o.tokenData.Some? then Single(o.tokenData.value) else [])
         else Present(o.assetCommitment) + Sized(Present(o.surjectionProof)))
      + o.ephemeralPubkey
  }

  lemma ShieldedLayout(o: ShieldedOutput)
    ensures PrintShielded(o).Ok? <==> ShieldedWritable()(o)
    ensures PrintShielded(o).Ok? ==> PrintShielded(o).value == ShieldedBytes()(o)
  {
    OneByte(o.mode);
    SizedIs(o.rangeProof);
    SizedIs(o.script);
    if o.tokenData.Some? {
      OneByte(o.tokenData.value);
    }
    if o.surjectionProof.Some? {
      SizedIs(o.surjectionProof.value);
    }
  }

  lemma ShieldedListLayout(outputs: seq<ShieldedOutput>)
    ensures PrintShieldedHeader(outputs).Ok? <==> 1 <= |outputs| <= 32 && forall o :: o in outputs ==> ShieldedWritable()(o)
    ensures PrintShieldedHeader(outputs).Ok? ==>
      PrintShieldedHeader(outputs).value == Pair(0x12, |outputs|) + Joined(Map(outputs, ShieldedBytes()))
  {
    forall o | o in outputs
      ensures (PrintShielded(o).Ok? <==> ShieldedWritable()(o)) && (PrintShielded(o).Ok? ==> PrintShielded(o).value == ShieldedBytes()(o))
    {
      ShieldedLayout(o);
    }
    ManyLayout(ShieldedPrinter(), ShieldedWritable(), ShieldedBytes(), outputs);
    TwoThen(0x12, |outputs|, Joined(Map(outputs, ShieldedBytes())));
  }

  /** Between 1 and 16 entries of different tokens, each token by one of 16 indexes. */
  predicate SupplyWritable(entries: seq<SupplyEntry>) {
    && 1 <= |entries| <= 16
    && (forall e :: e in entries ==> 1 <= e.tokenIndex <= 16 && 1 <= e.amount < 0x1_0000_0000_0000_0000)
    && (forall i, j :: 0 <= i < j < |entries| ==> entries[i].tokenIndex != entries[j].tokenIndex)
  }

  function Always<T>(): T -> bool { (x: T) => true }

  /** Token index and the amount in eight bytes. */
  function SupplyBytes(): SupplyEntry -> Bytes { (e: SupplyEntry) => Single(e.tokenIndex) + EightOf(e.amount) }

  lemma EntriesLayout(entries: seq<SupplyEntry>)
    ensures PrintMany(EntryPrinter(), entries) == Ok(Joined(Map(entries, SupplyBytes())))
  {
    forall e | e in entries ensures EntryPrinter()(e) == Ok(SupplyBytes()(e)) {
      OneByte(e.tokenIndex);
      BigEndianEight(e.amount);
    }
    ManyLayout(EntryPrinter(), Always(), SupplyBytes(), entries);
  }

  lemma SupplyLayout(id: byte, entries: seq<SupplyEntry>)
    ensures PrintSupply(id, entries).Ok? <==> SupplyWritable(entries)
    ensures PrintSupply(id, entries).Ok? ==> PrintSupply(id, entries).value == Pair(id, |entries|) + Joined(Map(entries, SupplyBytes()))
  {
    ValidIsWritable(entries);
    EntriesLayout(entries);
    TwoDisplayed(id, |entries|, Joined(Map(entries, SupplyBytes())));
  }

  lemma TwoDisplayed(a: byte, n: int, x: Bytes)
    ensures 0 <= n < 256 ==> [a] + ([n] + x) == Pair(a, n) + x
  {
  }

  lemma ValidIsWritable(entries: seq<SupplyEntry>)
    ensures EntriesValid(entries) <==> SupplyWritable(entries)
  {
    if SupplyWritable(entries) {
      forall k | 0 <= k < |entries| ensures EntryValid(entries[k]) {
        assert entries[k] in entries;
      }
    }
  }

  function HeaderWritable(): Header -> bool {
    (h: Header) =>
      match h
      case Nano(nano) => NanoWritable(nano)
      case FeePayment(fees) => forall e :: e in fees ==> ValueFits(e.amount)
      case Shielded(outputs) => 1 <= |outputs| <= 32 && forall o :: o in outputs ==> ShieldedWritable()(o)
      case UnshieldBalance(_) => true
      case Mint(entries) => SupplyWritable(entries)
      case Melt(entries) => SupplyWritable(entries)
  }

  /** The id of the header, the count of its entries, the entries. */
  function HeaderBytes(): Header -> Bytes {
    (h: Header) =>
      match h
      case Nano(nano) => if nano.seqnum < 0 then [] else NanoBytes(nano)
      case FeePayment(fees) => Pair(0x11, |fees|) + Joined(Map(fees, FeeBytes()))
      case Shielded(outputs) => Pair(0x12, |outputs|) + Joined(Map(outputs, ShieldedBytes()))
      case UnshieldBalance(excess) => [0x13] + excess
      case Mint(entries) => Pair(0x14, |entries|) + Joined(Map(entries, SupplyBytes()))
      case Melt(entries) => Pair(0x15, |entries|) + Joined(Map(entries, SupplyBytes()))
  }

  /** Every header is written exactly when its fields fit, and with these bytes. */
  lemma HeaderLayout(h: Header)
    ensures PrintHeader(h).Ok? <==> HeaderWritable()(h)
    ensures PrintHeader(h).Ok? ==> PrintHeader(h).value == HeaderBytes()(h)
  {
    match h
    case Nano(nano) => NanoLayout(nano);
    case FeePayment(fees) => FeesLayout(fees);
    case Shielded(outputs) => ShieldedListLayout(outputs);
    case UnshieldBalance(_) =>
    case Mint(entries) => SupplyLayout(0x14, entries);
    case Melt(entries) => SupplyLayout(0x15, entries);
  }

  lemma HeadersLayout(headers: seq<Header>)
    ensures PrintMany(HeaderPrinter(), headers).Ok? <==> forall h :: h in headers ==> HeaderWritable()(h)
    ensures PrintMany(HeaderPrinter(), headers).Ok? ==> PrintMany(HeaderPrinter(), headers).value == Joined(Map(headers, HeaderBytes()))
  {
    forall h | h in headers
      ensures (PrintHeader(h).Ok? <==> HeaderWritable()(h)) && (PrintHeader(h).Ok? ==> PrintHeader(h).value == HeaderBytes()(h))
    {
      HeaderLayout(h);
    }
    ManyLayout(HeaderPrinter(), HeaderWritable(), HeaderBytes(), headers);
  }

  // ----- whole transactions -----

  predicate TxWritable(d: TxData) {
    FundsWritable(d.funds) && GraphWritable(d.graph) && forall h :: h in d.headers ==> HeaderWritable()(h)
  }

  /** Funds, graph, headers. */
  function TxBytes(d: TxData): Bytes {
    FundsBytes(d.funds, true) + (GraphBytes(d.graph) + Joined(Map(d.headers, HeaderBytes())))
  }

  /** A transaction is written exactly when its fields fit, and with these bytes. */
  lemma TransactionLayout(d: TxData)
    ensures PrintTx(d).Ok? <==> TxWritable(d)
    ensures PrintTx(d).Ok? ==> PrintTx(d).value == TxBytes(d)
  {
    FundsLayout(d.funds, true);
    GraphLayout(d.graph);
    HeadersLayout(d.headers);
  }

  /** A version, and a name and symbol of at most 30 and 5 UTF-16 units. */
  predicate InfoWritable(t: TokenInfo) {
    && t.version != 0 && t.name != "" && t.symbol != ""
    && Utf16Length(t.name) <= 30 && Utf16Length(t.symbol) <= 5
  }

  /** Version, then name and symbol, each after the number of its bytes. */
  function InfoBytes(t: TokenInfo): Bytes {
    Pair(t.version, |ToUtf8(t.name)|) + ToUtf8(t.name) + Single(|ToUtf8(t.symbol)|) + ToUtf8(t.symbol)
  }

  lemma TokenInfoLayout(t: TokenInfo)
    ensures PrintTokenInfo(t) == if InfoWritable(t) then Ok(InfoBytes(t)) else Err(InvalidTokenInfo)
  {
    OneByte(t.version);
    OneByte(|ToUtf8(t.name)|);
    OneByte(|ToUtf8(t.symbol)|);
    InfoParts(t.version, |ToUtf8(t.name)|, ToUtf8(t.name), |ToUtf8(t.symbol)|, ToUtf8(t.symbol));
  }

  lemma InfoParts(v: int, n: int, name: Bytes, k: int, symbol: Bytes)
    ensures Single(v) + ((Single(n) + name) + (Single(k) + symbol)) == Pair(v, n) + name + Single(k) + symbol
  {
  }

  predicate CreateTokenWritable(d: CreateTokenData) {
    && TransfersWritable(d.funds.inputs, d.funds.outputs) && InfoWritable(d.info) && GraphWritable(d.graph)
    && forall h :: h in d.headers ==> HeaderWritable()(h)
  }

  function CreateFundsBytes(f: Funds, info: TokenInfo, addData: bool): Bytes {
    Pair(f.signalBits, f.version) + Pair(|f.inputs|, |f.outputs|) + TransferBytes(f.inputs, f.outputs, addData) + InfoBytes(info)
  }

  lemma CreateFundsLayout(f: Funds, info: TokenInfo, addData: bool)
    ensures PrintCreateFunds(f, info, addData).Ok? <==> TransfersWritable(f.inputs, f.outputs) && InfoWritable(info)
    ensures PrintCreateFunds(f, info, addData).Ok? ==> PrintCreateFunds(f, info, addData).value == CreateFundsBytes(f, info, addData)
  {
    TransfersLayout(f, addData);
    TokenInfoLayout(info);
    FourThen(f.signalBits, f.version, |f.inputs|, |f.outputs|, TransferBytes(f.inputs, f.outputs, addData), InfoBytes(info));
  }

  lemma FourThen(a: int, b: int, c: int, d: int, x: Bytes, y: Bytes)
    ensures ToBytes(a, 1) + (ToBytes(b, 1) + (ToBytes(c, 1) + (ToBytes(d, 1) + (x + y)))) == Pair(a, b) + Pair(c, d) + x + y
  {
    OneByte(a);
    OneByte(b);
    OneByte(c);
    OneByte(d);
  }

  /** Signal bits, version and two counts; inputs, outputs, token information; graph, headers. */
  function CreateTokenBytes(d: CreateTokenData): Bytes {
    CreateFundsBytes(d.funds, d.info, true) + (GraphBytes(d.graph) + Joined(Map(d.headers, HeaderBytes())))
  }

  /** A token creation is written exactly when its fields fit, and with these bytes. */
  lemma CreateTokenLayout(d: CreateTokenData)
    ensures PrintCreateToken(d).Ok? <==> CreateTokenWritable(d)
    ensures PrintCreateToken(d).Ok? ==> PrintCreateToken(d).value == CreateTokenBytes(d)
  {
    CreateFundsLayout(d.funds, d.info, true);
    GraphLayout(d.graph);
    HeadersLayout(d.headers);
  }
}
