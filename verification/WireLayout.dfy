/** Where the bytes go: absolute statements about the wire, beside the round trips. The examples are
    those of __tests__/models/output.test.ts, __tests__/utils/leb128.test.ts and
    __tests__/headers/fee.test.ts. */
module WireLayout {
  import opened Wrappers
  import opened Bytes
  import opened Wire
  import opened HeaderWire
  import opened TransactionWire
  import Leb128

  lemma DivideTwice(value: int)
    ensures value / 256 / 256 == value / 0x1_0000
    ensures value / 256 / 256 / 256 == value / 0x100_0000
  {
  }

  lemma OneByte(value: int)
    ensures ToBytes(value, 1) == [value % 256]
  {
    BigEndian(value);
  }

  /** Two and four bytes, most significant first. */
  lemma BigEndian(value: int)
    ensures ToBytes(value, 1) == [value % 256]
    ensures ToBytes(value, 2) == [value / 256 % 256, value % 256]
    ensures ToBytes(value, 4) == [value / 0x100_0000 % 256, value / 0x1_0000 % 256, value / 256 % 256, value % 256]
  {
    DivideTwice(value);
    assert ToBytes(value, 0) == [] && ToBytes(value / 256, 0) == [] && ToBytes(value / 256 / 256 / 256, 0) == [];
    assert ToBytes(value / 256 / 256 / 256, 1) == [value / 256 / 256 / 256 % 256];
    assert ToBytes(value / 256 / 256, 2) == [value / 256 / 256 / 256 % 256, value / 256 / 256 % 256];
    assert ToBytes(value / 256, 3) == [value / 256 / 256 / 256 % 256, value / 256 / 256 % 256, value / 256 % 256];
  }

  lemma {:induction false} Halves(value: int, high: nat, low: nat)
    ensures ToBytes(value, high + low) == ToBytes(value / Pow256(low), high) + ToBytes(value, low)
    decreases low
  {
    if low == 0 {
      assert value / 1 == value;
      assert ToBytes(value, high) + [] == ToBytes(value, high);
    } else {
      Halves(value / 256, high, low - 1);
      QuotientOfQuotient(value, Pow256(low - 1));
    }
  }

  lemma QuotientOfQuotient(value: int, m: nat)
    requires m >= 1
    ensures value / 256 / m == value / (256 * m)
  {
    var q := value / 256 / m;
    var r := 256 * (value / 256 % m) + value % 256;
    assert value == 256 * (m * q + value / 256 % m) + value % 256;
    assert 256 * (m * q) == (256 * m) * q;
    assert value == (256 * m) * q + r && 0 <= r < 256 * m;
    QuotientIs(value, 256 * m, q, r);
  }

  lemma QuotientIs(value: int, m: nat, q: int, r: int)
    requires m >= 1 && value == m * q + r && 0 <= r < m
    ensures value / m == q
  {
    RemainderIs(value, m, q, r);
    assert m * (value / m) == m * q;
    assert m * (value / m - q) == 0;
    MultipleIsFar(m, value / m - q);
  }

  lemma EightBytes(value: int)
    ensures ToBytes(value, 8) == ToBytes(value / 0x1_0000_0000, 4) + ToBytes(value, 4)
  {
    Powers();
    Halves(value, 4, 4);
  }

  /** The largest value in four bytes, the smallest in eight, and the largest of all. */
  lemma OutputValueExamples()
    ensures OutputValueToBytes(0x7fff_ffff) == Ok([0x7f, 0xff, 0xff, 0xff])
    ensures OutputValueToBytes(0x8000_0000) == Ok([0xff, 0xff, 0xff, 0xff, 0x80, 0, 0, 0])
    ensures OutputValueToBytes(0x8000_0000_0000_0000) == Ok([0x80, 0, 0, 0, 0, 0, 0, 0])
    ensures OutputValueToBytes(0x8000_0000_0000_0001) == Err(InvalidOutputValue) == OutputValueToBytes(0)
  {
    BigEndian(0x7fff_ffff);
    SmallestEight();
    LargestEight();
  }

  lemma SmallestEight()
    ensures ToBytes(-0x8000_0000, 8) == [0xff, 0xff, 0xff, 0xff, 0x80, 0, 0, 0]
  {
    EightBytes(-0x8000_0000);
    BigEndian(-0x8000_0000);
    BigEndian(-1);
    assert -0x8000_0000 / 0x1_0000_0000 == -1;
    EightInOne(0xff, 0xff, 0xff, 0xff, 0x80, 0, 0, 0);
  }

  lemma LargestEight()
    ensures ToBytes(-0x8000_0000_0000_0000, 8) == [0x80, 0, 0, 0, 0, 0, 0, 0]
  {
    EightBytes(-0x8000_0000_0000_0000);
    ZeroBytes(-0x8000_0000);
    BigEndian(-0x8000_0000);
    assert -0x8000_0000 * 0x1_0000_0000 == -0x8000_0000_0000_0000;
    EightInOne(0x80, 0, 0, 0, 0, 0, 0, 0);
  }

  lemma ShiftByte(value: int, width: nat)
    ensures ToBytes(256 * value, width + 1) == ToBytes(value, width) + [0]
  {
    assert 256 * value / 256 == value && 256 * value % 256 == 0;
  }

  lemma ZeroBytes(high: int)
    ensures ToBytes(high * 0x1_0000_0000, 4) == [0, 0, 0, 0]
    ensures high * 0x1_0000_0000 / 0x1_0000_0000 == high
  {
    ShiftByte(high, 0);
    ShiftByte(256 * high, 1);
    ShiftByte(256 * (256 * high), 2);
    ShiftByte(256 * (256 * (256 * high)), 3);
    assert 256 * (256 * (256 * (256 * high))) == high * 0x1_0000_0000;
  }

  /** The examples of the full node's documentation. */
  lemma Leb128Examples()
    ensures Leb128.Encode(624485, true) == [0xe5, 0x8e, 0x26]
    ensures Leb128.Encode(-123456, true) == [0xc0, 0xbb, 0x78]
    ensures Leb128.Encode(128, false) == [0x80, 0x01]
  {
    assert Leb128.Encode(38, true) == [0x26];
    assert Leb128.Encode(4878, true) == [0x8e] + [0x26];
    assert Leb128.Encode(-8, true) == [0x78];
    assert Leb128.Encode(-965, true) == [0xbb] + [0x78];
    assert Leb128.Encode(1, false) == [0x01];
  }

  /** Every header starts with the id of its kind. */
  lemma HeaderStartsWithItsId(h: Header)
    requires PrintHeader(h).Ok?
    ensures |PrintHeader(h).value| > 0
    ensures PrintHeader(h).value[0] ==
      match h
      case Nano(_) => 0x10
      case FeePayment(_) => 0x11
      case Shielded(_) => 0x12
      case UnshieldBalance(_) => 0x13
      case Mint(_) => 0x14
      case Melt(_) => 0x15
  {
    if h.Nano? {
      NanoSplit(h.nano, []);
    }
  }

  lemma PrintOne<T(!new)>(f: T -> Printed, x: T)
    requires f(x).Ok?
    ensures PrintMany(f, [x]) == Ok(f(x).value)
  {
    assert [x][1..] == [] && f(x).value + [] == f(x).value;
  }

  /** A fee of 100 HTR units. */
  lemma FeeHeaderExample()
    ensures PrintHeader(FeePayment([FeeEntry(0, 100)])) == Ok([0x11, 1, 0, 0, 0, 0, 100])
  {
    BigEndian(0);
    BigEndian(1);
    BigEndian(100);
    PrintOne(FeeEntryPrinter(), FeeEntry(0, 100));
    assert [0] + [0, 0, 0, 100] == [0, 0, 0, 0, 100];
    assert PrintFeeEntry(FeeEntry(0, 100)) == Ok([0] + [0, 0, 0, 100]);
    assert [0x11] + ([1] + [0, 0, 0, 0, 100]) == [0x11, 1, 0, 0, 0, 0, 100];
  }

  /** Minting 256 units of the first custom token: the amount is eight bytes, most significant first. */
  lemma MintHeaderExample()
    ensures PrintHeader(Mint([SupplyEntry(1, 256)])) == Ok([0x14, 1, 1, 0, 0, 0, 0, 0, 0, 1, 0])
  {
    BigEndian(0);
    BigEndian(1);
    BigEndian(256);
    EightBytes(256);
    PrintOne(EntryPrinter(), SupplyEntry(1, 256));
    assert EntryBytes(SupplyEntry(1, 256)) == [1, 0, 0, 0, 0, 0, 0, 1, 0];
    assert [0x14] + ([1] + [1, 0, 0, 0, 0, 0, 0, 1, 0]) == [0x14, 1, 1, 0, 0, 0, 0, 0, 0, 1, 0];
  }

  lemma BigEndianEight(value: int)
    ensures ToBytes(value, 8) == EightOf(value)
  {
    var high := value / 0x1_0000_0000;
    EightBytes(value);
    BigEndian(high);
    BigEndian(value);
    HighBytes(value);
    EightInOne(high / 0x100_0000 % 256, high / 0x1_0000 % 256, high / 256 % 256, high % 256,
               value / 0x100_0000 % 256, value / 0x1_0000 % 256, value / 256 % 256, value % 256);
  }

  lemma HighBytes(value: int)
    ensures var high := value / 0x1_0000_0000;
      && high / 256 == value / 0x100_0000_0000 && high / 0x1_0000 == value / 0x1_0000_0000_0000
      && high / 0x100_0000 == value / 0x100_0000_0000_0000
  {
  }

  lemma EightInOne(a: byte, b: byte, c: byte, d: byte, e: byte, f: byte, g: byte, h: byte)
    ensures [a, b, c, d] + [e, f, g, h] == [a, b, c, d, e, f, g, h]
  {
  }

  /** Eight bytes, most significant first; of a negative number, its two's complement. */
  function EightOf(value: int): Bytes {
    [value / 0x100_0000_0000_0000 % 256, value / 0x1_0000_0000_0000 % 256, value / 0x100_0000_0000 % 256, value / 0x1_0000_0000 % 256,
     value / 0x100_0000 % 256, value / 0x1_0000 % 256, value / 256 % 256, value % 256]
  }

  /** The bytes of an output value: four for a small one, else the eight of the negated value. */
  function ValueLayout(value: int): Bytes {
    if value <= 0x7fff_ffff then [value / 0x100_0000 % 256, value / 0x1_0000 % 256, value / 256 % 256, value % 256]
    else EightOf(-value)
  }

  lemma ValueBytes(value: int)
    requires 0 < value <= MAX_OUTPUT_VALUE
    ensures OutputValueToBytes(value) == Ok(ValueLayout(value))
  {
    if value <= 0x7fff_ffff {
      BigEndian(value);
    } else {
      BigEndianEight(-value);
    }
  }

  lemma ScriptLayout(script: Bytes)
    requires |script| < 0x1_0000
    ensures Prefixed(2, script) == [|script| / 256, |script| % 256] + script
  {
    BigEndian(|script|);
  }

  predicate StartsWith(b: Bytes, f: Funds) {
    |b| >= 5 && StartsFive(b, f.signalBits, f.version, |f.tokens|, |f.inputs|, |f.outputs|)
  }

  predicate StartsFive(b: Bytes, v0: int, v1: int, v2: int, v3: int, v4: int)
    requires |b| >= 5
  {
    b[0] == v0 % 256 && b[1] == v1 % 256 && b[2] == v2 % 256 && b[3] == v3 % 256 && b[4] == v4 % 256
  }

  /** The fixed beginning of a transaction, a byte each: signal bits, version and the three counts. */
  lemma TransactionStartsWithCounts(d: TxData)
    requires PrintTx(d).Ok?
    ensures StartsWith(PrintTx(d).value, d.funds)
  {
    FundsStart(d.funds);
    SameStart(PrintFunds(d.funds, true).value, PrintGraph(d.graph).value + PrintMany(HeaderPrinter(), d.headers).value, d.funds);
  }

  lemma SameStart(x: Bytes, y: Bytes, f: Funds)
    requires StartsWith(x, f)
    ensures StartsWith(x + y, f)
  {
  }

  lemma FundsStart(f: Funds)
    requires PrintFunds(f, true).Ok?
    ensures StartsWith(PrintFunds(f, true).value, f)
  {
    FiveFirst(f.signalBits, f.version, |f.tokens|, |f.inputs|, |f.outputs|,
              PrintMany(HashPrinter(), f.tokens).value + PrintTransfers(f, true).value);
  }

  lemma FiveFirst(v0: int, v1: int, v2: int, v3: int, v4: int, more: Bytes)
    ensures var b := ToBytes(v0, 1) + (ToBytes(v1, 1) + (ToBytes(v2, 1) + (ToBytes(v3, 1) + (ToBytes(v4, 1) + more))));
      |b| >= 5 && StartsFive(b, v0, v1, v2, v3, v4)
  {
    OneByte(v0);
    OneByte(v1);
    OneByte(v2);
    OneByte(v3);
    OneByte(v4);
    FiveBytes([v0 % 256], [v1 % 256], [v2 % 256], [v3 % 256], [v4 % 256], more);
  }

  lemma FiveBytes(a: Bytes, b: Bytes, c: Bytes, d: Bytes, e: Bytes, more: Bytes)
    requires |a| == |b| == |c| == |d| == |e| == 1
    ensures var all := a + (b + (c + (d + (e + more))));
      |all| >= 5 && all[0] == a[0] && all[1] == b[0] && all[2] == c[0] && all[3] == d[0] && all[4] == e[0]
  {
  }
}
