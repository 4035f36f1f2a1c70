/** Bytes, big-endian integers and the unpacking primitives of src/utils/buffer.ts. */
module Bytes {
  import opened Wrappers

  type byte = x: int | 0 <= x < 256

  type Bytes = seq<byte>

  datatype CodecError =
    | NotEnoughBytes
    | InvalidOutputValue
    | NotHexadecimal
    | NegativeUnsigned
    | TooManyLebBytes
    | InvalidLeb
    | SizeExceedsMaximum
    | MissingShieldedField
    | UnsupportedMode
    | InvalidPubkeySize
    | InvalidHeaderId
    | InvalidEntryCount
    | InvalidEntry
    | InvalidExcessSize
    | InvalidAddressBytes
    | InvalidTokenInfo

  type Parsed<T> = Result<(T, Bytes), CodecError>

  function Pow256(n: nat): (r: nat)
    ensures r >= 1
  {
    if n == 0 then 1 else 256 * Pow256(n - 1)
  }

  lemma Powers()
    ensures Pow256(1) == 0x100 && Pow256(2) == 0x1_0000 && Pow256(4) == 0x1_0000_0000
    ensures Pow256(8) == 0x1_0000_0000_0000_0000
  {
    assert Pow256(2) == 256 * Pow256(1);
    assert Pow256(3) == 256 * Pow256(2);
    assert Pow256(4) == 256 * Pow256(3);
    assert Pow256(5) == 256 * Pow256(4);
    assert Pow256(6) == 256 * Pow256(5);
    assert Pow256(7) == 256 * Pow256(6);
    assert Pow256(8) == 256 * Pow256(7);
  }

  /** The `width` low-order bytes of an integer, most significant first; a `DataView` drops the rest
      and writes negative numbers in two's complement, which is what flooring division yields. */
  function ToBytes(value: int, width: nat): (r: Bytes)
    ensures |r| == width
    decreases width
  {
    if width == 0 then [] else ToBytes(value / 256, width - 1) + [value % 256]
  }

  function FromBytes(b: Bytes): (r: nat)
    ensures r < Pow256(|b|)
  {
    if b == [] then 0 else 256 * FromBytes(b[..|b| - 1]) + b[|b| - 1]
  }

  /** Two's complement reading. */
  function FromSignedBytes(b: Bytes): int {
    var u := FromBytes(b);
    if 2 * u >= Pow256(|b|) then u - Pow256(|b|) else u
  }

  lemma DivideByPow(value: int, m: nat)
    requires m >= 1
    ensures 256 * ((value / 256) % m) + value % 256 == value % (256 * m)
  {
    var q, r := value / 256, value % 256;
    var q', r' := q / m, q % m;
    assert value == 256 * q + r && q == m * q' + r';
    assert value == (256 * m) * q' + (256 * r' + r) by {
      assert 256 * (m * q') == (256 * m) * q';
    }
    assert 0 <= 256 * r' + r < 256 * m;
    RemainderIs(value, 256 * m, q', 256 * r' + r);
  }

  lemma MultipleIsFar(m: int, d: int)
    requires m >= 0
    ensures d >= 1 ==> m * d >= m
    ensures d <= -1 ==> m * d <= -m
  {
  }

  lemma RemainderIs(value: int, m: nat, q: int, r: int)
    requires m >= 1 && value == m * q + r && 0 <= r < m
    ensures value % m == r
  {
    var d := value / m - q;
    assert value == m * (value / m) + value % m;
    assert m * (value / m - q) == r - value % m by {
      assert m * (value / m) - m * q == m * (value / m - q);
    }
    MultipleIsFar(m, d);
  }

  /** Reading back an integer gives its residue: integers that fit their width survive, others wrap. */
  lemma {:induction false} IntRoundTrip(value: int, width: nat)
    ensures FromBytes(ToBytes(value, width)) == value % Pow256(width)
    decreases width
  {
    if width > 0 {
      IntRoundTrip(value / 256, width - 1);
      DivideByPow(value, Pow256(width - 1));
      var b := ToBytes(value, width);
      assert b[..|b| - 1] == ToBytes(value / 256, width - 1);
    }
  }

  /** And bytes survive being read as an integer. */
  lemma {:induction false} BytesRoundTrip(b: Bytes)
    ensures ToBytes(FromBytes(b), |b|) == b
  {
    if b != [] {
      BytesRoundTrip(b[..|b| - 1]);
      assert FromBytes(b) / 256 == FromBytes(b[..|b| - 1]);
      assert b == b[..|b| - 1] + [b[|b| - 1]];
    }
  }

  lemma SignedRoundTrip(value: int, width: nat)
    requires width > 0 && -(Pow256(width) / 2) <= value < Pow256(width) / 2
    ensures FromSignedBytes(ToBytes(value, width)) == value
  {
    IntRoundTrip(value, width);
    assert Pow256(width) == 256 * Pow256(width - 1);
    if value < 0 {
      RemainderIs(value, Pow256(width), -1, value + Pow256(width));
    } else {
      RemainderIs(value, Pow256(width), 0, value);
    }
  }

  // ----- unpacking -----

  /** `unpackLen` */
  function UnpackLen(n: nat, b: Bytes): Parsed<Bytes> {
    if |b| < n then Err(NotEnoughBytes) else Ok((b[..n], b[n..]))
  }

  /** `unpackToInt` for the widths it accepts, unsigned. */
  function UnpackInt(n: nat, b: Bytes): Parsed<nat> {
    if |b| < n then Err(NotEnoughBytes) else Ok((FromBytes(b[..n]), b[n..]))
  }

  lemma UnpackLenBack(x: Bytes, rest: Bytes)
    ensures UnpackLen(|x|, x + rest) == Ok((x, rest))
  {
    assert (x + rest)[..|x|] == x && (x + rest)[|x|..] == rest;
  }

  lemma UnpackIntBack(value: int, n: nat, rest: Bytes)
    ensures UnpackInt(n, ToBytes(value, n) + rest) == Ok((value % Pow256(n) as nat, rest))
  {
    var x := ToBytes(value, n);
    assert (x + rest)[..|x|] == x && (x + rest)[|x|..] == rest;
    IntRoundTrip(value, n);
  }

  /** Length-prefixed bytes: the length in `n` bytes, then the bytes. */
  function Prefixed(n: nat, x: Bytes): Bytes { ToBytes(|x|, n) + x }

  function UnpackPrefixed(n: nat, b: Bytes): Parsed<Bytes> {
    var len :- UnpackInt(n, b);
    UnpackLen(len.0, len.1)
  }

  lemma PrefixedBack(n: nat, x: Bytes, rest: Bytes)
    requires |x| < Pow256(n)
    ensures UnpackPrefixed(n, Prefixed(n, x) + rest) == Ok((x, rest))
  {
    assert Prefixed(n, x) + rest == ToBytes(|x|, n) + (x + rest);
    UnpackIntBack(|x|, n, x + rest);
    RemainderIs(|x|, Pow256(n), 0, |x|);
    UnpackLenBack(x, rest);
  }

  // ----- output values -----

  const MAX_OUTPUT_VALUE_32: int := 0x7fff_ffff
  const MAX_OUTPUT_VALUE: int := 0x8000_0000_0000_0000

  /** `outputValueToBytes`: four bytes up to 2^31-1, else eight bytes of the negated value. */
  function OutputValueToBytes(value: int): Result<Bytes, CodecError> {
    if value <= 0 || value > MAX_OUTPUT_VALUE then Err(InvalidOutputValue)
    else if value > MAX_OUTPUT_VALUE_32 then Ok(ToBytes(-value, 8))
    else Ok(ToBytes(value, 4))
  }

  /** `bytesToOutputValue`: the sign of the first byte tells the width. */
  function BytesToOutputValue(b: Bytes): Parsed<int> {
    if |b| < 1 then Err(NotEnoughBytes)
    else if b[0] >= 128 then
      if |b| < 8 then Err(NotEnoughBytes) else Ok((-FromSignedBytes(b[..8]), b[8..]))
    else
      if |b| < 4 then Err(NotEnoughBytes) else Ok((FromSignedBytes(b[..4]), b[4..]))
  }

  lemma {:induction false} TopByte(b: Bytes)
    requires |b| >= 1
    ensures b[0] * Pow256(|b| - 1) <= FromBytes(b) < (b[0] + 1) * Pow256(|b| - 1)
  {
    if |b| > 1 {
      var n := |b| - 1;
      TopByte(b[..n]);
      assert b[..n][0] == b[0];
      ScaleUp(b[0], Pow256(n - 1), FromBytes(b[..n]), b[n]);
    }
  }

  lemma ScaleUp(top: int, p: int, u: int, low: int)
    requires top * p <= u < (top + 1) * p && 0 <= low < 256
    ensures top * (256 * p) <= 256 * u + low < (top + 1) * (256 * p)
  {
    assert top * (256 * p) == 256 * (top * p);
    assert (top + 1) * (256 * p) == 256 * ((top + 1) * p);
  }

  lemma ScaleBounds(top: int, p: int)
    requires p >= 0
    ensures top >= 128 ==> top * p >= 128 * p
    ensures top < 128 ==> (top + 1) * p <= 128 * p
  {
    if top >= 128 {
      assert (top - 128) * p >= 0;
    } else {
      assert (127 - top) * p >= 0;
    }
  }

  /** The first byte of a signed integer is 128 or more exactly when it is negative. */
  lemma SignIsTopBit(b: Bytes)
    requires |b| >= 1
    ensures FromSignedBytes(b) < 0 <==> b[0] >= 128
  {
    TopByte(b);
    var p: int, top: int := Pow256(|b| - 1), b[0];
    ScaleBounds(top, p);
    assert Pow256(|b|) == 256 * p;
  }

  /** Every value the printer accepts is read back, whatever its width. */
  lemma OutputValueRoundTrip(value: int, rest: Bytes)
    requires OutputValueToBytes(value).Ok?
    ensures BytesToOutputValue(OutputValueToBytes(value).value + rest) == Ok((value, rest))
  {
    Powers();
    var x := OutputValueToBytes(value).value;
    assert (x + rest)[..|x|] == x && (x + rest)[|x|..] == rest && (x + rest)[0] == x[0];
    SignedRoundTrip(if |x| == 8 then -value else value, |x|);
    SignIsTopBit(x);
  }

  /** What is read is never negative, and within the printer's range unless it is zero. */
  lemma OutputValueInRange(b: Bytes)
    requires BytesToOutputValue(b).Ok?
    ensures 0 <= BytesToOutputValue(b).value.0 <= MAX_OUTPUT_VALUE
    ensures |BytesToOutputValue(b).value.1| < |b|
  {
    Powers();
    if b[0] >= 128 {
      SignIsTopBit(b[..8]);
    } else {
      SignIsTopBit(b[..4]);
    }
  }
}
