/** LEB128 integers (section 7.6 of DWARF 5), as src/utils/leb128.ts encodes and decodes them. */
module Leb128 {
  import opened Wrappers
  import opened Bytes

  /** How far an integer is from the value its encoding ends at. */
  function Magnitude(v: int): nat { if v >= 0 then v else -v - 1 }

  /** After the low seven bits, nothing but the sign is left. */
  predicate IsLast(v: int, signed: bool) {
    if signed then (v / 128 == 0 && v % 128 < 64) || (v / 128 == -1 && v % 128 >= 64) else v / 128 == 0
  }

  lemma MagnitudeFalls(v: int, signed: bool)
    requires (signed || v >= 0) && !IsLast(v, signed)
    ensures Magnitude(v / 128) < Magnitude(v)
  {
    assert v == 128 * (v / 128) + v % 128;
  }

  function Encode(v: int, signed: bool): (b: Bytes)
    requires signed || v >= 0
    ensures |b| >= 1
    decreases Magnitude(v)
  {
    if IsLast(v, signed) then [v % 128]
    else
      MagnitudeFalls(v, signed);
      [v % 128 + 128] + Encode(v / 128, signed)
  }

  /** Decoding reads up to and including the first byte without the continuation bit, and at most
      `max` bytes. */
  function Decode(b: Bytes, signed: bool, max: Option<nat>): Parsed<int> {
    if b == [] then Err(InvalidLeb)
    else if max == Some(0) then Err(TooManyLebBytes)
    else if b[0] < 128 then Ok((if signed && b[0] >= 64 then b[0] - 128 as int else b[0], b[1..]))
    else
      var more :- Decode(b[1..], signed, if max.Some? then Some(max.value - 1) else None);
      Ok((128 * more.0 + b[0] % 128, more.1))
  }

  predicate Within(n: nat, max: Option<nat>) { max.Some? ==> n <= max.value }

  /** One more byte of an encoding. */
  lemma EncodeStep(done: Bytes, v: int, signed: bool)
    requires (signed || v >= 0) && !IsLast(v, signed)
    ensures done + Encode(v, signed) == (done + [v % 128 + 128]) + Encode(v / 128, signed)
    ensures |done + Encode(v, signed)| > |done| + 1
  {
    var more := Encode(v / 128, signed);
    assert Encode(v, signed) == [v % 128 + 128] + more;
    assert done + ([v % 128 + 128] + more) == (done + [v % 128 + 128]) + more;
  }

  /** `encodeLeb128` */
  method EncodeLeb128(value: int, signed: bool, maxBytes: Option<nat>) returns (r: Result<Bytes, CodecError>)
    ensures r.Ok? <==> (signed || value >= 0) && Within(|Encode(value, signed)|, maxBytes)
    ensures r.Ok? ==> r.value == Encode(value, signed)
  {
    if !signed && value < 0 {
      return Err(NegativeUnsigned);
    }
    var val := value;
    var result: Bytes := [];
    while !IsLast(val, signed)
      invariant signed || val >= 0
      invariant result + Encode(val, signed) == Encode(value, signed)
      invariant Within(|result|, maxBytes)
      decreases Magnitude(val)
    {
      MagnitudeFalls(val, signed);
      EncodeStep(result, val, signed);
      result := result + [val % 128 + 128];
      val := val / 128;
      if maxBytes.Some? && |result| > maxBytes.value {
        return Err(TooManyLebBytes);
      }
    }
    result := result + [val % 128];
    if maxBytes.Some? && |result| > maxBytes.value {
      return Err(TooManyLebBytes);
    }
    r := Ok(result);
  }

  /** The value read so far, continued by what the rest of the buffer holds. */
  function Continued(low: int, scale: int, more: Parsed<int>): Parsed<int> {
    match more
    case Ok((v, rest)) => Ok((low + scale * v, rest))
    case Err(e) => Err(e)
  }

  /** `decodeLeb128`; `scale` is 2 to the source's `shift`. */
  method DecodeLeb128(buf: Bytes, signed: bool, maxBytes: Option<nat>) returns (r: Parsed<int>)
    ensures r == Decode(buf, signed, maxBytes)
  {
    var result: int, scale: int, read: nat := 0, 1, 0;
    assert buf[0..] == buf;
    while true
      invariant read <= |buf| && Within(read, maxBytes)
      invariant Continued(result, scale, Decode(buf[read..], signed, Left(maxBytes, read))) == Decode(buf, signed, maxBytes)
      decreases |buf| - read
    {
      if read == |buf| {
        return Err(InvalidLeb);
      }
      if maxBytes.Some? && read + 1 > maxBytes.value {
        return Err(TooManyLebBytes);
      }
      var byte := buf[read];
      DecodeStep(buf, signed, maxBytes, read);
      var next: int, nextScale: int := result + scale * (byte % 128), scale * 128;
      if byte < 128 {
        LastByte(result, scale, byte, signed, buf[read + 1..]);
        return Ok((if signed && byte >= 64 then next - nextScale else next, buf[read + 1..]));
      }
      ScaleStep(result, scale, byte, Decode(buf[read + 1..], signed, Left(maxBytes, read + 1)));
      result, scale, read := next, nextScale, read + 1;
    }
  }

  lemma LastByte(low: int, scale: int, byte: byte, signed: bool, rest: Bytes)
    requires byte < 128
    ensures var next := low + scale * (byte % 128);
      Continued(low, scale, Ok((if signed && byte >= 64 then byte - 128 as int else byte, rest)))
      == Ok((if signed && byte >= 64 then next - scale * 128 else next, rest))
  {
    assert byte % 128 == byte;
    assert scale * (byte - 128 as int) == scale * byte - scale * 128;
  }

  /** How many more bytes may be read. */
  function Left(max: Option<nat>, read: nat): Option<nat>
    requires Within(read, max)
  {
    if max.Some? then Some(max.value - read) else None
  }

  lemma DecodeStep(buf: Bytes, signed: bool, max: Option<nat>, read: nat)
    requires read < |buf| && Within(read + 1, max)
    ensures Decode(buf[read..], signed, Left(max, read))
         == if buf[read] < 128 then Ok((if signed && buf[read] >= 64 then buf[read] - 128 as int else buf[read], buf[read + 1..]))
            else Continued(buf[read] % 128, 128, Decode(buf[read + 1..], signed, Left(max, read + 1)))
  {
    assert buf[read..][0] == buf[read] && buf[read..][1..] == buf[read + 1..];
  }

  lemma ScaleStep(low: int, scale: int, byte: byte, more: Parsed<int>)
    ensures Continued(low, scale, Continued(byte % 128, 128, more)) == Continued(low + scale * (byte % 128), scale * 128, more)
  {
    if more.Ok? {
      var v := more.value.0;
      assert scale * (byte % 128 + 128 * v) == scale * (byte % 128) + scale * 128 * v;
    }
  }

  /** Whatever was encoded is read back, if the limit admits its length. */
  lemma {:induction false} Leb128RoundTrip(v: int, signed: bool, max: Option<nat>, rest: Bytes)
    requires (signed || v >= 0) && Within(|Encode(v, signed)|, max)
    ensures Decode(Encode(v, signed) + rest, signed, max) == Ok((v, rest))
    decreases Magnitude(v)
  {
    if IsLast(v, signed) {
      LastBack(v, signed, max, rest);
    } else {
      MagnitudeFalls(v, signed);
      Leb128RoundTrip(v / 128, signed, if max.Some? then Some(max.value - 1) else None, rest);
      MoreBack(v, signed, max, rest);
    }
  }

  lemma LastBack(v: int, signed: bool, max: Option<nat>, rest: Bytes)
    requires (signed || v >= 0) && IsLast(v, signed) && max != Some(0)
    ensures Decode(Encode(v, signed) + rest, signed, max) == Ok((v, rest))
  {
    LastIsSigned(v, signed);
    DecodeLast(v % 128, rest, signed, max);
  }

  lemma MoreBack(v: int, signed: bool, max: Option<nat>, rest: Bytes)
    requires (signed || v >= 0) && !IsLast(v, signed) && max != Some(0)
    requires Decode(Encode(v / 128, signed) + rest, signed, if max.Some? then Some(max.value - 1) else None) == Ok((v / 128, rest))
    ensures Decode(Encode(v, signed) + rest, signed, max) == Ok((v, rest))
  {
    SplitSeven(v);
    DecodeMore(v % 128, Encode(v / 128, signed) + rest, signed, max);
    FirstOfMore(v, signed, rest);
  }

  lemma FirstOfMore(v: int, signed: bool, rest: Bytes)
    requires (signed || v >= 0) && !IsLast(v, signed)
    ensures Encode(v, signed) + rest == [v % 128 + 128] + (Encode(v / 128, signed) + rest)
  {
    assert Encode(v, signed) == [v % 128 + 128] + Encode(v / 128, signed);
  }

  lemma SplitSeven(v: int)
    ensures v == 128 * (v / 128) + v % 128
  {
  }

  lemma LastIsSigned(v: int, signed: bool)
    requires IsLast(v, signed)
    ensures v == if signed && v % 128 >= 64 then v % 128 - 128 else v % 128
  {
    SplitSeven(v);
  }

  lemma DecodeLast(low: nat, b: Bytes, signed: bool, max: Option<nat>)
    requires low < 128 && max != Some(0)
    ensures Decode([low] + b, signed, max) == Ok((if signed && low >= 64 then low - 128 else low, b))
  {
    assert ([low] + b)[1..] == b;
  }

  lemma DecodeMore(low: nat, b: Bytes, signed: bool, max: Option<nat>)
    requires low < 128 && max != Some(0)
    ensures Decode([low + 128] + b, signed, max)
         == Continued(low, 128, Decode(b, signed, if max.Some? then Some(max.value - 1) else None))
  {
    assert ([low + 128] + b)[1..] == b;
  }

  function Pow128(n: nat): (r: nat)
    ensures r >= 1
  {
    if n == 0 then 1 else 128 * Pow128(n - 1)
  }

  /** An unsigned integer takes at most `n` bytes exactly when it is below 128 to the `n`. */
  lemma {:induction false} EncodedSize(v: nat, n: nat)
    requires n >= 1
    ensures |Encode(v, false)| <= n <==> v < Pow128(n)
  {
    assert v == 128 * (v / 128) + v % 128;
    if !IsLast(v, false) {
      if n == 1 {
        assert Pow128(1) == 128 * Pow128(0);
      } else {
        EncodedSize(v / 128, n - 1);
      }
    } else {
      assert Pow128(n) == 128 * Pow128(n - 1);
    }
  }

  /** Decoding takes at least one byte. */
  lemma {:induction false} DecodeConsumes(b: Bytes, signed: bool, max: Option<nat>)
    requires Decode(b, signed, max).Ok?
    ensures |Decode(b, signed, max).value.1| < |b|
    ensures !signed ==> Decode(b, signed, max).value.0 >= 0
  {
    if b[0] >= 128 {
      DecodeConsumes(b[1..], signed, if max.Some? then Some(max.value - 1) else None);
    }
  }
}
