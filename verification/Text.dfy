/** Strings on the wire: hexadecimal (src/utils/buffer.ts:14-36, 122-127, 232-248), ASCII and UTF-8. */
module Text {
  import opened Wrappers
  import opened Bytes

  // ----- hexadecimal -----

  predicate IsHexChar(c: char) { '0' <= c <= '9' || 'a' <= c <= 'f' || 'A' <= c <= 'F' }

  /** `isHexa` */
  predicate IsHexa(s: string) { forall i :: 0 <= i < |s| ==> IsHexChar(s[i]) }

  function Nibble(c: char): (n: nat)
    requires IsHexChar(c)
    ensures n < 16
  {
    if c <= '9' then c as int - '0' as int
    else if c >= 'a' then c as int - 'a' as int + 10
    else c as int - 'A' as int + 10
  }

  function HexChar(n: nat): (c: char)
    requires n < 16
    ensures IsHexChar(c) && Nibble(c) == n
  {
    if n < 10 then ('0' as int + n) as char else ('a' as int + n - 10) as char
  }

  /** `Buffer.from(s, 'hex')` of a hexadecimal string; an odd last digit is dropped. */
  function FromHex(s: string): (b: Bytes)
    requires IsHexa(s)
    ensures |b| == |s| / 2
  {
    if |s| < 2 then [] else [16 * Nibble(s[0]) + Nibble(s[1])] + FromHex(s[2..])
  }

  /** `hexToBuffer` */
  function HexToBuffer(s: string): Result<Bytes, CodecError> {
    if IsHexa(s) then Ok(FromHex(s)) else Err(NotHexadecimal)
  }

  /** `bufferToHex` */
  function BufferToHex(b: Bytes): (s: string)
    ensures IsHexa(s) && |s| == 2 * |b|
  {
    if b == [] then "" else [HexChar(b[0] / 16), HexChar(b[0] % 16)] + BufferToHex(b[1..])
  }

  function LowerHexChar(c: char): char {
    if 'A' <= c <= 'F' then (c as int + 32) as char else c
  }

  function LowerHex(s: string): string { seq(|s|, i requires 0 <= i < |s| => LowerHexChar(s[i])) }

  lemma {:induction false} BytesSurviveHex(b: Bytes)
    ensures HexToBuffer(BufferToHex(b)) == Ok(b)
  {
    if b != [] {
      BytesSurviveHex(b[1..]);
      PairSurvives(b[0], BufferToHex(b[1..]));
      assert b == [b[0]] + b[1..];
    }
  }

  lemma PairSurvives(x: byte, s: string)
    requires IsHexa(s)
    ensures var h := [HexChar(x / 16), HexChar(x % 16)] + s;
      IsHexa(h) && FromHex(h) == [x] + FromHex(s)
  {
    var h := [HexChar(x / 16), HexChar(x % 16)] + s;
    assert h[2..] == s;
    assert 16 * (x / 16) + x % 16 == x;
  }

  lemma HexCharIsLower(c: char)
    requires IsHexChar(c)
    ensures HexChar(Nibble(c)) == LowerHexChar(c)
  {
  }

  /** A hexadecimal string of even length comes back in lower case. */
  lemma {:induction false} HexSurvivesLowercased(s: string)
    requires IsHexa(s) && |s| % 2 == 0
    ensures BufferToHex(FromHex(s)) == LowerHex(s)
  {
    if s != [] {
      HexSurvivesLowercased(s[2..]);
      PairBack(s[0], s[1]);
      var b: byte := 16 * Nibble(s[0]) + Nibble(s[1]);
      assert FromHex(s) == [b] + FromHex(s[2..]);
      assert ([b] + FromHex(s[2..]))[1..] == FromHex(s[2..]);
      LowerHexSplit(s);
    }
  }

  lemma PairBack(c: char, d: char)
    requires IsHexChar(c) && IsHexChar(d)
    ensures var b := 16 * Nibble(c) + Nibble(d);
      HexChar(b / 16) == LowerHexChar(c) && HexChar(b % 16) == LowerHexChar(d)
  {
    HexCharIsLower(c);
    HexCharIsLower(d);
  }

  lemma LowerHexSplit(s: string)
    requires |s| >= 2
    ensures LowerHex(s) == [LowerHexChar(s[0]), LowerHexChar(s[1])] + LowerHex(s[2..])
  {
  }

  // ----- ASCII -----

  /** Writing 'ascii' keeps the low byte of each code; reading it keeps the low seven bits. */
  function ToAscii(s: string): (b: Bytes)
    ensures |b| == |s|
  {
    seq(|s|, i requires 0 <= i < |s| => (s[i] as int % 256) as byte)
  }

  function FromAscii(b: Bytes): (s: string)
    ensures |s| == |b|
  {
    seq(|b|, i requires 0 <= i < |b| => (b[i] % 128) as char)
  }

  predicate IsAscii(s: string) { forall i :: 0 <= i < |s| ==> s[i] as int < 128 }

  /** A string survives exactly when it is ASCII. */
  lemma AsciiRoundTrip(s: string)
    ensures FromAscii(ToAscii(s)) == s <==> IsAscii(s)
  {
    var r := FromAscii(ToAscii(s));
    forall i | 0 <= i < |s| ensures r[i] == s[i] <==> s[i] as int < 128 {
      LowBits(s[i] as int);
    }
    if r == s {
      assert forall i :: 0 <= i < |s| ==> r[i] == s[i];
    }
  }

  lemma LowBits(n: nat)
    ensures (n % 256) % 128 == n <==> n < 128
  {
  }

  // ----- UTF-8 -----

  function EncodeChar(c: char): (b: Bytes)
    ensures 1 <= |b| <= 4
  {
    var n := c as int;
    if n < 0x80 then [n]
    else if n < 0x800 then [0xC0 + n / 64, 0x80 + n % 64]
    else if n < 0x1_0000 then [0xE0 + n / 4096, 0x80 + n / 64 % 64, 0x80 + n % 64]
    else [0xF0 + n / 262144, 0x80 + n / 4096 % 64, 0x80 + n / 64 % 64, 0x80 + n % 64]
  }

  /** `Buffer.from(s, 'utf8')` */
  function ToUtf8(s: string): Bytes {
    if s == [] then [] else EncodeChar(s[0]) + ToUtf8(s[1..])
  }

  predicate Continues(b: Bytes, i: nat) { i < |b| && 0x80 <= b[i] < 0xC0 }

  /** The second byte a lead byte admits. */
  predicate SecondOk(lead: byte, b: Bytes) {
    && Continues(b, 1)
    && (lead == 0xE0 ==> b[1] >= 0xA0)
    && (lead == 0xED ==> b[1] < 0xA0)
    && (lead == 0xF0 ==> b[1] >= 0x90)
    && (lead == 0xF4 ==> b[1] < 0x90)
  }

  /** The six payload bits of a continuation byte. */
  function Low(b: Bytes, i: nat): (n: nat)
    requires Continues(b, i)
    ensures n < 64 && b[i] == 0x80 + n
  {
    var x: int := b[i];
    x - 0x80
  }

  const REPLACEMENT: char := '\U{FFFD}'

  /** One decoding step: a character and how many bytes it took. A malformed sequence yields one
      replacement character for its longest well-formed beginning. */
  function DecodeChar(b: Bytes): (r: (char, nat))
    requires b != []
    ensures 1 <= r.1 <= |b|
  {
    var lead: int := b[0];
    if lead < 0x80 then (lead as char, 1)
    else if lead < 0xC2 || lead > 0xF4 || !SecondOk(lead, b) then (REPLACEMENT, 1)
    else if lead < 0xE0 then (((lead - 0xC0) * 64 + Low(b, 1)) as char, 2)
    else if !Continues(b, 2) then (REPLACEMENT, 2)
    else if lead < 0xF0 then (((lead - 0xE0) * 4096 + Low(b, 1) * 64 + Low(b, 2)) as char, 3)
    else if !Continues(b, 3) then (REPLACEMENT, 3)
    else (((lead - 0xF0) * 262144 + Low(b, 1) * 4096 + Low(b, 2) * 64 + Low(b, 3)) as char, 4)
  }

  /** `toString('utf-8')` */
  function FromUtf8(b: Bytes): string {
    if b == [] then "" else var (c, n) := DecodeChar(b); [c] + FromUtf8(b[n..])
  }

  lemma CharRoundTrip(c: char, rest: Bytes)
    ensures DecodeChar(EncodeChar(c) + rest) == (c, |EncodeChar(c)|)
  {
    var n := c as int;
    if n < 0x80 {
      assert ([n] + rest)[0] == n;
    } else if n < 0x800 {
      TwoBytes(n, [0xC0 + n / 64, 0x80 + n % 64] + rest);
    } else if n < 0x1_0000 {
      ThreeBytes(n, [0xE0 + n / 4096, 0x80 + n / 64 % 64, 0x80 + n % 64] + rest);
    } else {
      FourBytes(n, [0xF0 + n / 262144, 0x80 + n / 4096 % 64, 0x80 + n / 64 % 64, 0x80 + n % 64] + rest);
    }
  }

  lemma TwoBytes(n: nat, b: Bytes)
    requires 0x80 <= n < 0x800 && |b| >= 2 && b[0] == 0xC0 + n / 64 && b[1] == 0x80 + n % 64
    ensures DecodeChar(b) == (n as char, 2)
  {
    SixBits(n);
  }

  lemma ThreeBytes(n: nat, b: Bytes)
    requires 0x800 <= n < 0xD800 || 0xE000 <= n < 0x1_0000
    requires |b| >= 3 && b[0] == 0xE0 + n / 4096 && b[1] == 0x80 + n / 64 % 64 && b[2] == 0x80 + n % 64
    ensures DecodeChar(b) == (n as char, 3)
  {
    SixBits(n);
  }

  lemma FourBytes(n: nat, b: Bytes)
    requires 0x1_0000 <= n < 0x11_0000 && |b| >= 4
    requires b[0] == 0xF0 + n / 262144 && b[1] == 0x80 + n / 4096 % 64 && b[2] == 0x80 + n / 64 % 64 && b[3] == 0x80 + n % 64
    ensures DecodeChar(b) == (n as char, 4)
  {
    SixBits(n);
  }

  lemma SixBits(n: nat)
    ensures n == 64 * (n / 64) + n % 64
    ensures n / 64 == 64 * (n / 4096) + n / 64 % 64
    ensures n / 4096 == 64 * (n / 262144) + n / 4096 % 64
  {
  }

  /** Well-formed text survives UTF-8. */
  lemma {:induction false} Utf8RoundTrip(s: string)
    ensures FromUtf8(ToUtf8(s)) == s
  {
    if s != [] {
      CharRoundTrip(s[0], ToUtf8(s[1..]));
      FirstCharRead(EncodeChar(s[0]), ToUtf8(s[1..]), s[0]);
      Utf8RoundTrip(s[1..]);
      assert s == [s[0]] + s[1..];
    }
  }

  lemma FirstCharRead(b: Bytes, rest: Bytes, c: char)
    requires b != [] && DecodeChar(b + rest) == (c, |b|)
    ensures FromUtf8(b + rest) == [c] + FromUtf8(rest)
  {
    assert (b + rest)[|b|..] == rest;
  }

  /** JavaScript's `length`: UTF-16 code units. */
  function Utf16Length(s: string): nat {
    if s == [] then 0 else (if s[0] as int < 0x1_0000 then 1 else 2) + Utf16Length(s[1..])
  }

  /** A string never has more UTF-16 units than UTF-8 bytes, nor less than a third. */
  lemma {:induction false} Utf8AndUtf16(s: string)
    ensures Utf16Length(s) <= |ToUtf8(s)| <= 3 * Utf16Length(s)
  {
    if s != [] {
      Utf8AndUtf16(s[1..]);
    }
  }
}
