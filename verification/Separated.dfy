/** Splitting and joining strings, and hexadecimal integers in text, as src/models/partial_tx.ts uses
    them. */
module Separated {
  import opened Wrappers
  import opened Text

  /** `s.split(c)` */
  function Split(s: string, c: char): (r: seq<string>)
    ensures |r| >= 1
  {
    if s == "" then [""]
    else if s[0] == c then [""] + Split(s[1..], c)
    else
      var r := Split(s[1..], c);
      [[s[0]] + r[0]] + r[1..]
  }

  /** `parts.join(c)` */
  function Join(parts: seq<string>, c: char): string {
    if parts == [] then ""
    else if |parts| == 1 then parts[0]
    else parts[0] + ([c] + Join(parts[1..], c))
  }

  ghost predicate FreeOf(s: string, c: char) { c !in s }

  lemma {:induction false} SplitPiece(p: string, c: char, rest: string)
    requires FreeOf(p, c)
    ensures Split(p + ([c] + rest), c) == [p] + Split(rest, c)
    ensures Split(p, c) == [p]
  {
    if p == "" {
      assert p + ([c] + rest) == [c] + rest;
      assert ([c] + rest)[1..] == rest;
    } else {
      assert p == [p[0]] + p[1..];
      assert (p + ([c] + rest))[1..] == p[1..] + ([c] + rest);
      assert p[0] in p && forall x :: x in p[1..] ==> x in p;
      SplitPiece(p[1..], c, rest);
      assert ([p[1..]] + Split(rest, c))[1..] == Split(rest, c);
    }
  }

  /** Pieces without the separator survive being joined and split. */
  lemma {:induction false} SplitJoin(parts: seq<string>, c: char)
    requires parts != [] && forall p :: p in parts ==> FreeOf(p, c)
    ensures Split(Join(parts, c), c) == parts
  {
    assert parts[0] in parts;
    if |parts| == 1 {
      SplitPiece(parts[0], c, "");
      assert parts == [parts[0]];
    } else {
      assert forall p :: p in parts[1..] ==> p in parts;
      SplitJoin(parts[1..], c);
      SplitPiece(parts[0], c, Join(parts[1..], c));
      assert parts == [parts[0]] + parts[1..];
    }
  }

  /** A joined string has only the separators and the characters of its pieces. */
  lemma {:induction false} JoinIsFree(parts: seq<string>, c: char, d: char)
    requires c != d && forall p :: p in parts ==> FreeOf(p, d)
    ensures FreeOf(Join(parts, c), d)
  {
    if parts != [] {
      assert parts[0] in parts && forall p :: p in parts[1..] ==> p in parts;
      JoinIsFree(parts[1..], c, d);
    }
  }

  // ----- hexadecimal integers -----

  /** `n.toString(16)` */
  function ToHexInt(n: nat): (s: string)
    ensures s != "" && IsHexa(s)
  {
    if n < 16 then [HexChar(n)] else ToHexInt(n / 16) + [HexChar(n % 16)]
  }

  function HexValue(s: string): nat
    requires IsHexa(s)
  {
    if s == "" then 0 else 16 * HexValue(s[..|s| - 1]) + Nibble(s[|s| - 1])
  }

  /** ``BigInt(`0x${s}`)``; anything but hexadecimal digits throws. */
  function ParseBigHex(s: string): Option<nat> {
    if s != "" && IsHexa(s) then Some(HexValue(s)) else None
  }

  function HexPrefix(s: string): (p: string)
    ensures IsHexa(p)
  {
    if s == "" || !IsHexChar(s[0]) then "" else [s[0]] + HexPrefix(s[1..])
  }

  /** `parseInt(s, 16)`: the longest hexadecimal beginning, or NaN when there is none. */
  function ParseIntHex(s: string): Option<nat> {
    if HexPrefix(s) == "" then None else Some(HexValue(HexPrefix(s)))
  }

  lemma {:induction false} HexIntRoundTrip(n: nat)
    ensures ParseBigHex(ToHexInt(n)) == Some(n) && ParseIntHex(ToHexInt(n)) == Some(n)
  {
    HexValueBack(n);
    HexPrefixOfHex(ToHexInt(n));
  }

  lemma {:induction false} HexValueBack(n: nat)
    ensures HexValue(ToHexInt(n)) == n
  {
    var s := ToHexInt(n);
    if n < 16 {
      assert s[..|s| - 1] == "";
    } else {
      HexValueBack(n / 16);
      assert s[..|s| - 1] == ToHexInt(n / 16);
    }
  }

  lemma {:induction false} HexPrefixOfHex(s: string)
    requires IsHexa(s)
    ensures HexPrefix(s) == s
  {
    if s != "" {
      assert IsHexa(s[1..]);
      HexPrefixOfHex(s[1..]);
      assert s == [s[0]] + s[1..];
    }
  }

  lemma HexIsFree(s: string)
    requires IsHexa(s)
    ensures FreeOf(s, ',') && FreeOf(s, ':') && FreeOf(s, '|')
  {
  }
}
