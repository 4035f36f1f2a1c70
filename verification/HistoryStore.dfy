/** The transaction history of src/storage/memory_store.ts: the ordering key (66-93), `saveTx`
    (558-570), `cleanStorage` (1109-1116), `preProcessHistory` (216-218) and `historyIter` (461-549). */
module HistoryStore {
  import opened Wrappers
  import opened SeqSums
  import opened Bytes
  import opened Text

  const MAX_TIMESTAMP: int := 0xffff_ffff

  // ----- strings in order -----

  /** JavaScript's `<` on strings, character by character. */
  predicate Less(s: string, t: string) {
    if t == "" then false
    else if s == "" then true
    else if s[0] != t[0] then s[0] < t[0]
    else Less(s[1..], t[1..])
  }

  lemma {:induction false} LessIsTotal(s: string, t: string)
    ensures Less(s, t) || s == t || Less(t, s)
    ensures !(Less(s, t) && Less(t, s))
    ensures Less(s, t) ==> s != t
  {
    if s != "" && t != "" {
      assert s == [s[0]] + s[1..] && t == [t[0]] + t[1..];
      LessIsTotal(s[1..], t[1..]);
    }
  }

  lemma {:induction false} LessIsTransitive(s: string, t: string, u: string)
    requires Less(s, t) && Less(t, u)
    ensures Less(s, u)
  {
    if s != "" && s[0] == t[0] == u[0] {
      LessIsTransitive(s[1..], t[1..], u[1..]);
    }
  }

  /** A common beginning does not matter. */
  lemma {:induction false} LessAfterPrefix(p: string, s: string, t: string)
    ensures Less(p + s, p + t) <==> Less(s, t)
  {
    if p == "" {
      assert p + s == s && p + t == t;
    } else {
      assert (p + s)[1..] == p[1..] + s && (p + t)[1..] == p[1..] + t;
      LessAfterPrefix(p[1..], s, t);
    }
  }

  // ----- big-endian hexadecimal is monotone -----

  /** Equally long byte strings, compared byte by byte. */
  predicate Below(a: Bytes, b: Bytes)
    requires |a| == |b|
  {
    a != [] && (a[0] < b[0] || (a[0] == b[0] && Below(a[1..], b[1..])))
  }

  lemma {:induction false} LeadingByte(b: Bytes)
    requires b != []
    ensures FromBytes(b) == b[0] * Pow256(|b| - 1) + FromBytes(b[1..])
  {
    var n := |b| - 1;
    if n == 0 {
      assert b[..n] == [] && b[1..] == [];
    } else {
      LeadingByte(b[..n]);
      assert b[..n][1..] == b[1..][..n - 1] && b[1..][n - 1] == b[n];
      OneMorePower(b[0], Pow256(n - 1), FromBytes(b[1..][..n - 1]), b[n]);
    }
  }

  lemma OneMorePower(top: int, p: int, middle: int, low: int)
    ensures 256 * (top * p + middle) + low == top * (256 * p) + (256 * middle + low)
  {
    assert 256 * (top * p) == top * (256 * p);
  }

  /** Byte order is numeric order. */
  lemma {:induction false} BelowIsNumeric(a: Bytes, b: Bytes)
    requires |a| == |b|
    ensures Below(a, b) <==> FromBytes(a) < FromBytes(b)
  {
    if a != [] {
      BelowIsNumeric(a[1..], b[1..]);
      LeadingByte(a);
      LeadingByte(b);
      TopDecides(a[0], b[0], Pow256(|a| - 1), FromBytes(a[1..]), FromBytes(b[1..]));
    }
  }

  lemma {:induction false} OneMore(x: int, y: int, p: int)
    requires x < y && p > 0
    ensures x * p + p <= y * p
    decreases y - x
  {
    assert y * p == (y - 1) * p + p;
    if x + 1 < y {
      OneMore(x, y - 1, p);
    }
  }

  lemma TopDecides(x: int, y: int, p: int, u: int, v: int)
    requires p > 0 && 0 <= u < p && 0 <= v < p
    ensures x < y ==> x * p + u < y * p + v
    ensures x > y ==> x * p + u > y * p + v
  {
    if x < y {
      OneMore(x, y, p);
    } else if x > y {
      OneMore(y, x, p);
    }
  }

  lemma HexPairOrder(x: byte, y: byte, s: string, t: string)
    ensures x < y ==> Less([HexChar(x / 16), HexChar(x % 16)] + s, [HexChar(y / 16), HexChar(y % 16)] + t)
    ensures x == y ==> (Less([HexChar(x / 16), HexChar(x % 16)] + s, [HexChar(y / 16), HexChar(y % 16)] + t) <==> Less(s, t))
  {
    var p, q := [HexChar(x / 16), HexChar(x % 16)], [HexChar(y / 16), HexChar(y % 16)];
    HexCharOrder(x / 16, y / 16);
    HexCharOrder(x % 16, y % 16);
    assert (p + s)[1..] == [p[1]] + s && (q + t)[1..] == [q[1]] + t;
    assert ([p[1]] + s)[1..] == s && ([q[1]] + t)[1..] == t;
  }

  lemma HexCharOrder(m: nat, n: nat)
    requires m < 16 && n < 16
    ensures HexChar(m) < HexChar(n) <==> m < n
    ensures HexChar(m) == HexChar(n) <==> m == n
  {
  }

  lemma HexSplit(a: Bytes, s: string)
    requires a != []
    ensures BufferToHex(a) + s == [HexChar(a[0] / 16), HexChar(a[0] % 16)] + (BufferToHex(a[1..]) + s)
  {
  }

  /** Hexadecimal of equal width embeds byte order in string order, before anything that follows. */
  lemma {:induction false} HexOrder(a: Bytes, b: Bytes, s: string, t: string)
    requires |a| == |b|
    ensures Less(BufferToHex(a) + s, BufferToHex(b) + t) <==> Below(a, b) || (a == b && Less(s, t))
  {
    if a == [] {
      assert BufferToHex(a) + s == s && BufferToHex(b) + t == t && a == b;
    } else {
      HexSplit(a, s);
      HexSplit(b, t);
      HexOrder(a[1..], b[1..], s, t);
      HexStep(a, b, BufferToHex(a[1..]) + s, BufferToHex(b[1..]) + t);
      SameSplit(a, b);
    }
  }

  lemma SameSplit(a: Bytes, b: Bytes)
    requires |a| == |b| && a != []
    ensures a == b <==> a[0] == b[0] && a[1..] == b[1..]
  {
    assert a == [a[0]] + a[1..] && b == [b[0]] + b[1..];
  }

  lemma HexStep(a: Bytes, b: Bytes, x: string, y: string)
    requires a != [] && b != []
    ensures Less([HexChar(a[0] / 16), HexChar(a[0] % 16)] + x, [HexChar(b[0] / 16), HexChar(b[0] % 16)] + y)
       <==> a[0] < b[0] || (a[0] == b[0] && Less(x, y))
  {
    HexPairOrder(a[0], b[0], x, y);
    HexPairOrder(b[0], a[0], y, x);
    LessIsTotal([HexChar(a[0] / 16), HexChar(a[0] % 16)] + x, [HexChar(b[0] / 16), HexChar(b[0] % 16)] + y);
  }

  // ----- the ordering key -----

  /** `getOrderingKey`; writing a timestamp outside 32 bits throws. */
  function OrderingKey(timestamp: int, txId: string): Option<string> {
    if 0 <= timestamp <= MAX_TIMESTAMP then Some(KeyOf(timestamp, txId)) else None
  }

  function KeyOf(timestamp: int, txId: string): string {
    BufferToHex(ToBytes(timestamp, 4)) + ":" + txId
  }

  /** The first two pieces of `key.split(':')`; a missing second piece is `undefined`. */
  function BeforeColon(s: string): string {
    if s == "" || s[0] == ':' then "" else [s[0]] + BeforeColon(s[1..])
  }

  function AfterColon(s: string): Option<string> {
    if s == "" then None else if s[0] == ':' then Some(s[1..]) else AfterColon(s[1..])
  }

  /** `getPartsFromOrderingKey` */
  function PartsOf(key: string): (Bytes, Option<string>) {
    var first := BeforeColon(key);
    var rest := AfterColon(key);
    (if IsHexa(first) then FromHex(first) else [], if rest.Some? then Some(BeforeColon(rest.value)) else None)
  }

  lemma {:induction false} HexBeforeColon(b: Bytes, s: string)
    ensures BeforeColon(BufferToHex(b) + (":" + s)) == BufferToHex(b)
    ensures AfterColon(BufferToHex(b) + (":" + s)) == Some(s)
  {
    if b == [] {
      assert BufferToHex(b) + (":" + s) == ":" + s;
    } else {
      HexBeforeColon(b[1..], s);
      HexSplit(b, ":" + s);
      HexSplit(b, "");
      assert BufferToHex(b[1..]) + "" == BufferToHex(b[1..]) && BufferToHex(b) + "" == BufferToHex(b);
      DigitsBeforeColon(b[0], BufferToHex(b[1..]) + (":" + s));
    }
  }

  lemma DigitsBeforeColon(x: byte, s: string)
    ensures var p := [HexChar(x / 16), HexChar(x % 16)];
      BeforeColon(p + s) == p + BeforeColon(s) && AfterColon(p + s) == AfterColon(s)
  {
    var p := [HexChar(x / 16), HexChar(x % 16)];
    assert (p + s)[1..] == [p[1]] + s && ([p[1]] + s)[1..] == s;
    assert BeforeColon([p[1]] + s) == [p[1]] + BeforeColon(s);
  }

  lemma {:induction false} ColonFree(s: string)
    ensures BeforeColon(s) == s <==> ':' !in s
  {
    if s != "" {
      assert s == [s[0]] + s[1..];
      ColonFree(s[1..]);
    }
  }

  /** The key decodes to its timestamp, and to its transaction id exactly when the id has no colon. */
  lemma KeyDecodes(timestamp: int, txId: string)
    requires 0 <= timestamp <= MAX_TIMESTAMP
    ensures var (b, id) := PartsOf(KeyOf(timestamp, txId));
      |b| == 4 && FromBytes(b) == timestamp && (id == Some(txId) <==> ':' !in txId)
  {
    var b := ToBytes(timestamp, 4);
    assert KeyOf(timestamp, txId) == BufferToHex(b) + (":" + txId);
    HexBeforeColon(b, txId);
    BytesSurviveHex(b);
    ColonFree(txId);
    Powers();
    IntRoundTrip(timestamp, 4);
  }

  /** String order of keys is the order by timestamp, then by id. */
  lemma KeyOrder(t1: int, id1: string, t2: int, id2: string)
    requires 0 <= t1 <= MAX_TIMESTAMP && 0 <= t2 <= MAX_TIMESTAMP
    ensures Less(KeyOf(t1, id1), KeyOf(t2, id2)) <==> t1 < t2 || (t1 == t2 && Less(id1, id2))
  {
    var a, b := ToBytes(t1, 4), ToBytes(t2, 4);
    assert KeyOf(t1, id1) == BufferToHex(a) + (":" + id1) && KeyOf(t2, id2) == BufferToHex(b) + (":" + id2);
    HexOrder(a, b, ":" + id1, ":" + id2);
    BelowIsNumeric(a, b);
    LessAfterPrefix(":", id1, id2);
    FourBytes(t1);
    FourBytes(t2);
  }

  lemma FourBytes(t: int)
    requires 0 <= t <= MAX_TIMESTAMP
    ensures FromBytes(ToBytes(t, 4)) == t
  {
    Powers();
    IntRoundTrip(t, 4);
  }
}
