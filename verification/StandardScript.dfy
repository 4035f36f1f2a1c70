/** The pay-to-public-key-hash and pay-to-script-hash scripts (src/models/p2pkh.ts, p2sh.ts and
    src/utils/scripts.ts), with their optional timelock. */
module StandardScript {
  import opened Wrappers
  import opened Bytes

  const OP_GREATERTHAN_TIMESTAMP: byte := 0x6f
  const OP_DUP: byte := 0x76
  const OP_HASH160: byte := 0xa9
  const OP_EQUAL: byte := 0x87
  const OP_EQUALVERIFY: byte := 0x88
  const OP_CHECKSIG: byte := 0xac
  const HASH_SIZE: nat := 20

  datatype Kind = PubKeyHash | ScriptHash

  datatype Script = Script(kind: Kind, hash: Bytes, timelock: Option<nat>)

  function Body(kind: Kind, hash: Bytes): Bytes {
    match kind
    case PubKeyHash => [OP_DUP, OP_HASH160, HASH_SIZE] + (hash + [OP_EQUALVERIFY, OP_CHECKSIG])
    case ScriptHash => [OP_HASH160, HASH_SIZE] + (hash + [OP_EQUAL])
  }

  /** `createScript`: a timelock of zero is no timelock. */
  function CreateScript(s: Script): Bytes {
    if s.timelock.Some? && s.timelock.value != 0
    then [4] + (ToBytes(s.timelock.value, 4) + ([OP_GREATERTHAN_TIMESTAMP] + Body(s.kind, s.hash)))
    else Body(s.kind, s.hash)
  }

  predicate IsPubKeyHashBody(b: Bytes) {
    && |b| == HASH_SIZE + 5 && b[0] == OP_DUP && b[1] == OP_HASH160 && b[2] == HASH_SIZE
    && b[23] == OP_EQUALVERIFY && b[24] == OP_CHECKSIG
  }

  predicate IsScriptHashBody(b: Bytes) {
    |b| == HASH_SIZE + 3 && b[0] == OP_HASH160 && b[1] == HASH_SIZE && b[22] == OP_EQUAL
  }

  predicate IsLocked(b: Bytes) { |b| > 6 && b[0] == 4 && b[5] == OP_GREATERTHAN_TIMESTAMP }

  function ParseBody(b: Bytes): Option<(Kind, Bytes)> {
    if IsPubKeyHashBody(b) then Some((PubKeyHash, b[3..23]))
    else if IsScriptHashBody(b) then Some((ScriptHash, b[2..22]))
    else None
  }

  /** `parseScript`, when the result is one of the two standard kinds. */
  function ParseStandard(b: Bytes): Option<Script> {
    if |b| == HASH_SIZE + 5 || |b| == HASH_SIZE + 3 then
      var body :- ParseBody(b);
      Some(Script(body.0, body.1, None))
    else if (|b| == HASH_SIZE + 11 || |b| == HASH_SIZE + 9) && IsLocked(b) then
      var body :- ParseBody(b[6..]);
      Some(Script(body.0, body.1, Some(FromBytes(b[1..5]))))
    else None
  }

  lemma BodyBack(b: Bytes)
    requires ParseBody(b).Some?
    ensures Body(ParseBody(b).value.0, ParseBody(b).value.1) == b
    ensures |ParseBody(b).value.1| == HASH_SIZE
  {
    if IsPubKeyHashBody(b) {
      assert b == [b[0], b[1], b[2]] + (b[3..23] + [b[23], b[24]]);
    } else {
      assert b == [b[0], b[1]] + (b[2..22] + [b[22]]);
    }
  }

  /** Parsing a standard script and creating it again yields the same bytes exactly when it carries no
      timelock of zero. */
  lemma ScriptSurvives(b: Bytes)
    requires ParseStandard(b).Some?
    ensures CreateScript(ParseStandard(b).value) == b <==> ParseStandard(b).value.timelock != Some(0)
  {
    var s := ParseStandard(b).value;
    if s.timelock.None? {
      BodyBack(b);
    } else {
      BodyBack(b[6..]);
      BytesRoundTrip(b[1..5]);
      assert b == [b[0]] + (b[1..5] + ([b[5]] + b[6..]));
      assert |Body(s.kind, s.hash)| == |b| - 6;
    }
  }

  lemma BodyParses(kind: Kind, hash: Bytes)
    requires |hash| == HASH_SIZE
    ensures ParseBody(Body(kind, hash)) == Some((kind, hash))
  {
    var b := Body(kind, hash);
    match kind {
      case PubKeyHash => assert b[3..23] == hash && !IsScriptHashBody(b);
      case ScriptHash => assert b[2..22] == hash && !IsPubKeyHashBody(b);
    }
  }

  /** A created script parses as what it was created from, a timelock of zero apart. */
  lemma CreatedScriptParses(s: Script)
    requires |s.hash| == HASH_SIZE && (s.timelock.Some? ==> s.timelock.value < 0x1_0000_0000)
    ensures ParseStandard(CreateScript(s)) == Some(s.(timelock := if s.timelock == Some(0) then None else s.timelock))
  {
    BodyParses(s.kind, s.hash);
    if s.timelock.Some? && s.timelock.value != 0 {
      LockedParses(s.kind, s.hash, ToBytes(s.timelock.value, 4));
      Powers();
      IntRoundTrip(s.timelock.value, 4);
    }
  }

  lemma LockedParses(kind: Kind, hash: Bytes, lock: Bytes)
    requires |hash| == HASH_SIZE && |lock| == 4
    ensures ParseStandard([4] + (lock + ([OP_GREATERTHAN_TIMESTAMP] + Body(kind, hash)))) == Some(Script(kind, hash, Some(FromBytes(lock))))
  {
    var body := Body(kind, hash);
    var b := [4] + (lock + ([OP_GREATERTHAN_TIMESTAMP] + body));
    BodyParses(kind, hash);
    LockedSlices(lock, body);
    assert |body| == HASH_SIZE + 5 || |body| == HASH_SIZE + 3;
  }

  lemma LockedSlices(lock: Bytes, body: Bytes)
    requires |lock| == 4
    ensures var b := [4] + (lock + ([OP_GREATERTHAN_TIMESTAMP] + body));
      |b| == 6 + |body| && b[6..] == body && b[1..5] == lock && b[0] == 4 && b[5] == OP_GREATERTHAN_TIMESTAMP
  {
  }
}
