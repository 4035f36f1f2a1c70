/** The objects that write and read the wire: `Transaction` (src/models/transaction.ts),
    `CreateTokenTransaction` (src/models/create_token_transaction.ts), `FeeHeader`
    (src/headers/fee.ts) and the mint and melt entry loop (src/headers/mint_melt_entry.ts). Each
    method is proved against the wire functions the round trips are about. */
module TransactionCodec {
  import opened Wrappers
  import opened SeqSums
  import opened Bytes
  import opened Wire
  import opened HeaderWire
  import opened TransactionWire
  import opened TransactionLayout

  const DEFAULT_TX_VERSION: int := 1
  const CREATE_TOKEN_TX_VERSION: int := 2

  class Transaction {
    var signalBits: int
    var version: int
    var tokens: seq<string>
    var inputs: seq<Input>
    var outputs: seq<Output>
    var weight: Bytes
    var timestamp: Option<int>
    var parents: seq<string>
    var nonce: int
    var headers: seq<Header>

    constructor (inputs: seq<Input>, outputs: seq<Output>)
      ensures Data() == TxData(Funds(0, DEFAULT_TX_VERSION, [], inputs, outputs), Graph([0, 0, 0, 0, 0, 0, 0, 0], None, [], 0), [])
    {
      this.inputs, this.outputs, tokens, parents, headers := inputs, outputs, [], [], [];
      signalBits, version, nonce, timestamp := 0, DEFAULT_TX_VERSION, 0, None;
      weight := [0, 0, 0, 0, 0, 0, 0, 0];
    }

    function FundsData(): Funds
      reads this
    {
      Funds(signalBits, version, tokens, inputs, outputs)
    }

    function GraphData(): Graph
      reads this
    {
      Graph(weight, timestamp, parents, nonce)
    }

    function Data(): TxData
      reads this
    {
      TxData(FundsData(), GraphData(), headers)
    }

    method SerializeInputsOutputs(addInputData: bool) returns (r: Printed)
      ensures r == PrintTransfers(FundsData(), addInputData)
    {
      var ins := WriteMany(InputPrinter(addInputData), inputs);
      if ins.Err? {
        return Err(ins.error);
      }
      var outs := WriteMany(OutputPrinter(), outputs);
      if outs.Err? {
        return Err(outs.error);
      }
      r := Ok(ins.value + outs.value);
    }

    method SerializeFundsFields(addInputData: bool) returns (r: Printed)
      ensures r == PrintFunds(FundsData(), addInputData)
      ensures r.Ok? <==> FundsWritable(FundsData())
      ensures r.Ok? ==> r.value == FundsBytes(FundsData(), addInputData)
    {
      FundsLayout(FundsData(), addInputData);
      var head := ToBytes(signalBits, 1) + ToBytes(version, 1) + ToBytes(|tokens|, 1) + ToBytes(|inputs|, 1) + ToBytes(|outputs|, 1);
      var uids := WriteMany(HashPrinter(), tokens);
      if uids.Err? {
        return Err(uids.error);
      }
      var transfers := SerializeInputsOutputs(addInputData);
      if transfers.Err? {
        return Err(transfers.error);
      }
      FiveBytes(ToBytes(signalBits, 1), ToBytes(version, 1), ToBytes(|tokens|, 1), ToBytes(|inputs|, 1), ToBytes(|outputs|, 1),
                uids.value + transfers.value);
      r := Ok(head + (uids.value + transfers.value));
    }

    method SerializeGraphFields() returns (r: Printed)
      ensures r == PrintGraph(GraphData())
      ensures r.Ok? <==> GraphWritable(GraphData())
      ensures r.Ok? ==> r.value == GraphBytes(GraphData())
    {
      GraphLayout(GraphData());
      var ps := WriteMany(HashPrinter(), parents);
      if ps.Err? {
        return Err(ps.error);
      }
      var ts := if timestamp.Some? then timestamp.value else 0;
      r := Ok(weight + (ToBytes(ts, 4) + (ToBytes(|parents|, 1) + (ps.value + ToBytes(nonce, 4)))));
    }

    /** `toBytes` */
    method Serialize() returns (r: Printed)
      ensures r == PrintTx(Data())
      ensures r.Ok? <==> TxWritable(Data())
      ensures r.Ok? ==> r.value == TxBytes(Data())
    {
      TransactionLayout.TransactionLayout(Data());
      var funds := SerializeFundsFields(true);
      if funds.Err? {
        return Err(funds.error);
      }
      var graph := SerializeGraphFields();
      if graph.Err? {
        return Err(graph.error);
      }
      var hs := WriteMany(HeaderPrinter(), headers);
      if hs.Err? {
        return Err(hs.error);
      }
      r := Ok(funds.value + (graph.value + hs.value));
    }

    /** Tokens, inputs and outputs are pushed on the lists the object has. */
    method GetFundsFieldsFromBytes(b: Bytes) returns (r: Result<Bytes, CodecError>)
      modifies `signalBits, `version, `tokens, `inputs, `outputs
      ensures r.Err? <==> ParseFunds(b).Err?
      ensures r.Err? ==> r.error == ParseFunds(b).error
      ensures r.Ok? ==> var (f, rest) := ParseFunds(b).value;
        && r.value == rest && signalBits == f.signalBits && version == f.version
        && tokens == old(tokens) + f.tokens && inputs == old(inputs) + f.inputs && outputs == old(outputs) + f.outputs
    {
      var bits :- UnpackInt(1, b);
      var kind :- UnpackInt(1, bits.1);
      var lenTokens :- UnpackInt(1, kind.1);
      var lenInputs :- UnpackInt(1, lenTokens.1);
      var lenOutputs :- UnpackInt(1, lenInputs.1);
      signalBits, version := bits.0, kind.0;
      var uids :- ReadMany(HashParser(), lenTokens.0, lenOutputs.1);
      tokens := tokens + uids.0;
      var ins :- ReadMany(InputParser(), lenInputs.0, uids.1);
      inputs := inputs + ins.0;
      var outs :- ReadMany(OutputParser(), lenOutputs.0, ins.1);
      outputs := outputs + outs.0;
      r := Ok(outs.1);
    }

    method GetGraphFieldsFromBytes(b: Bytes) returns (r: Result<Bytes, CodecError>)
      modifies `weight, `timestamp, `parents, `nonce
      ensures r.Err? <==> ParseGraph(b).Err?
      ensures r.Err? ==> r.error == ParseGraph(b).error
      ensures r.Ok? ==> var (g, rest) := ParseGraph(b).value;
        r.value == rest && weight == g.weight && timestamp == g.timestamp && parents == old(parents) + g.parents && nonce == g.nonce
    {
      var w :- UnpackLen(WEIGHT_SIZE, b);
      weight := w.0;
      var ts :- UnpackInt(4, w.1);
      timestamp := Some(ts.0);
      var lenParents :- UnpackInt(1, ts.1);
      var ps :- ReadMany(HashParser(), lenParents.0, lenParents.1);
      parents := parents + ps.0;
      var n :- UnpackInt(4, ps.1);
      nonce := n.0;
      r := Ok(n.1);
    }

    /** The loop that exhausts the buffer; it ends because every header takes a byte. */
    method GetHeadersFromBytes(net: Network, b: Bytes) returns (r: Option<CodecError>)
      modifies `headers
      ensures r == None <==> ParseHeaders(net, b).Ok?
      ensures r.Some? ==> ParseHeaders(net, b) == Err(r.value)
      ensures r == None ==> headers == old(headers) + ParseHeaders(net, b).value
    {
      if |b| <= 1 {
        assert headers + [] == headers;
        return None;
      }
      var buf := b;
      ghost var before := headers;
      ghost var pushed: seq<Header> := [];
      while |buf| > 0
        invariant headers == before + pushed
        invariant ParseAllHeaders(net, b).Ok? <==> ParseAllHeaders(net, buf).Ok?
        invariant ParseAllHeaders(net, b).Ok? ==> ParseAllHeaders(net, b).value == pushed + ParseAllHeaders(net, buf).value
        invariant ParseAllHeaders(net, b).Err? ==> ParseAllHeaders(net, buf).error == ParseAllHeaders(net, b).error
        decreases |buf|
      {
        var header := ParseHeader(net, buf);
        if header.Err? {
          return Some(header.error);
        }
        HeaderConsumes(net, buf);
        PushHeader(before, pushed, header.value.0, ParseAllHeaders(net, header.value.1));
        headers := headers + [header.value.0];
        pushed := pushed + [header.value.0];
        buf := header.value.1;
      }
      assert pushed + [] == pushed;
      r := None;
    }

    /** The graph fields and headers, which both kinds of transaction read last. */
    method GetGraphAndHeaders(net: Network, b: Bytes) returns (r: Option<CodecError>)
      requires parents == [] && headers == []
      modifies `weight, `timestamp, `parents, `nonce, `headers
      ensures r == None ==> ParseGraphAndHeaders(net, b) == Ok((GraphData(), headers))
      ensures r.Some? ==> ParseGraphAndHeaders(net, b) == Err(r.value)
    {
      var afterGraph := GetGraphFieldsFromBytes(b);
      if afterGraph.Err? {
        return Some(afterGraph.error);
      }
      assert [] + parents == parents && GraphData() == ParseGraph(b).value.0;
      r := GetHeadersFromBytes(net, afterGraph.value);
      if r == None {
        assert [] + ParseHeaders(net, afterGraph.value).value == ParseHeaders(net, afterGraph.value).value;
      }
    }

    /** `createFromBytes`, the hash aside. */
    static method CreateFromBytes(net: Network, b: Bytes) returns (r: Result<Transaction, CodecError>)
      ensures r.Ok? ==> fresh(r.value) && ParseTx(net, b) == Ok(r.value.Data())
      ensures r.Err? ==> ParseTx(net, b) == Err(r.error)
    {
      var tx := new Transaction([], []);
      var afterFunds :- tx.GetFundsFieldsFromBytes(b);
      NothingBefore(ParseFunds(b).value.0);
      var failed := tx.GetGraphAndHeaders(net, afterFunds);
      if failed.Some? {
        return Err(failed.value);
      }
      r := Ok(tx);
    }
  }

  lemma FiveBytes(a: Bytes, b: Bytes, c: Bytes, d: Bytes, e: Bytes, more: Bytes)
    ensures (a + b + c + d + e) + more == a + (b + (c + (d + (e + more))))
  {
  }

  lemma PushHeader(before: seq<Header>, pushed: seq<Header>, h: Header, more: Result<seq<Header>, CodecError>)
    ensures (before + pushed) + [h] == before + (pushed + [h])
    ensures more.Ok? ==> pushed + ([h] + more.value) == (pushed + [h]) + more.value
  {
  }

  lemma NothingBefore(f: Funds)
    ensures [] + f.tokens == f.tokens && [] + f.inputs == f.inputs && [] + f.outputs == f.outputs
  {
  }

  /** Writing a transaction object and reading the bytes gives an object with the same data. */
  method WriteThenRead(tx: Transaction, net: Network) returns (r: Result<Transaction, CodecError>)
    requires TxFits(net, tx.Data())
    ensures r.Ok? <==> PrintTx(tx.Data()).Ok?
    ensures r.Ok? ==> fresh(r.value) && r.value.Data() == NormalTx(tx.Data())
  {
    var bytes := tx.Serialize();
    if bytes.Err? {
      return Err(bytes.error);
    }
    TransactionRoundTrip(net, tx.Data());
    r := Transaction.CreateFromBytes(net, bytes.value);
  }

  class CreateTokenTransaction {
    const base: Transaction
    var name: string
    var symbol: string
    var tokenVersion: int

    constructor (name: string, symbol: string, base: Transaction, tokenVersion: int)
      ensures this.base == base && this.name == name && this.symbol == symbol && this.tokenVersion == tokenVersion
    {
      this.base, this.name, this.symbol, this.tokenVersion := base, name, symbol, tokenVersion;
    }

    function Info(): TokenInfo
      reads this
    {
      TokenInfo(name, symbol, tokenVersion)
    }

    function Data(): CreateTokenData
      reads this, base
    {
      CreateTokenData(base.FundsData(), Info(), base.GraphData(), base.headers)
    }

    method SerializeFundsFields(addInputData: bool) returns (r: Printed)
      ensures r == PrintCreateFunds(base.FundsData(), Info(), addInputData)
      ensures r.Ok? <==> TransfersWritable(base.FundsData().inputs, base.FundsData().outputs) && InfoWritable(Info())
      ensures r.Ok? ==> r.value == CreateFundsBytes(base.FundsData(), Info(), addInputData)
    {
      CreateFundsLayout(base.FundsData(), Info(), addInputData);
      var transfers := base.SerializeInputsOutputs(addInputData);
      if transfers.Err? {
        return Err(transfers.error);
      }
      var token := PrintTokenInfo(Info());
      if token.Err? {
        return Err(token.error);
      }
      r := Ok(ToBytes(base.signalBits, 1) + (ToBytes(base.version, 1) + (ToBytes(|base.inputs|, 1) +
              (ToBytes(|base.outputs|, 1) + (transfers.value + token.value)))));
    }

    method Serialize() returns (r: Printed)
      ensures r == PrintCreateToken(Data())
      ensures r.Ok? <==> CreateTokenWritable(Data())
      ensures r.Ok? ==> r.value == CreateTokenBytes(Data())
    {
      CreateTokenLayout(Data());
      var funds := SerializeFundsFields(true);
      if funds.Err? {
        return Err(funds.error);
      }
      var graph := base.SerializeGraphFields();
      if graph.Err? {
        return Err(graph.error);
      }
      var hs := WriteMany(HeaderPrinter(), base.headers);
      if hs.Err? {
        return Err(hs.error);
      }
      r := Ok(funds.value + (graph.value + hs.value));
    }

    method GetTokenInfoFromBytes(b: Bytes) returns (r: Result<Bytes, CodecError>)
      modifies this
      ensures r.Err? <==> ParseTokenInfo(b).Err?
      ensures r.Err? ==> r.error == ParseTokenInfo(b).error
      ensures r.Ok? ==> Info() == ParseTokenInfo(b).value.0 && r.value == ParseTokenInfo(b).value.1
    {
      var v :- UnpackInt(1, b);
      tokenVersion := v.0;
      if tokenVersion != DEPOSIT_VERSION && tokenVersion != FEE_VERSION {
        return Err(InvalidTokenInfo);
      }
      var n :- UnpackText(MAX_TOKEN_NAME_SIZE, v.1);
      name := n.0;
      var s :- UnpackText(MAX_TOKEN_SYMBOL_SIZE, n.1);
      symbol := s.0;
      r := Ok(s.1);
    }

    method GetFundsFieldsFromBytes(b: Bytes) returns (r: Result<Bytes, CodecError>)
      modifies base`signalBits, base`version, base`inputs, base`outputs
      ensures r.Err? <==> ParseCreateFunds(b).Err?
      ensures r.Err? ==> r.error == ParseCreateFunds(b).error
      ensures r.Ok? ==> var (f, rest) := ParseCreateFunds(b).value;
        && r.value == rest && base.signalBits == f.signalBits && base.version == f.version
        && base.inputs == old(base.inputs) + f.inputs && base.outputs == old(base.outputs) + f.outputs && f.tokens == []
    {
      var bits :- UnpackInt(1, b);
      var kind :- UnpackInt(1, bits.1);
      var lenInputs :- UnpackInt(1, kind.1);
      var lenOutputs :- UnpackInt(1, lenInputs.1);
      base.signalBits, base.version := bits.0, kind.0;
      var ins :- ReadMany(InputParser(), lenInputs.0, lenOutputs.1);
      base.inputs := base.inputs + ins.0;
      var outs :- ReadMany(OutputParser(), lenOutputs.0, ins.1);
      base.outputs := base.outputs + outs.0;
      r := Ok(outs.1);
    }

    /** The funds fields and the token information of a new object. */
    method GetFundsAndInfo(b: Bytes) returns (r: Result<Bytes, CodecError>)
      requires base.tokens == [] && base.inputs == [] && base.outputs == []
      modifies this, base`signalBits, base`version, base`inputs, base`outputs
      ensures r.Ok? ==> ParseFundsAndInfo(b) == Ok((base.FundsData(), Info(), r.value))
      ensures r.Err? ==> ParseFundsAndInfo(b) == Err(r.error)
    {
      var afterFunds :- GetFundsFieldsFromBytes(b);
      NothingBefore(ParseCreateFunds(b).value.0);
      assert base.FundsData() == ParseCreateFunds(b).value.0;
      r := GetTokenInfoFromBytes(afterFunds);
    }

    /** `createFromBytes`, the hash aside. */
    static method CreateFromBytes(net: Network, b: Bytes) returns (r: Result<CreateTokenTransaction, CodecError>)
      ensures r.Ok? ==> fresh(r.value) && fresh(r.value.base) && ParseCreateToken(net, b) == Ok(r.value.Data())
      ensures r.Err? ==> ParseCreateToken(net, b) == Err(r.error)
    {
      var base := new Transaction([], []);
      var tx := new CreateTokenTransaction("", "", base, DEPOSIT_VERSION);
      var afterInfo :- tx.GetFundsAndInfo(b);
      var failed := base.GetGraphAndHeaders(net, afterInfo);
      if failed.Some? {
        return Err(failed.value);
      }
      r := Ok(tx);
    }
  }

  // ----- the mint and melt entry loop -----

  /** `deserializeMintMeltEntries`: fixed-size entries at a running offset, each checked as it is
      read, against the set of indexes seen. */
  method DeserializeEntries(buf: Bytes) returns (r: Parsed<seq<SupplyEntry>>)
    ensures r == ParseSupply(buf)
  {
    if |buf| < 1 {
      return Err(NotEnoughBytes);
    }
    var numEntries := buf[0];
    if numEntries < 1 || numEntries > MAX_SUPPLY_ENTRIES {
      return Err(InvalidEntryCount);
    }
    if |buf| < 1 + numEntries * ENTRY_SIZE {
      return Err(NotEnoughBytes);
    }
    var entries: seq<SupplyEntry> := [];
    var seen: set<int> := {};
    var offset := 1;
    ghost var left := numEntries;
    PrependNothing(EntriesAt(buf, 1, numEntries));
    for i := 0 to numEntries
      invariant offset == 1 + i * ENTRY_SIZE && |entries| == i && left == numEntries - i
      invariant Progress(buf, entries, offset, left)
      invariant GoodSoFar(seen, entries)
    {
      var ok: bool;
      ok, seen, entries, offset, left := NextEntry(buf, seen, entries, offset, left);
      if !ok {
        return Err(InvalidEntry);
      }
    }
    AllEntriesRead(buf, seen, entries, offset);
    r := Ok((entries, buf[offset..]));
  }

  /** One entry, checked as it is read. */
  method NextEntry(buf: Bytes, seen: set<int>, entries: seq<SupplyEntry>, offset: nat, ghost left: nat)
    returns (ok: bool, seen': set<int>, entries': seq<SupplyEntry>, offset': nat, ghost left': nat)
    requires buf != [] && 1 <= buf[0] <= MAX_SUPPLY_ENTRIES && |buf| >= 1 + buf[0] * ENTRY_SIZE
    requires left >= 1 && offset + left * ENTRY_SIZE <= |buf| && Progress(buf, entries, offset, left) && GoodSoFar(seen, entries)
    ensures offset' == offset + ENTRY_SIZE && left' == left - 1 && |entries'| == |entries| + 1
    ensures ok ==> Progress(buf, entries', offset', left') && GoodSoFar(seen', entries')
    ensures !ok ==> ParseSupply(buf) == Err(InvalidEntry)
  {
    var entry := ReadEntry(buf, offset, entries, left);
    offset', left' := offset + ENTRY_SIZE, left - 1;
    seen', entries' := seen + {entry.tokenIndex}, entries + [entry];
    ok := EntryValid(entry) && entry.tokenIndex !in seen;
    if ok {
      GoodPush(seen, entries, entry);
    } else {
      BadEntryRefused(buf, seen, entries, entry, offset', left');
    }
  }

  /** The entries read so far are acceptable, and `seen` holds their indexes. */
  ghost predicate GoodSoFar(seen: set<int>, entries: seq<SupplyEntry>) {
    SeenExactly(seen, entries) && (forall j :: 0 <= j < |entries| ==> EntryValid(entries[j])) && UniqueIndexes(entries)
  }

  lemma GoodPush(seen: set<int>, entries: seq<SupplyEntry>, e: SupplyEntry)
    requires GoodSoFar(seen, entries) && EntryValid(e) && e.tokenIndex !in seen
    ensures GoodSoFar(seen + {e.tokenIndex}, entries + [e])
  {
    SeenPush(seen, entries, e);
  }

  /** With `n` entries left at `offset`, the list of entries is the ones read and those. */
  ghost predicate Progress(buf: Bytes, entries: seq<SupplyEntry>, offset: nat, n: nat) {
    1 <= offset <= |buf| && Prepend(entries, EntriesAt(buf, offset, n)) == EntriesAt(buf, 1, buf[0])
  }

  lemma AllEntriesRead(buf: Bytes, seen: set<int>, entries: seq<SupplyEntry>, offset: nat)
    requires buf != [] && 1 <= buf[0] <= MAX_SUPPLY_ENTRIES && |buf| >= 1 + buf[0] * ENTRY_SIZE
    requires Progress(buf, entries, offset, 0) && GoodSoFar(seen, entries) && |entries| == buf[0]
    ensures ParseSupply(buf) == Ok((entries, buf[offset..]))
  {
    assert entries + [] == entries;
  }

  ghost predicate SeenExactly(seen: set<int>, entries: seq<SupplyEntry>) {
    forall x :: x in seen <==> exists j :: 0 <= j < |entries| && entries[j].tokenIndex == x
  }

  lemma SeenPush(seen: set<int>, entries: seq<SupplyEntry>, e: SupplyEntry)
    requires SeenExactly(seen, entries)
    ensures SeenExactly(seen + {e.tokenIndex}, entries + [e])
    ensures UniqueIndexes(entries) && e.tokenIndex !in seen ==> UniqueIndexes(entries + [e])
  {
    var all := entries + [e];
    forall x ensures x in seen + {e.tokenIndex} <==> exists j :: 0 <= j < |all| && all[j].tokenIndex == x {
      if x in seen {
        var j :| 0 <= j < |entries| && entries[j].tokenIndex == x;
        assert all[j].tokenIndex == x;
      } else if x == e.tokenIndex {
        assert all[|entries|].tokenIndex == x;
      }
    }
  }

  ghost function EntriesAt(buf: Bytes, offset: nat, n: nat): Parsed<seq<SupplyEntry>>
    requires offset <= |buf|
  {
    ParseMany(EntryParser(), n, buf[offset..])
  }

  method ReadEntry(buf: Bytes, offset: nat, ghost entries: seq<SupplyEntry>, ghost n: nat) returns (e: SupplyEntry)
    requires offset + ENTRY_SIZE <= |buf| && n >= 1 && Progress(buf, entries, offset, n)
    ensures Progress(buf, entries + [e], offset + ENTRY_SIZE, n - 1)
    ensures e.tokenIndex >= 0 && e.amount >= 0
  {
    var b := buf[offset..];
    e := SupplyEntry(FromBytes(b[..1]), FromBytes(b[1..][..8]));
    EntryAt(buf, offset, e, n);
    PrependStep(entries, e, EntriesAt(buf, offset + ENTRY_SIZE, n - 1));
  }

  lemma EntryAt(buf: Bytes, offset: nat, e: SupplyEntry, n: nat)
    requires offset + ENTRY_SIZE <= |buf| && n >= 1
    requires e == SupplyEntry(FromBytes(buf[offset..][..1]), FromBytes(buf[offset..][1..][..8]))
    ensures EntriesAt(buf, offset, n) == Prepend([e], EntriesAt(buf, offset + ENTRY_SIZE, n - 1))
  {
    assert buf[offset..][1..][8..] == buf[offset + ENTRY_SIZE..];
  }

  /** With enough bytes, reading fixed-size entries cannot fail. */
  lemma {:induction false} EnoughEntries(n: nat, b: Bytes)
    requires |b| >= n * ENTRY_SIZE
    ensures ParseMany(EntryParser(), n, b).Ok? && |ParseMany(EntryParser(), n, b).value.0| == n
  {
    if n > 0 {
      EnoughEntries(n - 1, b[1..][8..]);
    }
  }

  lemma BadEntryRefused(buf: Bytes, seen: set<int>, entries: seq<SupplyEntry>, e: SupplyEntry, offset: nat, n: nat)
    requires buf != [] && 1 <= buf[0] <= MAX_SUPPLY_ENTRIES && |buf| >= 1 + buf[0] * ENTRY_SIZE
    requires offset <= |buf| && |buf| - offset >= n * ENTRY_SIZE && Progress(buf, entries + [e], offset, n)
    requires SeenExactly(seen, entries) && (!EntryValid(e) || e.tokenIndex in seen)
    ensures ParseSupply(buf) == Err(InvalidEntry)
  {
    EnoughEntries(n, buf[offset..]);
    BadEntry(entries, e, EntriesAt(buf, offset, n).value.0);
    assert (entries + [e]) + EntriesAt(buf, offset, n).value.0 == entries + ([e] + EntriesAt(buf, offset, n).value.0);
  }

  /** An invalid or repeated entry spoils the whole list. */
  lemma BadEntry(entries: seq<SupplyEntry>, e: SupplyEntry, others: seq<SupplyEntry>)
    requires !EntryValid(e) || exists k :: 0 <= k < |entries| && entries[k].tokenIndex == e.tokenIndex
    ensures !EntriesValid(entries + ([e] + others))
  {
    var all := entries + ([e] + others);
    assert all[|entries|] == e;
    if EntryValid(e) {
      var k :| 0 <= k < |entries| && entries[k].tokenIndex == e.tokenIndex;
      assert all[k].tokenIndex == all[|entries|].tokenIndex;
    }
  }

  // ----- the fee header -----

  const MAX_FEE_HEADER_ENTRIES: nat := 16

  ghost predicate FeesValid(entries: seq<FeeEntry>) {
    && |entries| <= MAX_FEE_HEADER_ENTRIES
    && (forall i :: 0 <= i < |entries| ==> entries[i].tokenIndex >= 0 && entries[i].amount > 0)
    && (forall i, j :: 0 <= i < j < |entries| ==> entries[i].tokenIndex != entries[j].tokenIndex)
  }

  /** `FeeHeader.validate` */
  method ValidateFees(entries: seq<FeeEntry>) returns (ok: bool)
    ensures ok <==> FeesValid(entries)
  {
    if |entries| > MAX_FEE_HEADER_ENTRIES {
      return false;
    }
    var seen: set<int> := {};
    for i := 0 to |entries|
      invariant seen == set e | e in entries[..i] :: e.tokenIndex
      invariant forall j :: 0 <= j < i ==> entries[j].tokenIndex >= 0 && entries[j].amount > 0
      invariant forall j, k :: 0 <= j < k < i ==> entries[j].tokenIndex != entries[k].tokenIndex
    {
      var entry := entries[i];
      assert entries[..i+1] == entries[..i] + [entry];
      if entry.tokenIndex in seen || entry.tokenIndex < 0 || entry.amount <= 0 {
        return false;
      }
      seen := seen + {entry.tokenIndex};
    }
    ok := true;
  }
}
