/** The six vertex headers on the wire (src/headers/, src/nano_contracts/header.ts) and the header
    section of a transaction, which has no count (src/models/transaction.ts:639-664). */
module HeaderWire {
  import opened Wrappers
  import opened SeqSums
  import opened Bytes
  import opened Text
  import opened Wire
  import Leb128
  import WalletTypes

  // ----- addresses -----

  /** The version bytes of a network and the address checksum. */
  datatype Network = Network(p2pkh: byte, p2sh: byte, checksum: Bytes -> Bytes)

  const ADDRESS_SIZE: nat := 25

  predicate ValidAddress(net: Network, a: Bytes) {
    && |a| == ADDRESS_SIZE
    && (a[0] == net.p2pkh || a[0] == net.p2sh)
    && a[21..] == net.checksum(a[..21])
  }

  /** `getAddressFromBytes`; the address is given by its decoded bytes. */
  function ParseAddress(net: Network, b: Bytes): Parsed<Bytes> {
    var a :- UnpackLen(ADDRESS_SIZE, b);
    if ValidAddress(net, a.0) then Ok(a) else Err(InvalidAddressBytes)
  }

  // ----- the headers -----

  datatype NanoAction = NanoAction(kind: int, tokenIndex: int, amount: int)

  datatype NanoHeader = NanoHeader(
    id: string,
    method_: string,
    args: Bytes,
    actions: seq<NanoAction>,
    seqnum: int,
    address: Bytes,
    script: Option<Bytes>)

  datatype FeeEntry = FeeEntry(tokenIndex: int, amount: int)

  datatype SupplyEntry = SupplyEntry(tokenIndex: int, amount: int)

  datatype Header =
    | Nano(nano: NanoHeader)
    | FeePayment(fees: seq<FeeEntry>)
    | Shielded(outputs: seq<ShieldedOutput>)
    | UnshieldBalance(excess: Bytes)
    | Mint(entries: seq<SupplyEntry>)
    | Melt(entries: seq<SupplyEntry>)

  const NANO_ID: byte := 0x10
  const FEE_ID: byte := 0x11
  const SHIELDED_ID: byte := 0x12
  const UNSHIELD_ID: byte := 0x13
  const MINT_ID: byte := 0x14
  const MELT_ID: byte := 0x15

  const MAX_SUPPLY_ENTRIES: nat := 16
  const EXCESS_SIZE: nat := 32

  // ----- nano header -----

  function PrintAction(a: NanoAction): Printed {
    var amount :- OutputValueToBytes(a.amount);
    Ok(ToBytes(a.kind, 1) + ToBytes(a.tokenIndex, 1) + amount)
  }

  function ActionPrinter(): NanoAction -> Printed { (a: NanoAction) => PrintAction(a) }

  function ParseAction(b: Bytes): Parsed<NanoAction> {
    var kind :- UnpackInt(1, b);
    var tokenIndex :- UnpackInt(1, kind.1);
    var amount :- BytesToOutputValue(tokenIndex.1);
    Ok((NanoAction(kind.0, tokenIndex.0, amount.0), amount.1))
  }

  function ActionParser(): Bytes -> Parsed<NanoAction> { (b: Bytes) => ParseAction(b) }

  function NormalAction(): NanoAction -> NanoAction {
    (a: NanoAction) => NanoAction(a.kind % 256, a.tokenIndex % 256, a.amount)
  }

  /** The length takes at most two LEB128 bytes; an absent script is printed as an empty one. */
  function PrintScript(script: Option<Bytes>): Printed {
    var s := if script.Some? then script.value else [];
    var len := Leb128.Encode(|s|, false);
    if |len| > 2 then Err(TooManyLebBytes) else Ok(len + s)
  }

  function ParseScript(b: Bytes): Parsed<Option<Bytes>> {
    var len :- Leb128.Decode(b, false, Some(2));
    if len.0 <= 0 then Ok((None, len.1))
    else
      var s :- UnpackLen(len.0, len.1);
      Ok((Some(s.0), s.1))
  }

  function PrintNano(h: NanoHeader): Printed {
    var id :- HexToBuffer(h.id);
    if h.seqnum < 0 then Err(NegativeUnsigned)
    else
      var actions :- PrintMany(ActionPrinter(), h.actions);
      var script :- PrintScript(h.script);
      Ok([NANO_ID] + (id + (Leb128.Encode(h.seqnum, false) + (Prefixed(1, ToAscii(h.method_)) +
         (Prefixed(2, h.args) + (ToBytes(|h.actions|, 1) + (actions + (h.address + script))))))))
  }

  /** `NanoContractHeader.deserialize`, after the header id. */
  function ParseNano(net: Network, b: Bytes): Parsed<Header> {
    var id :- ParseHash(b);
    var seqnum :- Leb128.Decode(id.1, false, Some(8));
    var name :- UnpackPrefixed(1, seqnum.1);
    ParseNanoBody(net, id.0, seqnum.0, FromAscii(name.0), name.1)
  }

  function ParseNanoBody(net: Network, id: string, seqnum: int, name: string, b: Bytes): Parsed<Header> {
    var args :- UnpackPrefixed(2, b);
    var count :- UnpackInt(1, args.1);
    var actions :- ParseMany(ActionParser(), count.0, count.1);
    ParseNanoEnd(net, NanoHeader(id, name, args.0, actions.0, seqnum, [], None), actions.1)
  }

  function ParseNanoEnd(net: Network, h: NanoHeader, b: Bytes): Parsed<Header> {
    var address :- ParseAddress(net, b);
    var script :- ParseScript(address.1);
    Ok((Nano(h.(address := address.0, script := script.0)), script.1))
  }

  predicate NanoFits(net: Network, h: NanoHeader) {
    && IsHash(h.id) && h.seqnum < Leb128.Pow128(8)
    && |h.method_| < 256 && |h.args| < 0x1_0000 && |h.actions| < 256
    && ValidAddress(net, h.address)
  }

  function NormalNano(h: NanoHeader): NanoHeader {
    h.(id := LowerHex(h.id), method_ := FromAscii(ToAscii(h.method_)), actions := Map(h.actions, NormalAction()),
       script := if h.script == Some([]) then None else h.script)
  }

  lemma ActionBack(a: NanoAction, rest: Bytes)
    requires PrintAction(a).Ok?
    ensures ParseAction(PrintAction(a).value + rest) == Ok((NormalAction()(a), rest))
  {
    var kind, index, amount := ToBytes(a.kind, 1), ToBytes(a.tokenIndex, 1), OutputValueToBytes(a.amount).value;
    Regroup(kind, index, amount, rest);
    ByteBack(a.kind, index + (amount + rest));
    ByteBack(a.tokenIndex, amount + rest);
    OutputValueRoundTrip(a.amount, rest);
  }

  lemma ActionsBack(actions: seq<NanoAction>, rest: Bytes)
    requires PrintMany(ActionPrinter(), actions).Ok?
    ensures ParseMany(ActionParser(), |actions|, PrintMany(ActionPrinter(), actions).value + rest)
         == Ok((Map(actions, NormalAction()), rest))
  {
    forall a | a in actions ensures ReadsBack(ActionPrinter(), ActionParser(), NormalAction(), a) {
      if ActionPrinter()(a).Ok? {
        forall more: Bytes ensures ActionParser()(ActionPrinter()(a).value + more) == Ok((NormalAction()(a), more)) {
          ActionBack(a, more);
        }
      }
    }
    ManyBack(ActionPrinter(), ActionParser(), NormalAction(), actions, rest);
  }

  lemma ScriptBack(script: Option<Bytes>, rest: Bytes)
    requires PrintScript(script).Ok?
    ensures ParseScript(PrintScript(script).value + rest) == Ok((if script == Some([]) then None else script, rest))
  {
    var s := if script.Some? then script.value else [];
    var len := Leb128.Encode(|s|, false);
    assert (len + s) + rest == len + (s + rest);
    Leb128.Leb128RoundTrip(|s|, false, Some(2), s + rest);
    UnpackLenBack(s, rest);
    assert s == [] ==> s + rest == rest;
  }

  lemma AddressBack(net: Network, a: Bytes, rest: Bytes)
    requires ValidAddress(net, a)
    ensures ParseAddress(net, a + rest) == Ok((a, rest))
  {
    UnpackLenBack(a, rest);
  }

  lemma NanoEndBack(net: Network, h: NanoHeader, address: Bytes, script: Option<Bytes>, rest: Bytes)
    requires ValidAddress(net, address) && PrintScript(script).Ok?
    ensures ParseNanoEnd(net, h, address + (PrintScript(script).value + rest))
         == Ok((Nano(h.(address := address, script := if script == Some([]) then None else script)), rest))
  {
    AddressBack(net, address, PrintScript(script).value + rest);
    ScriptBack(script, rest);
  }

  lemma CountBack(n: nat, rest: Bytes)
    requires n < 256
    ensures UnpackInt(1, ToBytes(n, 1) + rest) == Ok((n, rest))
  {
    ByteBack(n, rest);
  }

  lemma NanoBodyBack(net: Network, id: string, seqnum: int, name: string, args: Bytes, actions: seq<NanoAction>, tail: Bytes)
    requires |args| < 0x1_0000 && |actions| < 256 && PrintMany(ActionPrinter(), actions).Ok?
    ensures ParseNanoBody(net, id, seqnum, name,
              Prefixed(2, args) + (ToBytes(|actions|, 1) + (PrintMany(ActionPrinter(), actions).value + tail)))
         == ParseNanoEnd(net, NanoHeader(id, name, args, Map(actions, NormalAction()), seqnum, [], None), tail)
  {
    ShortBack(args, ToBytes(|actions|, 1) + (PrintMany(ActionPrinter(), actions).value + tail));
    CountBack(|actions|, PrintMany(ActionPrinter(), actions).value + tail);
    ActionsBack(actions, tail);
  }

  lemma NanoStartBack(net: Network, id: string, seqnum: nat, name: string, tail: Bytes)
    requires IsHash(id) && IsHexa(id) && seqnum < Leb128.Pow128(8) && |name| < 256
    ensures ParseNano(net, FromHex(id) + (Leb128.Encode(seqnum, false) + (Prefixed(1, ToAscii(name)) + tail)))
         == ParseNanoBody(net, LowerHex(id), seqnum, FromAscii(ToAscii(name)), tail)
  {
    var more := Prefixed(1, ToAscii(name)) + tail;
    HashBack(id, Leb128.Encode(seqnum, false) + more);
    Leb128.EncodedSize(seqnum, 8);
    Leb128.Leb128RoundTrip(seqnum, false, Some(8), more);
    ByteLengthBack(ToAscii(name), tail);
  }

  lemma ByteLengthBack(x: Bytes, rest: Bytes)
    requires |x| < 256
    ensures UnpackPrefixed(1, Prefixed(1, x) + rest) == Ok((x, rest))
  {
    Powers();
    PrefixedBack(1, x, rest);
  }

  lemma NanoRoundTrip(net: Network, h: NanoHeader, rest: Bytes)
    requires NanoFits(net, h) && PrintNano(h).Ok?
    ensures |PrintNano(h).value| >= 2 && PrintNano(h).value[0] == NANO_ID
    ensures ParseNano(net, PrintNano(h).value[1..] + rest) == Ok((Nano(NormalNano(h)), rest))
  {
    var actions, script := PrintMany(ActionPrinter(), h.actions).value, PrintScript(h.script).value;
    var end := h.address + (script + rest);
    var body := Prefixed(2, h.args) + (ToBytes(|h.actions|, 1) + (actions + end));
    NanoSplit(h, rest);
    NanoStartBack(net, h.id, h.seqnum, h.method_, body);
    NanoBodyBack(net, LowerHex(h.id), h.seqnum, FromAscii(ToAscii(h.method_)), h.args, h.actions, end);
    NanoEndBack(net, NanoHeader(LowerHex(h.id), FromAscii(ToAscii(h.method_)), h.args, Map(h.actions, NormalAction()), h.seqnum, [], None),
                h.address, h.script, rest);
  }

  lemma NanoSplit(h: NanoHeader, rest: Bytes)
    requires PrintNano(h).Ok?
    ensures PrintNano(h).value[0] == NANO_ID && |PrintNano(h).value| >= 2
    ensures PrintNano(h).value[1..] + rest
         == FromHex(h.id) + (Leb128.Encode(h.seqnum, false) + (Prefixed(1, ToAscii(h.method_)) +
            (Prefixed(2, h.args) + (ToBytes(|h.actions|, 1) + (PrintMany(ActionPrinter(), h.actions).value + (h.address + (PrintScript(h.script).value + rest)))))))
  {
    var id, seqnum, name := FromHex(h.id), Leb128.Encode(h.seqnum, false), Prefixed(1, ToAscii(h.method_));
    var args, count, actions := Prefixed(2, h.args), ToBytes(|h.actions|, 1), PrintMany(ActionPrinter(), h.actions).value;
    var script := PrintScript(h.script).value;
    var tail := id + (seqnum + (name + (args + (count + (actions + (h.address + script))))));
    assert PrintNano(h).value == [NANO_ID] + tail;
    assert ([NANO_ID] + tail)[1..] == tail;
    RegroupEight(id, seqnum, name, args, count, actions, h.address, script, rest);
  }

  lemma RegroupEight(a: Bytes, b: Bytes, c: Bytes, d: Bytes, e: Bytes, f: Bytes, g: Bytes, h: Bytes, rest: Bytes)
    ensures (a + (b + (c + (d + (e + (f + (g + h))))))) + rest == a + (b + (c + (d + (e + (f + (g + (h + rest)))))))
  {
    RegroupFour(a, b, c, d + (e + (f + (g + h))), rest);
    RegroupFour(d, e, f, g + h, rest);
    assert (g + h) + rest == g + (h + rest);
  }

  lemma RegroupFour(a: Bytes, b: Bytes, c: Bytes, d: Bytes, rest: Bytes)
    ensures (a + (b + (c + d))) + rest == a + (b + (c + (d + rest)))
  {
  }

  /** What follows the header id and the count. */
  lemma TailOf(id: byte, n: Bytes, es: Bytes, rest: Bytes)
    ensures ([id] + (n + es))[1..] + rest == n + (es + rest)
  {
    assert ([id] + (n + es))[1..] == n + es;
  }

  // ----- fee header -----

  function PrintFeeEntry(e: FeeEntry): Printed {
    var amount :- OutputValueToBytes(e.amount);
    Ok(ToBytes(e.tokenIndex, 1) + amount)
  }

  function FeeEntryPrinter(): FeeEntry -> Printed { (e: FeeEntry) => PrintFeeEntry(e) }

  function ParseFeeEntry(b: Bytes): Parsed<FeeEntry> {
    var tokenIndex :- UnpackInt(1, b);
    var amount :- BytesToOutputValue(tokenIndex.1);
    Ok((FeeEntry(tokenIndex.0, amount.0), amount.1))
  }

  function FeeEntryParser(): Bytes -> Parsed<FeeEntry> { (b: Bytes) => ParseFeeEntry(b) }

  function NormalFeeEntry(): FeeEntry -> FeeEntry { (e: FeeEntry) => e.(tokenIndex := e.tokenIndex % 256) }

  function PrintFee(entries: seq<FeeEntry>): Printed {
    var es :- PrintMany(FeeEntryPrinter(), entries);
    Ok([FEE_ID] + (ToBytes(|entries|, 1) + es))
  }

  /** `FeeHeader.deserialize`, after the header id. */
  function ParseFee(b: Bytes): Parsed<Header> {
    var count :- UnpackInt(1, b);
    var entries :- ParseMany(FeeEntryParser(), count.0, count.1);
    Ok((FeePayment(entries.0), entries.1))
  }

  lemma FeeEntryBack(e: FeeEntry, rest: Bytes)
    requires PrintFeeEntry(e).Ok?
    ensures ParseFeeEntry(PrintFeeEntry(e).value + rest) == Ok((NormalFeeEntry()(e), rest))
  {
    var amount := OutputValueToBytes(e.amount).value;
    FeeEntrySplit(e, rest);
    ByteBack(e.tokenIndex, amount + rest);
    OutputValueRoundTrip(e.amount, rest);
  }

  lemma FeeEntrySplit(e: FeeEntry, rest: Bytes)
    requires PrintFeeEntry(e).Ok?
    ensures PrintFeeEntry(e).value + rest == ToBytes(e.tokenIndex, 1) + (OutputValueToBytes(e.amount).value + rest)
  {
  }

  lemma FeeEntriesBack(entries: seq<FeeEntry>, rest: Bytes)
    requires PrintMany(FeeEntryPrinter(), entries).Ok?
    ensures ParseMany(FeeEntryParser(), |entries|, PrintMany(FeeEntryPrinter(), entries).value + rest)
         == Ok((Map(entries, NormalFeeEntry()), rest))
  {
    forall e | e in entries ensures ReadsBack(FeeEntryPrinter(), FeeEntryParser(), NormalFeeEntry(), e) {
      if FeeEntryPrinter()(e).Ok? {
        forall more: Bytes ensures FeeEntryParser()(FeeEntryPrinter()(e).value + more) == Ok((NormalFeeEntry()(e), more)) {
          FeeEntryBack(e, more);
        }
      }
    }
    ManyBack(FeeEntryPrinter(), FeeEntryParser(), NormalFeeEntry(), entries, rest);
  }

  lemma FeeRoundTrip(entries: seq<FeeEntry>, rest: Bytes)
    requires |entries| < 256 && PrintFee(entries).Ok?
    ensures |PrintFee(entries).value| >= 2 && PrintFee(entries).value[0] == FEE_ID
    ensures ParseFee(PrintFee(entries).value[1..] + rest) == Ok((FeePayment(Map(entries, NormalFeeEntry())), rest))
  {
    TailOf(FEE_ID, ToBytes(|entries|, 1), PrintMany(FeeEntryPrinter(), entries).value, rest);
    FeeBodyBack(entries, rest);
  }

  lemma FeeBodyBack(entries: seq<FeeEntry>, rest: Bytes)
    requires |entries| < 256 && PrintMany(FeeEntryPrinter(), entries).Ok?
    ensures ParseFee(ToBytes(|entries|, 1) + (PrintMany(FeeEntryPrinter(), entries).value + rest))
         == Ok((FeePayment(Map(entries, NormalFeeEntry())), rest))
  {
    CountBack(|entries|, PrintMany(FeeEntryPrinter(), entries).value + rest);
    FeeEntriesBack(entries, rest);
  }

  // ----- shielded outputs header -----

  function PrintShieldedHeader(outputs: seq<ShieldedOutput>): Printed {
    if !(1 <= |outputs| <= WalletTypes.MAX_SHIELDED_OUTPUTS) then Err(InvalidEntryCount)
    else
      var os :- PrintMany(ShieldedPrinter(), outputs);
      Ok([SHIELDED_ID] + (ToBytes(|outputs|, 1) + os))
  }

  /** `ShieldedOutputsHeader.deserialize`, after the header id. */
  function ParseShieldedHeader(b: Bytes): Parsed<Header> {
    var count :- UnpackInt(1, b);
    if !(1 <= count.0 <= WalletTypes.MAX_SHIELDED_OUTPUTS) then Err(InvalidEntryCount)
    else
      var outputs :- ParseMany(ShieldedParser(), count.0, count.1);
      Ok((Shielded(outputs.0), outputs.1))
  }

  lemma ShieldedHeaderRoundTrip(outputs: seq<ShieldedOutput>, rest: Bytes)
    requires PrintShieldedHeader(outputs).Ok? && forall o :: o in outputs ==> ShieldedFits(o) && WithinMaxima(o)
    ensures |PrintShieldedHeader(outputs).value| >= 2 && PrintShieldedHeader(outputs).value[0] == SHIELDED_ID
    ensures ParseShieldedHeader(PrintShieldedHeader(outputs).value[1..] + rest) == Ok((Shielded(Map(outputs, NormalShielded())), rest))
  {
    TailOf(SHIELDED_ID, ToBytes(|outputs|, 1), PrintMany(ShieldedPrinter(), outputs).value, rest);
    ShieldedListBack(outputs, rest);
  }

  lemma ShieldedListBack(outputs: seq<ShieldedOutput>, rest: Bytes)
    requires 1 <= |outputs| <= WalletTypes.MAX_SHIELDED_OUTPUTS && PrintMany(ShieldedPrinter(), outputs).Ok?
    requires forall o :: o in outputs ==> ShieldedFits(o) && WithinMaxima(o)
    ensures ParseShieldedHeader(ToBytes(|outputs|, 1) + (PrintMany(ShieldedPrinter(), outputs).value + rest))
         == Ok((Shielded(Map(outputs, NormalShielded())), rest))
  {
    CountBack(|outputs|, PrintMany(ShieldedPrinter(), outputs).value + rest);
    ShieldedOutputsBack(outputs, rest);
  }

  // ----- unshield balance header -----

  /** `UnshieldBalanceHeader.deserialize`, after the header id. */
  function ParseUnshield(b: Bytes): Parsed<Header> {
    var excess :- UnpackLen(EXCESS_SIZE, b);
    Ok((UnshieldBalance(excess.0), excess.1))
  }

  lemma UnshieldRoundTrip(excess: Bytes, rest: Bytes)
    requires |excess| == EXCESS_SIZE
    ensures ParseUnshield(([UNSHIELD_ID] + excess)[1..] + rest) == Ok((UnshieldBalance(excess), rest))
  {
    assert ([UNSHIELD_ID] + excess)[1..] == excess;
    UnpackLenBack(excess, rest);
  }

  // ----- mint and melt headers -----

  predicate EntryValid(e: SupplyEntry) {
    1 <= e.tokenIndex <= MAX_SUPPLY_ENTRIES && 1 <= e.amount < 0x1_0000_0000_0000_0000
  }

  predicate UniqueIndexes(entries: seq<SupplyEntry>) {
    forall i, j :: 0 <= i < j < |entries| ==> entries[i].tokenIndex != entries[j].tokenIndex
  }

  /** `validateMintMeltEntries` */
  predicate EntriesValid(entries: seq<SupplyEntry>) {
    && 1 <= |entries| <= MAX_SUPPLY_ENTRIES
    && (forall i :: 0 <= i < |entries| ==> EntryValid(entries[i]))
    && UniqueIndexes(entries)
  }

  const ENTRY_SIZE: nat := 9

  function EntryBytes(e: SupplyEntry): (b: Bytes)
    ensures |b| == ENTRY_SIZE
  {
    ToBytes(e.tokenIndex, 1) + ToBytes(e.amount, 8)
  }

  function EntryPrinter(): SupplyEntry -> Printed { (e: SupplyEntry) => Ok(EntryBytes(e)) }

  function ParseEntry(b: Bytes): Parsed<SupplyEntry> {
    var tokenIndex :- UnpackInt(1, b);
    var amount :- UnpackInt(8, tokenIndex.1);
    Ok((SupplyEntry(tokenIndex.0, amount.0), amount.1))
  }

  function EntryParser(): Bytes -> Parsed<SupplyEntry> { (b: Bytes) => ParseEntry(b) }

  /** `serialize` of both headers validates first. */
  function PrintSupply(id: byte, entries: seq<SupplyEntry>): Printed {
    if !EntriesValid(entries) then Err(InvalidEntry)
    else
      var es :- PrintMany(EntryPrinter(), entries);
      Ok([id] + ([|entries|] + es))
  }

  /** `deserializeMintMeltEntries` */
  function ParseSupply(b: Bytes): Parsed<seq<SupplyEntry>> {
    if |b| < 1 then Err(NotEnoughBytes)
    else if !(1 <= b[0] <= MAX_SUPPLY_ENTRIES) then Err(InvalidEntryCount)
    else if |b| < 1 + b[0] * ENTRY_SIZE then Err(NotEnoughBytes)
    else
      var entries :- ParseMany(EntryParser(), b[0], b[1..]);
      if EntriesValid(entries.0) then Ok(entries) else Err(InvalidEntry)
  }

  function SameEntry(): SupplyEntry -> SupplyEntry { (e: SupplyEntry) => e }

  lemma EntryBack(e: SupplyEntry, rest: Bytes)
    requires EntryValid(e)
    ensures ParseEntry(EntryBytes(e) + rest) == Ok((e, rest))
  {
    var index, amount := ToBytes(e.tokenIndex, 1), ToBytes(e.amount, 8);
    assert (index + amount) + rest == index + (amount + rest);
    ByteBack(e.tokenIndex, amount + rest);
    AmountBack(e.amount, rest);
  }

  lemma AmountBack(amount: nat, rest: Bytes)
    requires amount < 0x1_0000_0000_0000_0000
    ensures UnpackInt(8, ToBytes(amount, 8) + rest) == Ok((amount, rest))
  {
    Powers();
    UnpackIntBack(amount, 8, rest);
    RemainderIs(amount, Pow256(8), 0, amount);
  }

  lemma {:induction false} EntriesSize(entries: seq<SupplyEntry>)
    ensures PrintMany(EntryPrinter(), entries).Ok? && |PrintMany(EntryPrinter(), entries).value| == |entries| * ENTRY_SIZE
  {
    if entries != [] {
      EntriesSize(entries[1..]);
    }
  }

  lemma EntriesBack(entries: seq<SupplyEntry>, rest: Bytes)
    requires forall i :: 0 <= i < |entries| ==> EntryValid(entries[i])
    ensures PrintMany(EntryPrinter(), entries).Ok?
    ensures ParseMany(EntryParser(), |entries|, PrintMany(EntryPrinter(), entries).value + rest) == Ok((entries, rest))
  {
    EntriesSize(entries);
    forall e | e in entries ensures ReadsBack(EntryPrinter(), EntryParser(), SameEntry(), e) {
      forall more: Bytes ensures EntryParser()(EntryPrinter()(e).value + more) == Ok((SameEntry()(e), more)) {
        EntryBack(e, more);
      }
    }
    ManyBack(EntryPrinter(), EntryParser(), SameEntry(), entries, rest);
    assert Map(entries, SameEntry()) == entries;
  }

  /** Whatever a mint or melt header prints is read back unchanged: the printer validates. */
  lemma SupplyRoundTrip(id: byte, entries: seq<SupplyEntry>, rest: Bytes)
    requires PrintSupply(id, entries).Ok?
    ensures |PrintSupply(id, entries).value| >= 2 && PrintSupply(id, entries).value[0] == id
    ensures ParseSupply(PrintSupply(id, entries).value[1..] + rest) == Ok((entries, rest))
  {
    EntriesSize(entries);
    TailOf(id, [|entries| as byte], PrintMany(EntryPrinter(), entries).value, rest);
    SupplyBodyBack(entries, rest);
  }

  lemma SupplyBodyBack(entries: seq<SupplyEntry>, rest: Bytes)
    requires EntriesValid(entries) && PrintMany(EntryPrinter(), entries).Ok?
    ensures ParseSupply([|entries| as byte] + (PrintMany(EntryPrinter(), entries).value + rest)) == Ok((entries, rest))
  {
    EntriesSize(entries);
    EntriesBack(entries, rest);
    var more := PrintMany(EntryPrinter(), entries).value + rest;
    assert ([|entries| as byte] + more)[1..] == more;
  }

  lemma EntryCanonical(b: Bytes)
    requires ParseEntry(b).Ok?
    ensures EntryBytes(ParseEntry(b).value.0) + ParseEntry(b).value.1 == b
  {
    BytesRoundTrip(b[..1]);
    BytesRoundTrip(b[1..][..8]);
    assert b == b[..1] + (b[1..][..8] + b[1..][8..]);
  }

  lemma {:induction false} EntriesCanonical(n: nat, b: Bytes)
    requires ParseMany(EntryParser(), n, b).Ok?
    ensures var r := ParseMany(EntryParser(), n, b).value;
      |r.0| == n && PrintMany(EntryPrinter(), r.0).Ok? && PrintMany(EntryPrinter(), r.0).value + r.1 == b
  {
    if n == 0 {
      assert [] + b == b;
    } else {
      var first := ParseEntry(b).value;
      EntryCanonical(b);
      EntriesCanonical(n - 1, first.1);
      var others := ParseMany(EntryParser(), n - 1, first.1).value;
      PrintFirst(first.0, others.0);
      Regroup([], EntryBytes(first.0), PrintMany(EntryPrinter(), others.0).value, others.1);
      assert [] + EntryBytes(first.0) == EntryBytes(first.0);
    }
  }

  lemma PrintFirst(e: SupplyEntry, others: seq<SupplyEntry>)
    requires PrintMany(EntryPrinter(), others).Ok?
    ensures PrintMany(EntryPrinter(), [e] + others) == Ok(EntryBytes(e) + PrintMany(EntryPrinter(), others).value)
  {
    assert ([e] + others)[1..] == others;
  }

  /** And whatever bytes are read as one are exactly the bytes it prints. */
  lemma SupplyIsCanonical(id: byte, b: Bytes)
    requires ParseSupply(b).Ok?
    ensures var (entries, rest) := ParseSupply(b).value;
      PrintSupply(id, entries).Ok? && PrintSupply(id, entries).value + rest == [id] + b
  {
    var (entries, rest) := ParseSupply(b).value;
    EntriesCanonical(b[0], b[1..]);
    SupplySplit(id, entries, PrintMany(EntryPrinter(), entries).value, rest, b);
  }

  lemma SupplySplit(id: byte, entries: seq<SupplyEntry>, es: Bytes, rest: Bytes, b: Bytes)
    requires EntriesValid(entries) && PrintMany(EntryPrinter(), entries) == Ok(es)
    requires b != [] && |entries| == b[0] && es + rest == b[1..]
    ensures PrintSupply(id, entries).Ok? && PrintSupply(id, entries).value + rest == [id] + b
  {
    assert b == [b[0]] + b[1..];
    RegroupThree([id], [b[0]], es, rest);
  }

  // ----- any header -----

  function PrintHeader(h: Header): Printed {
    match h
    case Nano(nano) => PrintNano(nano)
    case FeePayment(fees) => PrintFee(fees)
    case Shielded(outputs) => PrintShieldedHeader(outputs)
    case UnshieldBalance(excess) => Ok([UNSHIELD_ID] + excess)
    case Mint(entries) => PrintSupply(MINT_ID, entries)
    case Melt(entries) => PrintSupply(MELT_ID, entries)
  }

  function HeaderPrinter(): Header -> Printed { (h: Header) => PrintHeader(h) }

  /** Dispatch on the header id. */
  function ParseHeader(net: Network, b: Bytes): Parsed<Header>
    requires b != []
  {
    ParseHeaderBody(net, b[0], b[1..])
  }

  function ParseHeaderBody(net: Network, id: byte, b: Bytes): Parsed<Header> {
    if id == NANO_ID then ParseNano(net, b)
    else if id == FEE_ID then ParseFee(b)
    else if id == SHIELDED_ID then ParseShieldedHeader(b)
    else if id == UNSHIELD_ID then ParseUnshield(b)
    else if id == MINT_ID then
      var entries :- ParseSupply(b);
      Ok((Mint(entries.0), entries.1))
    else if id == MELT_ID then
      var entries :- ParseSupply(b);
      Ok((Melt(entries.0), entries.1))
    else Err(InvalidHeaderId)
  }

  predicate HeaderFits(net: Network, h: Header) {
    match h
    case Nano(nano) => NanoFits(net, nano)
    case FeePayment(fees) => |fees| < 256
    case Shielded(outputs) => forall o :: o in outputs ==> ShieldedFits(o) && WithinMaxima(o)
    case UnshieldBalance(excess) => |excess| == EXCESS_SIZE
    case Mint(_) => true
    case Melt(_) => true
  }

  function NormalHeader(): Header -> Header {
    (h: Header) =>
      match h
      case Nano(nano) => Nano(NormalNano(nano))
      case FeePayment(fees) => FeePayment(Map(fees, NormalFeeEntry()))
      case Shielded(outputs) => Shielded(Map(outputs, NormalShielded()))
      case _ => h
  }

  lemma HeaderBodyBack(net: Network, h: Header, rest: Bytes)
    requires HeaderFits(net, h) && PrintHeader(h).Ok?
    ensures |PrintHeader(h).value| >= 2
    ensures ParseHeaderBody(net, PrintHeader(h).value[0], PrintHeader(h).value[1..] + rest) == Ok((NormalHeader()(h), rest))
  {
    match h {
      case Nano(nano) => NanoRoundTrip(net, nano, rest);
      case FeePayment(fees) => FeeRoundTrip(fees, rest);
      case Shielded(outputs) => ShieldedHeaderRoundTrip(outputs, rest);
      case UnshieldBalance(excess) => UnshieldRoundTrip(excess, rest);
      case _ => MintOrMeltBack(net, h, rest);
    }
  }

  lemma MintOrMeltBack(net: Network, h: Header, rest: Bytes)
    requires (h.Mint? || h.Melt?) && PrintHeader(h).Ok?
    ensures |PrintHeader(h).value| >= 2
    ensures ParseHeaderBody(net, PrintHeader(h).value[0], PrintHeader(h).value[1..] + rest) == Ok((h, rest))
  {
    var id, entries := if h.Mint? then MINT_ID else MELT_ID, h.entries;
    assert PrintHeader(h) == PrintSupply(id, entries);
    SupplyRoundTrip(id, entries, rest);
    SupplyDispatch(net, id, PrintSupply(id, entries).value[1..] + rest, entries, rest);
  }

  lemma SupplyDispatch(net: Network, id: byte, b: Bytes, entries: seq<SupplyEntry>, rest: Bytes)
    requires (id == MINT_ID || id == MELT_ID) && ParseSupply(b) == Ok((entries, rest))
    ensures ParseHeaderBody(net, id, b) == Ok((if id == MINT_ID then Mint(entries) else Melt(entries), rest))
  {
  }

  /** Every header kind survives the wire, whatever follows it. */
  lemma HeaderRoundTrip(net: Network, h: Header, rest: Bytes)
    requires HeaderFits(net, h) && PrintHeader(h).Ok?
    ensures |PrintHeader(h).value| >= 2
    ensures ParseHeader(net, PrintHeader(h).value + rest) == Ok((NormalHeader()(h), rest))
  {
    HeaderBodyBack(net, h, rest);
    FirstByte(PrintHeader(h).value, rest);
  }

  lemma FirstByte(b: Bytes, rest: Bytes)
    requires b != []
    ensures (b + rest)[0] == b[0] && (b + rest)[1..] == b[1..] + rest
  {
  }

  // ----- termination of the header loop -----

  lemma EntryParsersShrink()
    ensures Shrinks(ActionParser()) && Shrinks(FeeEntryParser()) && Shrinks(EntryParser()) && Shrinks(ShieldedParser())
  {
    ShieldedShrinks();
    forall b: Bytes | ActionParser()(b).Ok? ensures |ActionParser()(b).value.1| <= |b| {
      OutputValueInRange(b[1..][1..]);
    }
    forall b: Bytes | FeeEntryParser()(b).Ok? ensures |FeeEntryParser()(b).value.1| <= |b| {
      OutputValueInRange(b[1..]);
    }
  }

  lemma ScriptShrinks(b: Bytes)
    requires ParseScript(b).Ok?
    ensures |ParseScript(b).value.1| <= |b|
  {
    Leb128.DecodeConsumes(b, false, Some(2));
  }

  lemma NanoShrinks(net: Network, b: Bytes)
    requires ParseNano(net, b).Ok?
    ensures |ParseNano(net, b).value.1| <= |b|
  {
    var id := ParseHash(b).value;
    Leb128.DecodeConsumes(id.1, false, Some(8));
    var name := UnpackPrefixed(1, Leb128.Decode(id.1, false, Some(8)).value.1).value;
    NanoBodyShrinks(net, id.0, Leb128.Decode(id.1, false, Some(8)).value.0, FromAscii(name.0), name.1);
  }

  lemma NanoBodyShrinks(net: Network, id: string, seqnum: int, name: string, b: Bytes)
    requires ParseNanoBody(net, id, seqnum, name, b).Ok?
    ensures |ParseNanoBody(net, id, seqnum, name, b).value.1| <= |b|
  {
    EntryParsersShrink();
    var args := UnpackPrefixed(2, b).value;
    var count := UnpackInt(1, args.1).value;
    ManyShrinks(ActionParser(), count.0, count.1);
    var actions := ParseMany(ActionParser(), count.0, count.1).value;
    var address := ParseAddress(net, actions.1).value;
    ScriptShrinks(address.1);
  }

  /** A parsed header took at least one byte. */
  lemma HeaderConsumes(net: Network, b: Bytes)
    requires b != [] && ParseHeader(net, b).Ok?
    ensures |ParseHeader(net, b).value.1| < |b|
  {
    EntryParsersShrink();
    if b[0] == NANO_ID {
      NanoShrinks(net, b[1..]);
    } else if b[0] == FEE_ID {
      ManyShrinks(FeeEntryParser(), FromBytes(b[1..][..1]), b[2..]);
      assert b[1..][1..] == b[2..];
    } else if b[0] == SHIELDED_ID {
      ManyShrinks(ShieldedParser(), FromBytes(b[1..][..1]), b[2..]);
      assert b[1..][1..] == b[2..];
    } else if b[0] == MINT_ID || b[0] == MELT_ID {
      ManyShrinks(EntryParser(), b[1], b[1..][1..]);
    }
  }

  // ----- the header section -----

  /** The loop over the rest of the buffer. */
  function ParseAllHeaders(net: Network, b: Bytes): Result<seq<Header>, CodecError>
    decreases |b|
  {
    if b == [] then Ok([])
    else
      var first :- ParseHeader(net, b);
      HeaderConsumes(net, b);
      var others :- ParseAllHeaders(net, first.1);
      Ok([first.0] + others)
  }

  /** `getHeadersFromBytes`: a single left-over byte is ignored. */
  function ParseHeaders(net: Network, b: Bytes): Result<seq<Header>, CodecError> {
    if |b| <= 1 then Ok([]) else ParseAllHeaders(net, b)
  }

  function Prefixing(headers: seq<Header>, r: Result<seq<Header>, CodecError>): Result<seq<Header>, CodecError> {
    if r.Err? then r else Ok(headers + r.value)
  }

  lemma {:induction false} AllHeadersBack(net: Network, headers: seq<Header>, rest: Bytes)
    requires PrintMany(HeaderPrinter(), headers).Ok? && forall h :: h in headers ==> HeaderFits(net, h)
    ensures ParseAllHeaders(net, PrintMany(HeaderPrinter(), headers).value + rest)
         == Prefixing(Map(headers, NormalHeader()), ParseAllHeaders(net, rest))
    ensures headers != [] ==> |PrintMany(HeaderPrinter(), headers).value| >= 2
  {
    var bytes := PrintMany(HeaderPrinter(), headers).value;
    if headers == [] {
      assert bytes + rest == rest && Map(headers, NormalHeader()) == [];
      PrefixNone(ParseAllHeaders(net, rest));
    } else {
      assert headers[0] in headers && forall h :: h in headers[1..] ==> h in headers;
      var others := PrintMany(HeaderPrinter(), headers[1..]).value;
      AllHeadersBack(net, headers[1..], rest);
      FirstHeaderBack(net, headers[0], others, rest);
      PrefixFirst(headers, ParseAllHeaders(net, rest));
    }
  }

  lemma FirstHeaderBack(net: Network, h: Header, others: Bytes, rest: Bytes)
    requires HeaderFits(net, h) && PrintHeader(h).Ok?
    ensures |PrintHeader(h).value| >= 2
    ensures ParseAllHeaders(net, (PrintHeader(h).value + others) + rest) == Prefixing([NormalHeader()(h)], ParseAllHeaders(net, others + rest))
  {
    var first := PrintHeader(h).value;
    HeaderRoundTrip(net, h, others + rest);
    assert (first + others) + rest == first + (others + rest);
  }

  lemma PrefixFirst(headers: seq<Header>, r: Result<seq<Header>, CodecError>)
    requires headers != []
    ensures Prefixing([NormalHeader()(headers[0])], Prefixing(Map(headers[1..], NormalHeader()), r))
         == Prefixing(Map(headers, NormalHeader()), r)
  {
    var first, others := [NormalHeader()(headers[0])], Map(headers[1..], NormalHeader());
    assert Map(headers, NormalHeader()) == first + others;
    if r.Ok? {
      assert first + (others + r.value) == (first + others) + r.value;
    }
  }

  lemma PrefixNone(r: Result<seq<Header>, CodecError>)
    ensures Prefixing([], r) == r
  {
    if r.Ok? {
      assert [] + r.value == r.value;
    }
  }

  /** The headers read where `headers` were printed and `rest` follows: without anything after them, the
      same; else `rest` counts as more headers, unless it is one byte after no header. */
  function HeadersRead(net: Network, headers: seq<Header>, rest: Bytes): Result<seq<Header>, CodecError> {
    if rest == [] || (headers == [] && |rest| == 1) then Ok(Map(headers, NormalHeader()))
    else Prefixing(Map(headers, NormalHeader()), ParseAllHeaders(net, rest))
  }

  /** Any list of headers survives, although its length is not on the wire. Bytes after it are more
      headers or an error, except that a single byte after no header at all is ignored. */
  lemma HeadersRoundTrip(net: Network, headers: seq<Header>, rest: Bytes)
    requires PrintMany(HeaderPrinter(), headers).Ok? && forall h :: h in headers ==> HeaderFits(net, h)
    ensures ParseHeaders(net, PrintMany(HeaderPrinter(), headers).value + rest)
         == HeadersRead(net, headers, rest)
  {
    AllHeadersBack(net, headers, rest);
    assert Map(headers, NormalHeader()) + [] == Map(headers, NormalHeader());
    if headers == [] {
      assert PrintMany(HeaderPrinter(), headers).value + rest == rest && Map(headers, NormalHeader()) == [];
    }
  }

  /** Bytes parsed as headers are at least one header. */
  lemma HeadersNeverVanish(net: Network, rest: Bytes)
    requires rest != [] && ParseAllHeaders(net, rest).Ok?
    ensures ParseAllHeaders(net, rest).value != []
  {
    HeaderConsumes(net, rest);
  }
}
