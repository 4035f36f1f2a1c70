/** Whole transactions on the wire: src/models/transaction.ts:421-437, 559-711 and
    src/models/create_token_transaction.ts:83-262. The float weight is its eight bytes. */
module TransactionWire {
  import opened Wrappers
  import opened SeqSums
  import opened Bytes
  import opened Text
  import opened Wire
  import opened HeaderWire

  datatype Funds = Funds(signalBits: int, version: int, tokens: seq<string>, inputs: seq<Input>, outputs: seq<Output>)

  datatype Graph = Graph(weight: Bytes, timestamp: Option<int>, parents: seq<string>, nonce: int)

  datatype TxData = TxData(funds: Funds, graph: Graph, headers: seq<Header>)

  datatype TokenInfo = TokenInfo(name: string, symbol: string, version: int)

  datatype CreateTokenData = CreateTokenData(funds: Funds, info: TokenInfo, graph: Graph, headers: seq<Header>)

  // ----- inputs and outputs -----

  datatype Transfers = Transfers(inputs: seq<Input>, outputs: seq<Output>)

  /** `serializeInputsOutputs` */
  function PrintTransfers(f: Funds, addData: bool): Printed {
    var inputs :- PrintMany(InputPrinter(addData), f.inputs);
    var outputs :- PrintMany(OutputPrinter(), f.outputs);
    Ok(inputs + outputs)
  }

  function ParseTransfers(lenInputs: nat, lenOutputs: nat, b: Bytes): Parsed<Transfers> {
    var inputs :- ParseMany(InputParser(), lenInputs, b);
    var outputs :- ParseMany(OutputParser(), lenOutputs, inputs.1);
    Ok((Transfers(inputs.0, outputs.0), outputs.1))
  }

  predicate TransfersFit(f: Funds) {
    && |f.inputs| < 256 && |f.outputs| < 256
    && (forall i :: i in f.inputs ==> InputFits(i)) && (forall o :: o in f.outputs ==> OutputFits(o))
  }

  lemma TransfersBack(f: Funds, rest: Bytes)
    requires TransfersFit(f) && PrintTransfers(f, true).Ok?
    ensures ParseTransfers(|f.inputs|, |f.outputs|, PrintTransfers(f, true).value + rest)
         == Ok((Transfers(Map(f.inputs, NormalInput()), Map(f.outputs, NormalOutput())), rest))
  {
    var inputs, outputs := PrintMany(InputPrinter(true), f.inputs).value, PrintMany(OutputPrinter(), f.outputs).value;
    TransfersSplit(f, rest);
    InputsBack(f.inputs, outputs + rest);
    OutputsBack(f.outputs, rest);
  }

  lemma TransfersSplit(f: Funds, rest: Bytes)
    requires PrintTransfers(f, true).Ok?
    ensures PrintTransfers(f, true).value + rest
         == PrintMany(InputPrinter(true), f.inputs).value + (PrintMany(OutputPrinter(), f.outputs).value + rest)
  {
  }

  // ----- funds -----

  /** `Transaction.serializeFundsFields` */
  function PrintFunds(f: Funds, addData: bool): Printed {
    var tokens :- PrintMany(HashPrinter(), f.tokens);
    var transfers :- PrintTransfers(f, addData);
    Ok(ToBytes(f.signalBits, 1) + (ToBytes(f.version, 1) + (ToBytes(|f.tokens|, 1) +
       (ToBytes(|f.inputs|, 1) + (ToBytes(|f.outputs|, 1) + (tokens + transfers))))))
  }

  /** `Transaction.getFundsFieldsFromBytes` */
  function ParseFunds(b: Bytes): Parsed<Funds> {
    var signalBits :- UnpackInt(1, b);
    var version :- UnpackInt(1, signalBits.1);
    ParseFundsLists(signalBits.0, version.0, version.1)
  }

  function ParseFundsLists(signalBits: int, version: int, b: Bytes): Parsed<Funds> {
    var lenTokens :- UnpackInt(1, b);
    var lenInputs :- UnpackInt(1, lenTokens.1);
    var lenOutputs :- UnpackInt(1, lenInputs.1);
    var tokens :- ParseMany(HashParser(), lenTokens.0, lenOutputs.1);
    var transfers :- ParseTransfers(lenInputs.0, lenOutputs.0, tokens.1);
    Ok((Funds(signalBits, version, tokens.0, transfers.0.inputs, transfers.0.outputs), transfers.1))
  }

  predicate FundsFit(f: Funds) {
    TransfersFit(f) && |f.tokens| < 256 && forall t :: t in f.tokens ==> IsHash(t)
  }

  function NormalFunds(f: Funds): Funds {
    Funds(f.signalBits % 256, f.version % 256, Map(f.tokens, Lowered()), Map(f.inputs, NormalInput()), Map(f.outputs, NormalOutput()))
  }

  lemma FundsListsBack(f: Funds, signalBits: int, version: int, rest: Bytes)
    requires FundsFit(f) && PrintMany(HashPrinter(), f.tokens).Ok? && PrintTransfers(f, true).Ok?
    ensures ParseFundsLists(signalBits, version, ToBytes(|f.tokens|, 1) + (ToBytes(|f.inputs|, 1) + (ToBytes(|f.outputs|, 1) +
              (PrintMany(HashPrinter(), f.tokens).value + (PrintTransfers(f, true).value + rest)))))
         == Ok((NormalFunds(f).(signalBits := signalBits, version := version), rest))
  {
    var tokens, transfers := PrintMany(HashPrinter(), f.tokens).value, PrintTransfers(f, true).value;
    CountBack(|f.tokens|, ToBytes(|f.inputs|, 1) + (ToBytes(|f.outputs|, 1) + (tokens + (transfers + rest))));
    CountBack(|f.inputs|, ToBytes(|f.outputs|, 1) + (tokens + (transfers + rest)));
    CountBack(|f.outputs|, tokens + (transfers + rest));
    HashesBack(f.tokens, transfers + rest);
    TransfersBack(f, rest);
  }

  lemma FundsBack(f: Funds, rest: Bytes)
    requires FundsFit(f) && PrintFunds(f, true).Ok?
    ensures ParseFunds(PrintFunds(f, true).value + rest) == Ok((NormalFunds(f), rest))
  {
    var tokens, transfers := PrintMany(HashPrinter(), f.tokens).value, PrintTransfers(f, true).value;
    var lists := ToBytes(|f.tokens|, 1) + (ToBytes(|f.inputs|, 1) + (ToBytes(|f.outputs|, 1) + (tokens + (transfers + rest))));
    FundsSplit(f, rest);
    ByteBack(f.signalBits, ToBytes(f.version, 1) + lists);
    ByteBack(f.version, lists);
    FundsListsBack(f, f.signalBits % 256, f.version % 256, rest);
  }

  lemma FundsSplit(f: Funds, rest: Bytes)
    requires PrintFunds(f, true).Ok?
    ensures PrintFunds(f, true).value + rest
         == ToBytes(f.signalBits, 1) + (ToBytes(f.version, 1) + (ToBytes(|f.tokens|, 1) + (ToBytes(|f.inputs|, 1) +
            (ToBytes(|f.outputs|, 1) + (PrintMany(HashPrinter(), f.tokens).value + (PrintTransfers(f, true).value + rest))))))
  {
    var a, b, c := ToBytes(f.signalBits, 1), ToBytes(f.version, 1), ToBytes(|f.tokens|, 1);
    var d, e := ToBytes(|f.inputs|, 1), ToBytes(|f.outputs|, 1);
    var tokens, transfers := PrintMany(HashPrinter(), f.tokens).value, PrintTransfers(f, true).value;
    RegroupFour(a, b, c, d + (e + (tokens + transfers)), rest);
    RegroupFour(d, e, tokens, transfers, rest);
  }

  // ----- graph -----

  const WEIGHT_SIZE: nat := 8

  /** `serializeGraphFields` and `serializeNonce`; a missing timestamp is written as zero. */
  function PrintGraph(g: Graph): Printed {
    var parents :- PrintMany(HashPrinter(), g.parents);
    Ok(g.weight + (ToBytes(Timestamp(g), 4) + (ToBytes(|g.parents|, 1) + (parents + ToBytes(g.nonce, 4)))))
  }

  function Timestamp(g: Graph): int { if g.timestamp.Some? then g.timestamp.value else 0 }

  /** `getGraphFieldsFromBytes` */
  function ParseGraph(b: Bytes): Parsed<Graph> {
    var weight :- UnpackLen(WEIGHT_SIZE, b);
    var timestamp :- UnpackInt(4, weight.1);
    var lenParents :- UnpackInt(1, timestamp.1);
    var parents :- ParseMany(HashParser(), lenParents.0, lenParents.1);
    var nonce :- UnpackInt(4, parents.1);
    Ok((Graph(weight.0, Some(timestamp.0), parents.0, nonce.0), nonce.1))
  }

  predicate GraphFits(g: Graph) {
    |g.weight| == WEIGHT_SIZE && |g.parents| < 256 && forall p :: p in g.parents ==> IsHash(p)
  }

  function NormalGraph(g: Graph): Graph {
    Graph(g.weight, Some(Timestamp(g) % 0x1_0000_0000), Map(g.parents, Lowered()), g.nonce % 0x1_0000_0000)
  }

  lemma WordBack(value: int, rest: Bytes)
    ensures UnpackInt(4, ToBytes(value, 4) + rest) == Ok((value % 0x1_0000_0000, rest))
  {
    Powers();
    UnpackIntBack(value, 4, rest);
  }

  lemma GraphBack(g: Graph, rest: Bytes)
    requires GraphFits(g) && PrintGraph(g).Ok?
    ensures ParseGraph(PrintGraph(g).value + rest) == Ok((NormalGraph(g), rest))
  {
    var parents, nonce := PrintMany(HashPrinter(), g.parents).value, ToBytes(g.nonce, 4);
    GraphSplit(g, rest);
    UnpackLenBack(g.weight, ToBytes(Timestamp(g), 4) + (ToBytes(|g.parents|, 1) + (parents + (nonce + rest))));
    WordBack(Timestamp(g), ToBytes(|g.parents|, 1) + (parents + (nonce + rest)));
    CountBack(|g.parents|, parents + (nonce + rest));
    HashesBack(g.parents, nonce + rest);
    WordBack(g.nonce, rest);
  }

  lemma GraphSplit(g: Graph, rest: Bytes)
    requires PrintGraph(g).Ok?
    ensures PrintGraph(g).value + rest
         == g.weight + (ToBytes(Timestamp(g), 4) + (ToBytes(|g.parents|, 1) + (PrintMany(HashPrinter(), g.parents).value + (ToBytes(g.nonce, 4) + rest))))
  {
    var parents, nonce := PrintMany(HashPrinter(), g.parents).value, ToBytes(g.nonce, 4);
    RegroupFour(g.weight, ToBytes(Timestamp(g), 4), ToBytes(|g.parents|, 1), parents + nonce, rest);
    assert (parents + nonce) + rest == parents + (nonce + rest);
  }

  // ----- transactions -----

  /** `Transaction.toBytes` */
  function PrintTx(d: TxData): Printed {
    var funds :- PrintFunds(d.funds, true);
    var graph :- PrintGraph(d.graph);
    var headers :- PrintMany(HeaderPrinter(), d.headers);
    Ok(funds + (graph + headers))
  }

  /** `Transaction.createFromBytes`, the hash aside. */
  function ParseTx(net: Network, b: Bytes): Result<TxData, CodecError> {
    var funds :- ParseFunds(b);
    var others :- ParseGraphAndHeaders(net, funds.1);
    Ok(TxData(funds.0, others.0, others.1))
  }

  function ParseGraphAndHeaders(net: Network, b: Bytes): Result<(Graph, seq<Header>), CodecError> {
    var graph :- ParseGraph(b);
    var headers :- ParseHeaders(net, graph.1);
    Ok((graph.0, headers))
  }

  predicate TxFits(net: Network, d: TxData) {
    FundsFit(d.funds) && GraphFits(d.graph) && forall h :: h in d.headers ==> HeaderFits(net, h)
  }

  function NormalTx(d: TxData): TxData {
    TxData(NormalFunds(d.funds), NormalGraph(d.graph), Map(d.headers, NormalHeader()))
  }

  lemma GraphAndHeadersBack(net: Network, g: Graph, headers: seq<Header>, rest: Bytes)
    requires GraphFits(g) && PrintGraph(g).Ok? && PrintMany(HeaderPrinter(), headers).Ok? && forall h :: h in headers ==> HeaderFits(net, h)
    ensures ParseGraphAndHeaders(net, PrintGraph(g).value + (PrintMany(HeaderPrinter(), headers).value + rest))
         == AddHeaders(NormalGraph(g), HeadersRead(net, headers, rest))
  {
    GraphBack(g, PrintMany(HeaderPrinter(), headers).value + rest);
    HeadersRoundTrip(net, headers, rest);
  }

  function AddHeaders(g: Graph, headers: Result<seq<Header>, CodecError>): Result<(Graph, seq<Header>), CodecError> {
    if headers.Err? then Err(headers.error) else Ok((g, headers.value))
  }

  function WithHeaders(d: TxData, headers: Result<seq<Header>, CodecError>): Result<TxData, CodecError> {
    if headers.Err? then Err(headers.error) else Ok(NormalTx(d).(headers := headers.value))
  }

  /** What is read where a transaction was printed and any `rest` follows. */
  lemma TransactionBack(net: Network, d: TxData, rest: Bytes)
    requires TxFits(net, d) && PrintTx(d).Ok?
    ensures ParseTx(net, PrintTx(d).value + rest) == WithHeaders(d, HeadersRead(net, d.headers, rest))
  {
    var funds, graph := PrintFunds(d.funds, true).value, PrintGraph(d.graph).value;
    var headers := PrintMany(HeaderPrinter(), d.headers).value;
    RegroupThree(funds, graph, headers, rest);
    FundsBack(d.funds, graph + (headers + rest));
    GraphAndHeadersBack(net, d.graph, d.headers, rest);
  }

  /** Any transaction whose fields fit survives its bytes, with any headers in any order, up to the
      normal form: integers modulo their width, lower-case hashes, empty data and scripts absent,
      shielded values zero. */
  lemma TransactionRoundTrip(net: Network, d: TxData)
    requires TxFits(net, d) && PrintTx(d).Ok?
    ensures ParseTx(net, PrintTx(d).value) == Ok(NormalTx(d))
  {
    assert PrintTx(d).value + [] == PrintTx(d).value;
    TransactionBack(net, d, []);
  }

  /** The same transaction is read from longer bytes exactly when it has no headers and a single byte
      follows; whatever else follows is read as at least one more header or is an error. */
  lemma OnlyOneByteIsIgnored(net: Network, d: TxData, rest: Bytes)
    requires TxFits(net, d) && PrintTx(d).Ok? && rest != []
    ensures ParseTx(net, PrintTx(d).value + rest) == Ok(NormalTx(d)) <==> d.headers == [] && |rest| == 1
    ensures var r := ParseTx(net, PrintTx(d).value + rest);
      r.Ok? && r != Ok(NormalTx(d)) ==> |r.value.headers| > |d.headers| && r.value.headers[..|d.headers|] == Map(d.headers, NormalHeader())
  {
    TransactionBack(net, d, rest);
    if ParseAllHeaders(net, rest).Ok? {
      HeadersNeverVanish(net, rest);
    }
  }

  // ----- token creation -----

  const MAX_TOKEN_NAME_SIZE: nat := 30
  const MAX_TOKEN_SYMBOL_SIZE: nat := 5
  const DEPOSIT_VERSION: int := 1
  const FEE_VERSION: int := 2

  /** `serializeTokenInfo` bounds the UTF-16 lengths. */
  function PrintTokenInfo(t: TokenInfo): Printed {
    if t.version == 0 || t.name == "" || t.symbol == "" then Err(InvalidTokenInfo)
    else if Utf16Length(t.name) > MAX_TOKEN_NAME_SIZE || Utf16Length(t.symbol) > MAX_TOKEN_SYMBOL_SIZE then Err(InvalidTokenInfo)
    else Ok(ToBytes(t.version, 1) + (Prefixed(1, ToUtf8(t.name)) + Prefixed(1, ToUtf8(t.symbol))))
  }

  function UnpackText(max: nat, b: Bytes): Parsed<string> {
    var len :- UnpackInt(1, b);
    if len.0 > max then Err(InvalidTokenInfo)
    else
      var text :- UnpackLen(len.0, len.1);
      Ok((FromUtf8(text.0), text.1))
  }

  /** `getTokenInfoFromBytes` bounds the UTF-8 lengths, by the same numbers. */
  function ParseTokenInfo(b: Bytes): Parsed<TokenInfo> {
    var version :- UnpackInt(1, b);
    if version.0 != DEPOSIT_VERSION && version.0 != FEE_VERSION then Err(InvalidTokenInfo)
    else
      var name :- UnpackText(MAX_TOKEN_NAME_SIZE, version.1);
      var symbol :- UnpackText(MAX_TOKEN_SYMBOL_SIZE, name.1);
      Ok((TokenInfo(name.0, symbol.0, version.0), symbol.1))
  }

  /** What makes printed token information readable. */
  predicate InfoReadable(t: TokenInfo) {
    && (t.version % 256 == DEPOSIT_VERSION || t.version % 256 == FEE_VERSION)
    && |ToUtf8(t.name)| <= MAX_TOKEN_NAME_SIZE && |ToUtf8(t.symbol)| <= MAX_TOKEN_SYMBOL_SIZE
  }

  lemma TextBack(max: nat, text: string, rest: Bytes)
    requires |ToUtf8(text)| < 256
    ensures UnpackText(max, Prefixed(1, ToUtf8(text)) + rest)
         == if |ToUtf8(text)| <= max then Ok((text, rest)) else Err(InvalidTokenInfo)
  {
    var x := ToUtf8(text);
    assert Prefixed(1, x) + rest == ToBytes(|x|, 1) + (x + rest);
    CountBack(|x|, x + rest);
    UnpackLenBack(x, rest);
    Utf8RoundTrip(text);
  }

  /** Token information survives exactly when its version is known and its name and symbol keep
      their limits in UTF-8 bytes, not just in UTF-16 units. */
  lemma TokenInfoRoundTrip(t: TokenInfo, rest: Bytes)
    requires PrintTokenInfo(t).Ok?
    ensures ParseTokenInfo(PrintTokenInfo(t).value + rest)
         == if InfoReadable(t) then Ok((t.(version := t.version % 256), rest)) else Err(InvalidTokenInfo)
  {
    var name, symbol := Prefixed(1, ToUtf8(t.name)), Prefixed(1, ToUtf8(t.symbol));
    assert PrintTokenInfo(t).value + rest == ToBytes(t.version, 1) + (name + (symbol + rest));
    ByteBack(t.version, name + (symbol + rest));
    Utf8AndUtf16(t.name);
    Utf8AndUtf16(t.symbol);
    TextBack(MAX_TOKEN_NAME_SIZE, t.name, symbol + rest);
    TextBack(MAX_TOKEN_SYMBOL_SIZE, t.symbol, rest);
  }

  /** A two-character symbol the printer accepts and the parser refuses: two euro signs take six bytes. */
  lemma EuroSymbolDoesNotSurvive(rest: Bytes)
    ensures var t := TokenInfo("Euro", "\U{20AC}\U{20AC}", DEPOSIT_VERSION);
      PrintTokenInfo(t).Ok? && ParseTokenInfo(PrintTokenInfo(t).value + rest) == Err(InvalidTokenInfo)
  {
    var euro := '\U{20AC}';
    var t := TokenInfo("Euro", [euro, euro], DEPOSIT_VERSION);
    assert [euro, euro][1..] == [euro] && [euro][1..] == [];
    assert ToUtf8([euro]) == EncodeChar(euro) + [];
    assert |ToUtf8([euro, euro])| == 6;
    assert Utf16Length([euro]) == 1 && Utf16Length([euro, euro]) == 2;
    FourLetters();
    TokenInfoRoundTrip(t, rest);
  }

  lemma FourLetters()
    ensures Utf16Length("Euro") == 4
  {
    assert "Euro"[1..] == "uro" && "uro"[1..] == "ro" && "ro"[1..] == "o" && "o"[1..] == "";
  }

  /** `CreateTokenTransaction.serializeFundsFields` lists no tokens. */
  function PrintCreateFunds(f: Funds, info: TokenInfo, addData: bool): Printed {
    var transfers :- PrintTransfers(f, addData);
    var token :- PrintTokenInfo(info);
    Ok(ToBytes(f.signalBits, 1) + (ToBytes(f.version, 1) + (ToBytes(|f.inputs|, 1) +
       (ToBytes(|f.outputs|, 1) + (transfers + token)))))
  }

  /** `CreateTokenTransaction.getFundsFieldsFromBytes` */
  function ParseCreateFunds(b: Bytes): Parsed<Funds> {
    var signalBits :- UnpackInt(1, b);
    var version :- UnpackInt(1, signalBits.1);
    ParseCreateLists(signalBits.0, version.0, version.1)
  }

  function ParseCreateLists(signalBits: int, version: int, b: Bytes): Parsed<Funds> {
    var lenInputs :- UnpackInt(1, b);
    var lenOutputs :- UnpackInt(1, lenInputs.1);
    var transfers :- ParseTransfers(lenInputs.0, lenOutputs.0, lenOutputs.1);
    Ok((Funds(signalBits, version, [], transfers.0.inputs, transfers.0.outputs), transfers.1))
  }

  lemma CreateListsBack(f: Funds, signalBits: int, version: int, rest: Bytes)
    requires TransfersFit(f) && PrintTransfers(f, true).Ok?
    ensures ParseCreateLists(signalBits, version, ToBytes(|f.inputs|, 1) + (ToBytes(|f.outputs|, 1) + (PrintTransfers(f, true).value + rest)))
         == Ok((NormalFunds(f).(signalBits := signalBits, version := version, tokens := []), rest))
  {
    CountBack(|f.inputs|, ToBytes(|f.outputs|, 1) + (PrintTransfers(f, true).value + rest));
    CountBack(|f.outputs|, PrintTransfers(f, true).value + rest);
    TransfersBack(f, rest);
  }

  lemma CreateFundsBack(f: Funds, info: TokenInfo, rest: Bytes)
    requires TransfersFit(f) && PrintCreateFunds(f, info, true).Ok?
    ensures ParseCreateFunds(PrintCreateFunds(f, info, true).value + rest)
         == Ok((NormalFunds(f).(tokens := []), PrintTokenInfo(info).value + rest))
  {
    var transfers, token := PrintTransfers(f, true).value, PrintTokenInfo(info).value;
    var a, b, c, d := ToBytes(f.signalBits, 1), ToBytes(f.version, 1), ToBytes(|f.inputs|, 1), ToBytes(|f.outputs|, 1);
    CreateFundsSplit(f, info, rest);
    ByteBack(f.signalBits, b + (c + (d + (transfers + (token + rest)))));
    ByteBack(f.version, c + (d + (transfers + (token + rest))));
    CreateListsBack(f, f.signalBits % 256, f.version % 256, token + rest);
  }

  lemma CreateFundsSplit(f: Funds, info: TokenInfo, rest: Bytes)
    requires PrintCreateFunds(f, info, true).Ok?
    ensures PrintCreateFunds(f, info, true).value + rest
         == ToBytes(f.signalBits, 1) + (ToBytes(f.version, 1) + (ToBytes(|f.inputs|, 1) + (ToBytes(|f.outputs|, 1) +
            (PrintTransfers(f, true).value + (PrintTokenInfo(info).value + rest)))))
  {
    var transfers, token := PrintTransfers(f, true).value, PrintTokenInfo(info).value;
    var d := ToBytes(|f.outputs|, 1);
    RegroupFour(ToBytes(f.signalBits, 1), ToBytes(f.version, 1), ToBytes(|f.inputs|, 1), d + (transfers + token), rest);
    RegroupThree(d, transfers, token, rest);
  }

  /** `CreateTokenTransaction.toBytes` */
  function PrintCreateToken(d: CreateTokenData): Printed {
    var funds :- PrintCreateFunds(d.funds, d.info, true);
    var graph :- PrintGraph(d.graph);
    var headers :- PrintMany(HeaderPrinter(), d.headers);
    Ok(funds + (graph + headers))
  }

  /** `CreateTokenTransaction.createFromBytes`, the hash aside. */
  function ParseCreateToken(net: Network, b: Bytes): Result<CreateTokenData, CodecError> {
    var own :- ParseFundsAndInfo(b);
    var others :- ParseGraphAndHeaders(net, own.2);
    Ok(CreateTokenData(own.0, own.1, others.0, others.1))
  }

  function ParseFundsAndInfo(b: Bytes): Result<(Funds, TokenInfo, Bytes), CodecError> {
    var funds :- ParseCreateFunds(b);
    var info :- ParseTokenInfo(funds.1);
    Ok((funds.0, info.0, info.1))
  }

  predicate CreateTokenFits(net: Network, d: CreateTokenData) {
    TransfersFit(d.funds) && GraphFits(d.graph) && forall h :: h in d.headers ==> HeaderFits(net, h)
  }

  function NormalCreateToken(d: CreateTokenData): CreateTokenData {
    CreateTokenData(NormalFunds(d.funds).(tokens := []), d.info.(version := d.info.version % 256),
                    NormalGraph(d.graph), Map(d.headers, NormalHeader()))
  }

  /** What is read where a token creation was printed and any `rest` follows. */
  function CreateTokenRead(d: CreateTokenData, headers: Result<seq<Header>, CodecError>): Result<CreateTokenData, CodecError> {
    if !InfoReadable(d.info) then Err(InvalidTokenInfo)
    else if headers.Err? then Err(headers.error)
    else Ok(NormalCreateToken(d).(headers := headers.value))
  }

  lemma CreateTokenBack(net: Network, d: CreateTokenData, rest: Bytes)
    requires CreateTokenFits(net, d) && PrintCreateToken(d).Ok?
    ensures ParseCreateToken(net, PrintCreateToken(d).value + rest) == CreateTokenRead(d, HeadersRead(net, d.headers, rest))
  {
    var funds, graph := PrintCreateFunds(d.funds, d.info, true).value, PrintGraph(d.graph).value;
    var headers := PrintMany(HeaderPrinter(), d.headers).value;
    RegroupThree(funds, graph, headers, rest);
    CreateFundsBack(d.funds, d.info, graph + (headers + rest));
    TokenInfoRoundTrip(d.info, graph + (headers + rest));
    GraphAndHeadersBack(net, d.graph, d.headers, rest);
  }

  /** A token creation survives its bytes exactly when its token information is readable. */
  lemma CreateTokenRoundTrip(net: Network, d: CreateTokenData)
    requires CreateTokenFits(net, d) && PrintCreateToken(d).Ok?
    ensures ParseCreateToken(net, PrintCreateToken(d).value)
         == if InfoReadable(d.info) then Ok(NormalCreateToken(d)) else Err(InvalidTokenInfo)
  {
    assert PrintCreateToken(d).value + [] == PrintCreateToken(d).value;
    CreateTokenBack(net, d, []);
  }

  /** The same token creation is read from longer bytes exactly when its token information is
      readable, it has no headers and a single byte follows; whatever else follows is read as at
      least one more header or is an error. */
  lemma CreateTokenIgnoresOneByte(net: Network, d: CreateTokenData, rest: Bytes)
    requires CreateTokenFits(net, d) && PrintCreateToken(d).Ok? && rest != []
    ensures ParseCreateToken(net, PrintCreateToken(d).value + rest) == Ok(NormalCreateToken(d))
       <==> InfoReadable(d.info) && d.headers == [] && |rest| == 1
    ensures var r := ParseCreateToken(net, PrintCreateToken(d).value + rest);
      r.Ok? && r != Ok(NormalCreateToken(d)) ==> |r.value.headers| > |d.headers| && r.value.headers[..|d.headers|] == Map(d.headers, NormalHeader())
  {
    CreateTokenBack(net, d, rest);
    if ParseAllHeaders(net, rest).Ok? {
      HeadersNeverVanish(net, rest);
    }
  }
}
