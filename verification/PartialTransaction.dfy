/** The `PartialTx` object of src/models/partial_tx.ts: growing a proposal, its balance, and its text
    form, proved against ProposalText. */
module PartialTransaction {
  import opened Wrappers
  import opened SeqSums
  import opened Bytes
  import opened Text
  import opened Separated
  import opened ProposalText
  import PartialLayout
  import HeaderWire
  import StandardScript
  import TransactionWire
  import Wire

  datatype Token = Token(uid: string)

  /** Funds of one token on both sides. */
  datatype TokenBalance = TokenBalance(inputs: int, outputs: int)

  function FundsIn(t: Token): ProposalInput -> int {
    (i: ProposalInput) => if i.token == t.uid && i.authorities == 0 then i.value else 0
  }

  function FundsOut(t: Token): ProposalOutput -> int {
    (o: ProposalOutput) => if o.token == t.uid && o.authorities == 0 then o.value else 0
  }

  ghost predicate Mentions(p: Proposal, t: Token) {
    (exists i :: i in p.inputs && i.token == t.uid) || (exists o :: o in p.outputs && o.token == t.uid)
  }

  /** The balance table: every token mentioned, with the sums of its funds. */
  ghost predicate IsTable(m: map<Token, TokenBalance>, p: Proposal) {
    && (forall t: Token :: t in m <==> Mentions(p, t))
    && (forall t :: t in m ==> m[t] == TokenBalance(Sum(p.inputs, FundsIn(t)), Sum(p.outputs, FundsOut(t))))
  }

  function Entry(m: map<Token, TokenBalance>, t: Token): TokenBalance { if t in m then m[t] else TokenBalance(0, 0) }

  lemma AbsentIsZero(p: Proposal, t: Token)
    requires !Mentions(p, t)
    ensures Sum(p.inputs, FundsIn(t)) == 0 && Sum(p.outputs, FundsOut(t)) == 0
  {
    SumZero(p.inputs, FundsIn(t));
    SumZero(p.outputs, FundsOut(t));
  }

  /** A table with one entry brought up to date. */
  lemma TableUpdate(m: map<Token, TokenBalance>, p: Proposal, p': Proposal, t: Token)
    requires IsTable(m, p)
    requires forall u: Token :: Mentions(p', u) <==> Mentions(p, u) || u == t
    requires forall u: Token :: u != t ==>
      Sum(p'.inputs, FundsIn(u)) == Sum(p.inputs, FundsIn(u)) && Sum(p'.outputs, FundsOut(u)) == Sum(p.outputs, FundsOut(u))
    ensures IsTable(m[t := TokenBalance(Sum(p'.inputs, FundsIn(t)), Sum(p'.outputs, FundsOut(t)))], p')
  {
  }

  lemma EntryIsSum(m: map<Token, TokenBalance>, p: Proposal, t: Token)
    requires IsTable(m, p)
    ensures Entry(m, t) == TokenBalance(Sum(p.inputs, FundsIn(t)), Sum(p.outputs, FundsOut(t)))
  {
    if !Mentions(p, t) {
      AbsentIsZero(p, t);
    }
  }

  lemma TableWithInput(m: map<Token, TokenBalance>, p: Proposal, i: ProposalInput)
    requires IsTable(m, p)
    ensures var t := Token(i.token);
      IsTable(m[t := Entry(m, t).(inputs := Entry(m, t).inputs + FundsIn(t)(i))], p.(inputs := p.inputs + [i]))
  {
    var p' := p.(inputs := p.inputs + [i]);
    InputMentions(p, i);
    forall t: Token ensures Sum(p'.inputs, FundsIn(t)) == Sum(p.inputs, FundsIn(t)) + FundsIn(t)(i) {
      SumPush(p.inputs, i, FundsIn(t));
    }
    EntryIsSum(m, p, Token(i.token));
    TableUpdate(m, p, p', Token(i.token));
  }

  lemma InputMentions(p: Proposal, i: ProposalInput)
    ensures forall t: Token :: Mentions(p.(inputs := p.inputs + [i]), t) <==> Mentions(p, t) || t == Token(i.token)
  {
    var p' := p.(inputs := p.inputs + [i]);
    assert i in p'.inputs;
    forall t: Token ensures Mentions(p', t) <==> Mentions(p, t) || t == Token(i.token) {
      assert forall j :: j in p.inputs ==> j in p'.inputs;
    }
  }

  lemma TableWithOutput(m: map<Token, TokenBalance>, p: Proposal, o: ProposalOutput)
    requires IsTable(m, p)
    ensures var t := Token(o.token);
      IsTable(m[t := Entry(m, t).(outputs := Entry(m, t).outputs + FundsOut(t)(o))], p.(outputs := p.outputs + [o]))
  {
    var p' := p.(outputs := p.outputs + [o]);
    OutputMentions(p, o);
    forall t: Token ensures Sum(p'.outputs, FundsOut(t)) == Sum(p.outputs, FundsOut(t)) + FundsOut(t)(o) {
      SumPush(p.outputs, o, FundsOut(t));
    }
    EntryIsSum(m, p, Token(o.token));
    TableUpdate(m, p, p', Token(o.token));
  }

  lemma OutputMentions(p: Proposal, o: ProposalOutput)
    ensures forall t: Token :: Mentions(p.(outputs := p.outputs + [o]), t) <==> Mentions(p, t) || t == Token(o.token)
  {
    var p' := p.(outputs := p.outputs + [o]);
    assert o in p'.outputs;
    forall t: Token ensures Mentions(p', t) <==> Mentions(p, t) || t == Token(o.token) {
      assert forall j :: j in p.outputs ==> j in p'.outputs;
    }
  }

  /** `calculateTokenBalance` */
  method CalculateTokenBalance(p: Proposal) returns (m: map<Token, TokenBalance>)
    ensures IsTable(m, p)
  {
    m := CountInputs(p.inputs);
    m := CountOutputs(m, p.inputs, p.outputs);
  }

  method CountInputs(inputs: seq<ProposalInput>) returns (m: map<Token, TokenBalance>)
    ensures IsTable(m, Proposal(inputs, []))
  {
    m := map[];
    EmptyTable();
    for k := 0 to |inputs|
      invariant IsTable(m, Proposal(inputs[..k], []))
    {
      TableWithInput(m, Proposal(inputs[..k], []), inputs[k]);
      OneMore(inputs, k);
      m := CountInput(m, inputs[k]);
    }
    WholePrefix(inputs);
  }

  method CountOutputs(counted: map<Token, TokenBalance>, inputs: seq<ProposalInput>, outputs: seq<ProposalOutput>) returns (m: map<Token, TokenBalance>)
    requires IsTable(counted, Proposal(inputs, []))
    ensures IsTable(m, Proposal(inputs, outputs))
  {
    m := counted;
    assert outputs[..0] == [];
    for k := 0 to |outputs|
      invariant IsTable(m, Proposal(inputs, outputs[..k]))
    {
      TableWithOutput(m, Proposal(inputs, outputs[..k]), outputs[k]);
      OneMore(outputs, k);
      m := CountOutput(m, outputs[k]);
    }
    WholePrefix(outputs);
  }

  lemma EmptyTable()
    ensures IsTable(map[], Proposal([], []))
  {
  }

  method CountInput(m: map<Token, TokenBalance>, i: ProposalInput) returns (m': map<Token, TokenBalance>)
    ensures var t := Token(i.token);
      m' == m[t := Entry(m, t).(inputs := Entry(m, t).inputs + FundsIn(t)(i))]
  {
    m' := m;
    var t := Token(i.token);
    if t !in m' {
      m' := m'[t := TokenBalance(0, 0)];
    }
    if i.authorities == 0 {
      m' := m'[t := m'[t].(inputs := m'[t].inputs + i.value)];
    }
  }

  method CountOutput(m: map<Token, TokenBalance>, o: ProposalOutput) returns (m': map<Token, TokenBalance>)
    ensures var t := Token(o.token);
      m' == m[t := Entry(m, t).(outputs := Entry(m, t).outputs + FundsOut(t)(o))]
  {
    m' := m;
    var t := Token(o.token);
    if t !in m' {
      m' := m'[t := TokenBalance(0, 0)];
    }
    if o.authorities == 0 {
      m' := m'[t := m'[t].(outputs := m'[t].outputs + o.value)];
    }
  }

  /** What the inputs bring of a token beyond what the outputs take. */
  function Surplus(p: Proposal, t: Token): int { Sum(p.inputs, FundsIn(t)) - Sum(p.outputs, FundsOut(t)) }

  ghost predicate Complete(p: Proposal) { forall t: Token :: Surplus(p, t) == 0 }

  /** An appended output uses up surplus of its own token only, and none when it carries an authority; so
      it completes the proposal exactly when the surplus of every token was what the output takes. */
  lemma OutputClosesSurplus(p: Proposal, o: ProposalOutput)
    ensures var q := p.(outputs := p.outputs + [o]);
      && (forall t: Token :: Surplus(q, t) == Surplus(p, t) - FundsOut(t)(o))
      && (Complete(q) <==> forall t: Token :: Surplus(p, t) == FundsOut(t)(o))
  {
    var q := p.(outputs := p.outputs + [o]);
    forall t: Token ensures Surplus(q, t) == Surplus(p, t) - FundsOut(t)(o) {
      SumPush(p.outputs, o, FundsOut(t));
    }
  }

  lemma InputAddsSurplus(p: Proposal, i: ProposalInput)
    ensures var q := p.(inputs := p.inputs + [i]);
      && (forall t: Token :: Surplus(q, t) == Surplus(p, t) + FundsIn(t)(i))
      && (Complete(q) <==> forall t: Token :: Surplus(p, t) == -FundsIn(t)(i))
  {
    var q := p.(inputs := p.inputs + [i]);
    forall t: Token ensures Surplus(q, t) == Surplus(p, t) + FundsIn(t)(i) {
      SumPush(p.inputs, i, FundsIn(t));
    }
  }

  /** `isComplete`: the funds balance in every token there is, mentioned or not. */
  method IsComplete(p: Proposal) returns (complete: bool)
    ensures complete <==> Complete(p)
  {
    var m := CalculateTokenBalance(p);
    complete := forall t :: t in m ==> m[t].inputs == m[t].outputs;
    forall t: Token | t !in m ensures Surplus(p, t) == 0 {
      AbsentIsZero(p, t);
    }
    forall t: Token | t in m ensures m[t].inputs == m[t].outputs <==> Surplus(p, t) == 0 {
    }
  }

  /** The metadata loop of `deserialize`. */
  method ReadMetas(hs: seq<string>) returns (r: Result<seq<Meta>, PartialError>)
    ensures r == ParseMetas(hs)
  {
    var metas: seq<Meta> := [];
    assert hs[0..] == hs;
    for k := 0 to |hs|
      invariant ParseMetas(hs).Ok? <==> ParseMetas(hs[k..]).Ok?
      invariant ParseMetas(hs).Ok? ==> ParseMetas(hs).value == metas + ParseMetas(hs[k..]).value
      invariant ParseMetas(hs).Err? ==> ParseMetas(hs[k..]).error == ParseMetas(hs).error
    {
      assert hs[k..][0] == hs[k] && hs[k..][1..] == hs[k+1..];
      var meta :- ParseMeta(hs[k]);
      metas := metas + [meta];
    }
    assert hs[|hs|..] == [] && metas + [] == metas;
    r := Ok(metas);
  }

  /** What the writing loop learns from one more output. */
  lemma OutputWritten(outputs: seq<ProposalOutput>, k: nat)
    requires k < |outputs|
    ensures ChangeIndexes(outputs[..k+1]) == ChangeIndexes(outputs[..k]) + if outputs[k].isChange then [k] else []
    ensures AllStandard(outputs[..k+1]) <==> AllStandard(outputs[..k]) && StandardScript.ParseStandard(outputs[k].script).Some?
  {
    var more := outputs[..k+1];
    assert more[..k] == outputs[..k] && more[k] == outputs[k];
    assert ChangeIndexes(outputs[..k]) + [] == ChangeIndexes(outputs[..k]);
    forall j | 0 <= j < k ensures more[j] == outputs[..k][j] {
    }
  }

  lemma OneMore<T>(s: seq<T>, k: nat)
    requires k < |s|
    ensures s[..k+1] == s[..k] + [s[k]]
  {
  }

  /** The scripts of the first `n` outputs have a standard form. */
  predicate AllParse(outs: seq<Wire.Output>, n: nat)
    requires n <= |outs|
  {
    forall k :: 0 <= k < n ==> StandardScript.ParseStandard(outs[k].script).Some?
  }

  lemma ParsesNext(outs: seq<Wire.Output>, k: nat)
    requires k < |outs| && AllParse(outs, k)
    ensures AllParse(outs, k + 1) <==> StandardScript.ParseStandard(outs[k].script).Some?
  {
    forall j | 0 <= j < k + 1 && j != k ensures StandardScript.ParseStandard(outs[j].script).Some? {
      assert 0 <= j < k;
    }
  }

  lemma RestoredNext(outs: seq<Wire.Output>, tokens: seq<string>, changes: seq<Option<nat>>, k: nat)
    requires k < |outs|
    ensures RestoreOutputs(outs, tokens, changes)[..k+1]
         == RestoreOutputs(outs, tokens, changes)[..k] + [RestoredOutput(NonNegative(outs[k]), tokens, Some(k) in changes)]
  {
  }

  lemma WholePrefix<T>(s: seq<T>)
    ensures s[..|s|] == s
  {
  }

  class PartialTx {
    var inputs: seq<ProposalInput>
    var outputs: seq<ProposalOutput>
    const network: HeaderWire.Network

    constructor (network: HeaderWire.Network)
      ensures inputs == [] && outputs == [] && this.network == network
    {
      inputs, outputs, this.network := [], [], network;
    }

    function State(): Proposal
      reads this
    {
      Proposal(inputs, outputs)
    }

    /** `addInput` */
    method AddInput(txId: string, index: int, value: nat, address: string, token: string, authorities: nat)
      modifies `inputs
      ensures inputs == old(inputs) + [ProposalInput(txId, index, value, address, token, authorities, None)]
      ensures forall t: Token ::
        Surplus(State(), t) == old(Surplus(State(), t)) + if t.uid == token && authorities == 0 then value else 0
    {
      InputAddsSurplus(State(), ProposalInput(txId, index, value, address, token, authorities, None));
      inputs := inputs + [ProposalInput(txId, index, value, address, token, authorities, None)];
    }

    /** `addOutput`: the proposal is complete afterwards exactly when the output takes the whole surplus. */
    method AddOutput(value: int, script: Bytes, token: string, authorities: nat, isChange: bool)
      modifies `outputs
      ensures outputs == old(outputs) + [ProposalOutput(value, script, token, authorities, isChange)]
      ensures forall t: Token ::
        Surplus(State(), t) == old(Surplus(State(), t)) - if t.uid == token && authorities == 0 then value else 0
      ensures Complete(State()) <==> forall t: Token ::
        old(Surplus(State(), t)) == if t.uid == token && authorities == 0 then value else 0
    {
      OutputClosesSurplus(State(), ProposalOutput(value, script, token, authorities, isChange));
      outputs := outputs + [ProposalOutput(value, script, token, authorities, isChange)];
    }

    /** `serialize` */
    method Serialize() returns (r: Result<string, PartialError>)
      ensures r == Serialized(State())
      ensures r.Ok? ==> PartialLayout.TextTold(State(), r.value)
    {
      PartialLayout.TextLayout(State());
      var changeOutputs: seq<nat> := [];
      var standard := true;
      for k := 0 to |outputs|
        invariant changeOutputs == ChangeIndexes(outputs[..k])
        invariant standard <==> AllStandard(outputs[..k])
      {
        OutputWritten(outputs, k);
        if outputs[k].isChange {
          changeOutputs := changeOutputs + [k];
        }
        standard := standard && StandardScript.ParseStandard(outputs[k].script).Some?;
      }
      assert outputs[..|outputs|] == outputs;
      if !standard {
        return Err(UnsupportedScript);
      }
      var bytes := TransactionWire.PrintTx(TxOf(State()));
      if bytes.Err? {
        return Err(Codec(bytes.error));
      }
      var fields := [PREFIX, BufferToHex(bytes.value), Join(Map(inputs, MetaText()), ':'), Join(Map(changeOutputs, HexText()), ':')];
      r := Ok(Join(fields, '|'));
    }

    /** `deserialize` */
    static method Deserialize(serialized: string, net: HeaderWire.Network) returns (r: Result<PartialTx, PartialError>)
      ensures r.Ok? ==> fresh(r.value) && r.value.network == net && Deserialized(serialized, net) == Ok(r.value.State())
      ensures r.Err? ==> Deserialized(serialized, net) == Err(r.error)
    {
      var dataArr := Split(serialized, '|');
      if |dataArr| != 4 || dataArr[0] != PREFIX {
        return Err(InvalidPartialTx);
      }
      var metas :- ReadMetas(if dataArr[2] == "" then [] else Split(dataArr[2], ':'));
      var changeOutputs := Map(Split(dataArr[3], ':'), ParsedInt());
      var bytes := HexToBuffer(dataArr[1]);
      if bytes.Err? {
        return Err(Codec(bytes.error));
      }
      var tx := TransactionWire.ParseTx(net, bytes.value);
      if tx.Err? {
        return Err(Codec(tx.error));
      }
      r := Restore(tx.value, metas, changeOutputs, net);
    }

    /** The two loops that fill the new object from the parsed transaction. */
    static method Restore(tx: TransactionWire.TxData, metas: seq<Meta>, changeOutputs: seq<Option<nat>>, net: HeaderWire.Network)
      returns (r: Result<PartialTx, PartialError>)
      ensures r.Ok? ==> fresh(r.value) && r.value.network == net && RestoredFrom(Ok(tx), metas, changeOutputs) == Ok(r.value.State())
      ensures r.Err? ==> RestoredFrom(Ok(tx), metas, changeOutputs) == Err(r.error)
    {
      var f := tx.funds;
      if f.version != DEFAULT_TX_VERSION {
        return Err(UnsupportedVersion);
      }
      if |f.inputs| > |metas| {
        return Err(MissingInputData);
      }
      var instance := new PartialTx(net);
      instance.AddInputs(f.inputs, metas);
      var standard := instance.AddOutputs(f.outputs, f.tokens, changeOutputs);
      if !standard {
        return Err(UnsupportedScript);
      }
      r := Ok(instance);
    }

    method RestoreInput(i: Wire.Input, meta: Meta)
      modifies `inputs
      ensures inputs == old(inputs) + [RestoredInput(i, meta)]
    {
      AddInput(i.hash, i.index, meta.value, meta.address, meta.token, meta.authorities);
    }

    method RestoreOutput(o: Wire.Output, tokens: seq<string>, isChange: bool)
      requires o.tokenData >= 0
      modifies `outputs
      ensures outputs == old(outputs) + [RestoredOutput(o, tokens, isChange)]
    {
      AddOutput(o.value, o.script, RestoredToken(o, tokens), RestoredAuthorities(o), isChange);
    }

    method AddInputs(ins: seq<Wire.Input>, metas: seq<Meta>)
      requires inputs == [] && |ins| <= |metas|
      modifies `inputs
      ensures inputs == RestoreInputs(ins, metas)
    {
      ghost var all := RestoreInputs(ins, metas);
      for k := 0 to |ins|
        invariant inputs == all[..k]
      {
        RestoreInput(ins[k], metas[k]);
        OneMore(all, k);
        assert all[k] == RestoredInput(ins[k], metas[k]);
      }
      WholePrefix(all);
    }

    /** False at the first output whose script has no standard form. */
    method AddOutputs(outs: seq<Wire.Output>, tokens: seq<string>, changeOutputs: seq<Option<nat>>) returns (standard: bool)
      requires outputs == []
      modifies `outputs
      ensures standard <==> AllParse(outs, |outs|)
      ensures standard ==> outputs == RestoreOutputs(outs, tokens, changeOutputs)
    {
      ghost var all := RestoreOutputs(outs, tokens, changeOutputs);
      for k := 0 to |outs|
        invariant outputs == all[..k] && AllParse(outs, k)
      {
        var parsed := StandardScript.ParseStandard(outs[k].script);
        if parsed.None? {
          return false;
        }
        RestoreOutput(NonNegative(outs[k]), tokens, Some(k) in changeOutputs);
        RestoredNext(outs, tokens, changeOutputs, k);
        ParsesNext(outs, k);
      }
      WholePrefix(all);
      standard := true;
    }
  }
}
