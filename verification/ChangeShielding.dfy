/** Rewriting transparent change as shielded outputs: the custom-token loop of `prepareTxData` and
    `convertHtrChangeIfRequested` of src/new/sendTransaction.ts. */
module ChangeShielding {
  import opened Wrappers
  import opened SeqSums
  import opened WalletTypes
  import opened UtxoStore
  import opened UtxoSelection
  import opened SendModel
  import opened TokenFunding
  import ShieldedCreation

  function ChangeDef(net: Network, address: string, token: Uid, value: int, mode: Mode): Def {
    ShieldedCreation.Proposal(net.spendAddress(address), value, token, net.scanPubkey(address), mode, None)
  }

  function ChangeToDef(net: Network, address: string, mode: Mode): DataOutput -> Def {
    (o: DataOutput) => ChangeDef(net, address, o.token, o.value, mode)
  }

  function IsCustomChange(): DataOutput -> bool { (o: DataOutput) => o.token != HTR && o.isChange }

  function IsKept(): DataOutput -> bool { (o: DataOutput) => !(o.token != HTR && o.isChange) }

  /** Why custom change could not be shielded: too many shielded outputs, or no shielded address. */
  ghost predicate ShieldingRefused(outputs: seq<DataOutput>, defs: seq<Def>, wallet: Wallet, net: Network, e: SendError) {
    || (e == TooManyShieldedOutputs && |defs| + |Filter(outputs, IsCustomChange())| > MAX_SHIELDED_OUTPUTS)
    || (e == NotAShieldedAddress && Filter(outputs, IsCustomChange()) != [] && net.kind(wallet.shieldedAddress) != Shielded)
  }

  lemma MoreChange(outputs: seq<DataOutput>, k: nat)
    requires k < |outputs| && IsCustomChange()(outputs[k])
    ensures |Filter(outputs, IsCustomChange())| > |Filter(outputs[..k], IsCustomChange())|
  {
    assert outputs == outputs[..k] + outputs[k..];
    FilterAppend(outputs[..k], outputs[k..], IsCustomChange());
  }

  /** Every custom-token change output becomes a shielded output of its full value; the rest stays. */
  method ShieldCustomChange(outputs: seq<DataOutput>, defs: seq<Def>, mode: Mode, wallet: Wallet, net: Network)
    returns (r: Result<(seq<DataOutput>, seq<Def>), SendError>)
    ensures r.Ok? ==>
      && r.value.0 == Filter(outputs, IsKept())
      && r.value.1 == defs + Map(Filter(outputs, IsCustomChange()), ChangeToDef(net, wallet.shieldedAddress, mode))
      && (r.value.1 != defs ==> |r.value.1| <= MAX_SHIELDED_OUTPUTS)
    ensures r.Err? ==> ShieldingRefused(outputs, defs, wallet, net, r.error)
  {
    var kept: seq<DataOutput> := [];
    var added: seq<Def> := [];
    for k := 0 to |outputs|
      invariant Shielding(outputs, k, net, wallet.shieldedAddress, mode, kept, added)
      invariant added != [] ==> |defs| + |added| <= MAX_SHIELDED_OUTPUTS
    {
      var out := outputs[k];
      ChangeStep(outputs, k, net, wallet.shieldedAddress, mode, kept, added);
      if out.token != HTR && out.isChange {
        if |defs| + |added| >= MAX_SHIELDED_OUTPUTS {
          ShieldingStops(outputs, k, defs, mode, wallet, net, kept, added);
          return Err(TooManyShieldedOutputs);
        }
        if net.kind(wallet.shieldedAddress) != Shielded {
          ShieldingStops(outputs, k, defs, mode, wallet, net, kept, added);
          return Err(NotAShieldedAddress);
        }
        added := added + [ChangeDef(net, wallet.shieldedAddress, out.token, out.value, mode)];
      } else {
        kept := kept + [out];
      }
    }
    assert outputs[..|outputs|] == outputs;
    assert |defs + added| == |defs| + |added|;
    assert added == [] ==> defs + added == defs;
    r := Ok((kept, defs + added));
  }

  /** The first `k` outputs are sorted into those kept and the definitions of those shielded. */
  ghost predicate Shielding(outputs: seq<DataOutput>, k: nat, net: Network, address: string, mode: Mode,
                            kept: seq<DataOutput>, added: seq<Def>) {
    && k <= |outputs| && kept == Filter(outputs[..k], IsKept())
    && added == Map(Filter(outputs[..k], IsCustomChange()), ChangeToDef(net, address, mode))
  }

  lemma ChangeStep(outputs: seq<DataOutput>, k: nat, net: Network, address: string, mode: Mode,
                   kept: seq<DataOutput>, added: seq<Def>)
    requires k < |outputs| && Shielding(outputs, k, net, address, mode, kept, added)
    ensures IsCustomChange()(outputs[k]) ==>
      Shielding(outputs, k + 1, net, address, mode, kept, added + [ChangeDef(net, address, outputs[k].token, outputs[k].value, mode)])
    ensures IsKept()(outputs[k]) ==> Shielding(outputs, k + 1, net, address, mode, kept + [outputs[k]], added)
  {
    var out := outputs[k];
    assert outputs[..k+1] == outputs[..k] + [out];
    FilterPush(outputs[..k], out, IsKept());
    FilterPush(outputs[..k], out, IsCustomChange());
    MapPush(Filter(outputs[..k], IsCustomChange()), out, ChangeToDef(net, address, mode));
  }

  lemma ShieldingStops(outputs: seq<DataOutput>, k: nat, defs: seq<Def>, mode: Mode, wallet: Wallet, net: Network,
                       kept: seq<DataOutput>, added: seq<Def>)
    requires k < |outputs| && Shielding(outputs, k, net, wallet.shieldedAddress, mode, kept, added) && IsCustomChange()(outputs[k])
    ensures |defs| + |added| >= MAX_SHIELDED_OUTPUTS ==> ShieldingRefused(outputs, defs, wallet, net, TooManyShieldedOutputs)
    ensures net.kind(wallet.shieldedAddress) != Shielded ==> ShieldingRefused(outputs, defs, wallet, net, NotAShieldedAddress)
  {
    MoreChange(outputs, k);
  }

  /** Converting moves value from transparent change to shielded outputs, token by token. */
  lemma ConversionKeepsValue(outputs: seq<DataOutput>, net: Network, address: string, mode: Mode, token: Uid)
    requires forall o :: o in outputs ==> o.kind == AddressOutput
    ensures Sum(outputs, ValueOut(token))
         == Sum(Filter(outputs, IsKept()), ValueOut(token))
          + Sum(Map(Filter(outputs, IsCustomChange()), ChangeToDef(net, address, mode)), ValueDef(token))
  {
    SumFilterSplit(outputs, IsKept(), IsCustomChange(), ValueOut(token));
    var converted := Filter(outputs, IsCustomChange());
    SumPointwise(Map(converted, ChangeToDef(net, address, mode)), converted, ValueDef(token), ValueOut(token));
  }

  predicate IsHtrChange(o: DataOutput) { o.token == HTR && o.isChange }

  /** `findIndex` for the HTR change, or the length when there is none. */
  function HtrChangeIndex(outputs: seq<DataOutput>): (i: nat)
    ensures i <= |outputs|
    ensures i < |outputs| ==> IsHtrChange(outputs[i])
    ensures forall j :: 0 <= j < i ==> !IsHtrChange(outputs[j])
  {
    if outputs == [] then 0
    else if IsHtrChange(outputs[0]) then 0
    else
      var rest := HtrChangeIndex(outputs[1..]);
      assert forall j :: 0 < j < 1 + rest ==> outputs[j] == outputs[1..][j-1];
      1 + rest
  }

  function NotUsed(used: set<UtxoId>): Utxo -> bool { (u: Utxo) => u.id !in used }

  function PullOptions(used: set<UtxoId>): FilterOptions {
    DefaultOptions(HTR).(onlyAvailable := true, order := Ascending, filterMethod := NotUsed(used))
  }

  function IdsOf(inputs: seq<DataInput>): set<UtxoId> { set i | i in inputs :: i.id }

  /** The extra HTR folded into a change too small to pay for its own shielding: available utxos
      the transaction does not spend yet, smallest first, and no more of them than needed. */
  ghost predicate Pulled(s: WalletStorage, used: set<UtxoId>, deficit: int, pulled: seq<Utxo>) {
    && pulled <= Selection(s.funds, PullOptions(used))
    && Sum(pulled, UtxoValue()) > deficit
    && (pulled != [] ==> Sum(pulled[..|pulled| - 1], UtxoValue()) <= deficit)
  }

  /** What one conversion of the HTR change does. */
  ghost predicate Converted(s: WalletStorage, net: Network, wallet: Wallet, mode: Mode, canSelectMoreHtr: bool, existing: seq<DataInput>,
                            f: Funding, defs: seq<Def>, f': Funding, defs': seq<Def>, addedFee: int, pulled: seq<Utxo>) {
    var i := HtrChangeIndex(f.outputs);
    && i < |f.outputs|
    && |defs'| == |defs| + 1 <= MAX_SHIELDED_OUTPUTS
    && addedFee == FeeOfMode(mode)
    && f'.outputs == RemoveAt(f.outputs, i)
    && f'.inputs == f.inputs + Map(pulled, InputFrom())
    && defs' == defs + [ChangeDef(net, wallet.shieldedAddress, HTR, f.outputs[i].value + Sum(pulled, UtxoValue()) - addedFee, mode)]
    && defs'[|defs|].value > 0
    && Raised(s, IdsOf(existing) + IdsOf(f.inputs), f.outputs[i].value, addedFee, canSelectMoreHtr, pulled)
  }

  /** Change that does not exceed the fee is raised over it by pulled utxos. */
  ghost predicate Raised(s: WalletStorage, used: set<UtxoId>, change: int, fee: int, canSelectMoreHtr: bool, pulled: seq<Utxo>) {
    if change > fee then pulled == [] else canSelectMoreHtr && Pulled(s, used, fee - change, pulled)
  }

  ghost predicate ConversionApplies(f: Funding, defs: seq<Def>, mode: Option<Mode>, wallet: Option<Wallet>) {
    mode.Some? && wallet.Some? && defs != [] && HtrChangeIndex(f.outputs) < |f.outputs|
  }

  /** Why the HTR change could not be converted. */
  ghost predicate ConversionRefused(s: WalletStorage, net: Network, wallet: Wallet, mode: Mode, canSelectMoreHtr: bool,
                                    existing: seq<DataInput>, f: Funding, defs: seq<Def>, e: SendError)
    requires HtrChangeIndex(f.outputs) < |f.outputs|
  {
    var change := f.outputs[HtrChangeIndex(f.outputs)].value;
    || (e == TooManyShieldedOutputs && |defs| >= MAX_SHIELDED_OUTPUTS)
    || RaiseRefused(s, IdsOf(existing) + IdsOf(f.inputs), change, FeeOfMode(mode), canSelectMoreHtr, e)
    || (e == NotAShieldedAddress && net.kind(wallet.shieldedAddress) != Shielded)
  }

  /** Too little change: no utxo may be pulled, or all of them together fall short. */
  ghost predicate RaiseRefused(s: WalletStorage, used: set<UtxoId>, change: int, fee: int, canSelectMoreHtr: bool, e: SendError) {
    || (e == ChangeTooSmall && change <= fee && !canSelectMoreHtr)
    || (e == NoHtrForShieldedChange && canSelectMoreHtr && change + Sum(Selection(s.funds, PullOptions(used)), UtxoValue()) <= fee)
  }

  /** `convertHtrChangeIfRequested` */
  method ConvertHtrChangeIfRequested(f: Funding, defs: seq<Def>, mode: Option<Mode>, wallet: Option<Wallet>, net: Network,
                                     s: WalletStorage, existing: seq<DataInput>, canSelectMoreHtr: bool)
    returns (r: Result<(Funding, seq<Def>, int), SendError>, ghost pulled: seq<Utxo>)
    ensures !ConversionApplies(f, defs, mode, wallet) ==> r == Ok((f, defs, 0)) && pulled == []
    ensures ConversionApplies(f, defs, mode, wallet) && r.Ok? ==>
      Converted(s, net, wallet.value, mode.value, canSelectMoreHtr, existing, f, defs, r.value.0, r.value.1, r.value.2, pulled)
    ensures r.Err? ==>
      && ConversionApplies(f, defs, mode, wallet)
      && ConversionRefused(s, net, wallet.value, mode.value, canSelectMoreHtr, existing, f, defs, r.error)
  {
    pulled := [];
    if mode.None? || wallet.None? || |defs| == 0 {
      return Ok((f, defs, 0)), pulled;
    }
    var changeIdx := HtrChangeIndex(f.outputs);
    if changeIdx == |f.outputs| {
      return Ok((f, defs, 0)), pulled;
    }
    r, pulled := ConvertChangeAt(f, changeIdx, defs, mode.value, wallet.value, net, s, existing, canSelectMoreHtr);
  }

  /** The conversion of the change output at `changeIdx`. */
  method ConvertChangeAt(f: Funding, changeIdx: nat, defs: seq<Def>, mode: Mode, wallet: Wallet, net: Network,
                         s: WalletStorage, existing: seq<DataInput>, canSelectMoreHtr: bool)
    returns (r: Result<(Funding, seq<Def>, int), SendError>, ghost pulled: seq<Utxo>)
    requires changeIdx == HtrChangeIndex(f.outputs) < |f.outputs|
    ensures r.Ok? ==>
      Converted(s, net, wallet, mode, canSelectMoreHtr, existing, f, defs, r.value.0, r.value.1, r.value.2, pulled)
    ensures r.Err? ==> ConversionRefused(s, net, wallet, mode, canSelectMoreHtr, existing, f, defs, r.error)
  {
    pulled := [];
    var additionalFee := FeeOfMode(mode);
    if |defs| >= MAX_SHIELDED_OUTPUTS {
      return Err(TooManyShieldedOutputs), pulled;
    }
    var change, utxos := RaiseChange(s, IdsOf(existing) + IdsOf(f.inputs), f.outputs[changeIdx].value, additionalFee, canSelectMoreHtr);
    if change.Err? {
      return Err(change.error), pulled;
    }
    if net.kind(wallet.shieldedAddress) != Shielded {
      return Err(NotAShieldedAddress), pulled;
    }
    pulled := utxos;
    ConversionDone(s, net, wallet, mode, canSelectMoreHtr, existing, f, defs, change.value, utxos);
    var def := ChangeDef(net, wallet.shieldedAddress, HTR, change.value - additionalFee, mode);
    r := Ok((Funding(f.inputs + Map(utxos, InputFrom()), RemoveAt(f.outputs, changeIdx)), defs + [def], additionalFee));
  }

  lemma ConversionDone(s: WalletStorage, net: Network, wallet: Wallet, mode: Mode, canSelectMoreHtr: bool, existing: seq<DataInput>,
                       f: Funding, defs: seq<Def>, change: int, pulled: seq<Utxo>)
    requires HtrChangeIndex(f.outputs) < |f.outputs| && |defs| < MAX_SHIELDED_OUTPUTS
    requires change == f.outputs[HtrChangeIndex(f.outputs)].value + Sum(pulled, UtxoValue()) > FeeOfMode(mode)
    requires Raised(s, IdsOf(existing) + IdsOf(f.inputs), f.outputs[HtrChangeIndex(f.outputs)].value, FeeOfMode(mode), canSelectMoreHtr, pulled)
    ensures Converted(s, net, wallet, mode, canSelectMoreHtr, existing, f, defs,
                      Funding(f.inputs + Map(pulled, InputFrom()), RemoveAt(f.outputs, HtrChangeIndex(f.outputs))),
                      defs + [ChangeDef(net, wallet.shieldedAddress, HTR, change - FeeOfMode(mode), mode)], FeeOfMode(mode), pulled)
  {
  }

  method RaiseChange(s: WalletStorage, used: set<UtxoId>, change: int, fee: int, canSelectMoreHtr: bool)
    returns (r: Result<int, SendError>, pulled: seq<Utxo>)
    ensures r.Ok? ==> r.value == change + Sum(pulled, UtxoValue()) > fee && Raised(s, used, change, fee, canSelectMoreHtr, pulled)
    ensures r.Err? ==> RaiseRefused(s, used, change, fee, canSelectMoreHtr, r.error)
  {
    pulled := [];
    if change > fee {
      return Ok(change), pulled;
    }
    if !canSelectMoreHtr {
      return Err(ChangeTooSmall), pulled;
    }
    var pulledSum: int;
    pulled, pulledSum := PullHtr(s, used, fee - change);
    if pulledSum <= fee - change {
      return Err(NoHtrForShieldedChange), pulled;
    }
    r := Ok(change + pulledSum);
  }

  /** The pulling loop: it stops at the first utxo that lifts the sum over the deficit. */
  method PullHtr(s: WalletStorage, used: set<UtxoId>, deficit: int) returns (pulled: seq<Utxo>, pulledSum: int)
    requires deficit >= 0
    ensures pulledSum == Sum(pulled, UtxoValue())
    ensures pulledSum > deficit ==> Pulled(s, used, deficit, pulled)
    ensures pulledSum <= deficit ==> pulled == Selection(s.funds, PullOptions(used))
  {
    var selection := SelectAvailable(s.funds, PullOptions(used));
    var xs := selection.value;
    pulled, pulledSum := [], 0;
    for k := 0 to |xs|
      invariant pulled == xs[..k] && pulledSum == Sum(pulled, UtxoValue()) <= deficit
    {
      SumPush(pulled, xs[k], UtxoValue());
      PulledOne(s, used, deficit, xs, k);
      pulled := pulled + [xs[k]];
      pulledSum := pulledSum + xs[k].value;
      if pulledSum > deficit {
        return;
      }
    }
  }

  lemma PulledOne(s: WalletStorage, used: set<UtxoId>, deficit: int, xs: seq<Utxo>, k: nat)
    requires k < |xs| && xs == Selection(s.funds, PullOptions(used)) && Sum(xs[..k], UtxoValue()) <= deficit
    ensures xs[..k+1] == xs[..k] + [xs[k]]
    ensures Sum(xs[..k] + [xs[k]], UtxoValue()) > deficit ==> Pulled(s, used, deficit, xs[..k] + [xs[k]])
  {
    var pulled := xs[..k] + [xs[k]];
    assert pulled == xs[..k+1] && pulled[..|pulled| - 1] == xs[..k];
  }

  /** Pulled utxos are unmarked HTR funds of the store the transaction did not spend before. */
  lemma PulledIsFresh(s: WalletStorage, used: set<UtxoId>, deficit: int, pulled: seq<Utxo>)
    requires Pulled(s, used, deficit, pulled)
    ensures forall i :: i in Map(pulled, InputFrom()) ==> FromStore(s, HTR, i) && i.token == HTR && i.id !in used
    ensures Sum(Map(pulled, InputFrom()), ValueIn(HTR)) == Sum(pulled, UtxoValue())
    ensures UniqueOutpoints(s.funds) ==> Distinct(Map(Map(pulled, InputFrom()), InputIdOf()))
  {
    var xs := Selection(s.funds, PullOptions(used));
    SelectionMeetsOptions(s.funds, PullOptions(used));
    var ins := Map(pulled, InputFrom());
    forall k | 0 <= k < |ins| ensures FromStore(s, HTR, ins[k]) && ins[k].token == HTR && ins[k].id !in used {
      assert pulled[k] == xs[k] && xs[k] in xs;
      assert Matches(xs[k], s.funds.store, WrappedOptions(s.funds, PullOptions(used)));
      assert NotSelected(s.funds, PullOptions(used))(xs[k]);
    }
    forall k | 0 <= k < |pulled| ensures ValueIn(HTR)(ins[k]) == UtxoValue()(pulled[k]) {
      assert ins[k] == InputFromUtxo(pulled[k]) && ins[k].token == HTR;
    }
    SumPointwise(ins, pulled, ValueIn(HTR), UtxoValue());
    if UniqueOutpoints(s.funds) {
      SelectionIsAvailable(s.funds, PullOptions(used));
      assert Map(ins, InputIdOf()) == Map(xs, UtxoIdOf())[..|pulled|];
    }
  }

  /** The conversion keeps the HTR balance: what leaves the change or enters as extra input is the
      shielded value plus the added fee. */
  lemma ConvertedKeepsBalance(s: WalletStorage, net: Network, wallet: Wallet, mode: Mode, canSelectMoreHtr: bool, existing: seq<DataInput>,
                              f: Funding, defs: seq<Def>, f': Funding, defs': seq<Def>, addedFee: int, pulled: seq<Utxo>)
    requires Converted(s, net, wallet, mode, canSelectMoreHtr, existing, f, defs, f', defs', addedFee, pulled)
    requires forall o :: o in f.outputs ==> o.kind == AddressOutput
    ensures Sum(f'.inputs, ValueIn(HTR)) - Sum(f.inputs, ValueIn(HTR))
         == Sum(f'.outputs, ValueOut(HTR)) - Sum(f.outputs, ValueOut(HTR))
          + Sum(defs', ValueDef(HTR)) - Sum(defs, ValueDef(HTR)) + addedFee
    ensures forall t: Uid :: t != HTR ==>
      && Sum(f'.inputs, ValueIn(t)) == Sum(f.inputs, ValueIn(t))
      && Sum(f'.outputs, ValueOut(t)) == Sum(f.outputs, ValueOut(t))
      && Sum(defs', ValueDef(t)) == Sum(defs, ValueDef(t))
  {
    var i := HtrChangeIndex(f.outputs);
    var ins := Map(pulled, InputFrom());
    if pulled != [] {
      PulledIsFresh(s, IdsOf(existing) + IdsOf(f.inputs), addedFee - f.outputs[i].value, pulled);
    }
    assert f.outputs[i] in f.outputs;
    forall t: Uid
      ensures Sum(f.outputs, ValueOut(t)) == Sum(f'.outputs, ValueOut(t)) + ValueOut(t)(f.outputs[i])
      ensures Sum(defs', ValueDef(t)) == Sum(defs, ValueDef(t)) + ValueDef(t)(defs'[|defs|])
      ensures Sum(f'.inputs, ValueIn(t)) == Sum(f.inputs, ValueIn(t)) + Sum(ins, ValueIn(t))
      ensures t != HTR ==> Sum(ins, ValueIn(t)) == 0
    {
      SumSplitAt(f.outputs, i, ValueOut(t));
      SumAppend(f.outputs[..i], f.outputs[i+1..], ValueOut(t));
      SumPush(defs, defs'[|defs|], ValueDef(t));
      SumAppend(f.inputs, ins, ValueIn(t));
      if t != HTR {
        SumZero(ins, ValueIn(t));
      }
    }
  }
}
