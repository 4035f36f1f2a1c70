# Verification of the Hathor wallet library's core

A Dafny model of the parts of the wallet library where value, bytes and messages can be lost, and
proofs about them over every input, every run and every reachable state. `dafny verify dfyconfig.toml`
checks the whole project. Cited paths are those of the library's repository.

## What is modelled

**Sending tokens.** `SendModel`, `SendPlan`, `TokenFunding`, `ChangeShielding`, `TransactionAssembly`,
`SendBalance` and `PreparedTransaction` follow `prepareTxData` stage by stage: collecting outputs with
phantoms in the place of shielded ones, resolving the caller's inputs, funding each custom token,
rewriting its change, computing the fee, funding HTR, converting its change, shuffling, dropping the
phantoms by identity, collecting blinding entries, creating shielded outputs, computing the excess factor
and listing the public tokens. The result is stated once, as what `SendTransaction.PrepareTxData` delivers.
`NativeSend` shows when a send goes through. `SendRequests`, `SendBlinding` and `SendRefusals` tell the result from
the fields of the request, the history and the utxos alone: what was paid, what was blinded, and what an error means.
`UtxoStore`, `UtxoSelection`, `BalanceMatching`, `FilledInputs` and `Fee` are the selection, balance matching and fee
functions it stands on, each proved against its own specification and not assumed; `FeeSchedule` tells the fee by
counting.

**Shielded outputs.** `ShieldedCreation` builds a batch whose last blinding factor closes the balance;
`ShieldedLimits` says in numbers what it accepts and why it fails. `ShieldedProcessing` decodes a transaction's slots
in place.

**Nano contract transactions.** `NanoWallet`, `NanoBuilder` and `NanoTransactionBuilder` turn actions into
inputs and outputs, mark utxos, settle the fee and release marks on failure. `NanoActions` says beforehand
which actions succeed, what they spend and whether they owe a fee; `NanoRequests` tells a finished transaction from
the fields of the actions and utxos alone; `NanoExamples` runs the builder where it does not do what it promises.

**The wire codec.** `Bytes`, `Text`, `Leb128`, `Wire`, `HeaderWire` and `TransactionWire` give each layer as a
print and a parse function with the law that parsing a print followed by any rest gives the value and that
rest; `TransactionCodec` holds the transaction classes whose loops compute those functions; `WireLayout` and
`TransactionLayout` display the bytes themselves. LEB128 is section 7.6 of DWARF 5.

**Streaming history sync.** `StreamClient` is the client as atomic turns, `StreamRuns` tells a run from its
events alone, `StreamProtocol` puts the client against a server that respects the window, `StreamManager` is the
class with its linked queue (`LinkedQueue`), whose every turn is the client's.

**Scheduling.** `PriorityQueue` is the array heap, `PromiseQueue` the bounded scheduler above it, with jobs
that fail within the turn that starts them and re-enter it.

**History and partial transactions.** `HistoryStore` and `MemoryStore` hold the ordering key and the history
it orders, `HistoryRuns` what any run of saves, sorts and cleans leaves of them; `Separated`, `StandardScript`,
`ProposalText`, `PartialLayout` and `PartialTransaction` hold the text form of an atomic-swap proposal.

## How to read the model

- Errors are values of a `Result`; kinds of error are kept apart where the source's callers can tell them
  apart, and a failing operation states a cause that holds of its input.
- Code that updates objects is a class whose methods are proved against functions of the state; the laws are
  lemmas about those functions.
- The clock, the block height, base58 decoding, scripts of addresses and the crypto provider are parameters.
  `Honest` is what is required of the provider: it returns the blinding factors it is given, and its balancing
  factor closes the balance; `ExactProviderIsHonest` shows that this can be met.
- A blinding factor is a number, and a buffer of the wrong size one that 32 bytes do not hold.
- `StoreMirrorsHistory` says that the utxo store and the transaction history agree. It is needed only for the
  statements about double spending and the full-unshield call; conservation and fees hold without it.

## Where the code differs from its documentation

Each point names the theorem that says exactly when it happens and the example that shows it does.

- The nano builder sets `tokenFeeAddedInDeposit` when a deposit also pays for a token creation and never
  clears it. A builder that is used again for a plain transaction then declares a fee it does not fund.
  `Build`: the transaction balances if and only if the mark is not set, or the contract pays, or no action
  deposits or withdraws a custom token that pays fees. Example: `NanoExamples.StaleFeeMark`.
- The builder promises to release utxos on failure. It does so after the actions are done; when an action
  fails, `inputs` is still the empty list. `Build`: the wallet is as it was if and only if all actions were done
  or none before the failing one spent an outpoint the history knows as unspent. Example:
  `NanoExamples.FailureKeepsMark`.
- `matchTokenBalance` selects mint and melt authorities separately without marking, so a utxo holding both can
  be selected twice. `DoubleSpendIffSharedAuthority`: this happens if and only if a free utxo holding both has
  fewer mint holders before it in the store than missing mint authorities, and fewer melt holders than missing
  melt ones. Example: `MixedAuthorityIsSpentTwice`.
- `fillTx` selects unmarked utxos without looking at the inputs the transaction already has, so it can add one
  of them again. `FilledInputsDistinctIff`: the filled transaction spends no outpoint twice if and only if it
  did not before, the previous point does not apply, and no input of its own is a free utxo the selection
  reaches. Example: `OwnInputIsAddedAgain`.
- A stream error with an empty message aborts the stream, and `shutdown` then succeeds although items received
  were not stored. `ShutdownStoresEverything`: if and only if items were queued when it arrived. Example:
  `EmptyErrorLosesItems`.
- With a flow-control window of one, the begin message uses up the window and the client never acknowledges it.
  `NeverBothWait`: before the first item the server may send if and only if the begin message left room.
  Example: `WindowOfOneIsStuck`.
- Token names and symbols are bounded in UTF-16 units when written and in UTF-8 bytes when read.
  `TokenInfoRoundTrip`: they are read back if and only if they keep the bounds in UTF-8. Example:
  `EuroSymbolDoesNotSurvive`.
- Bytes left after the nonce are parsed as headers, but a single one is ignored. `OnlyOneByteIsIgnored`: this
  happens if and only if there is one and no header, for every such transaction and byte.
  `CreateTokenIgnoresOneByte` says the same of token creations whose token information is readable.
- The maximum sizes of range proofs, surjection proofs and shielded scripts are checked by the parser only.
  `ShieldedRoundTrip`: a printed output is read back if and only if it keeps them. Example:
  `OversizedProofIsRefused`.
- Saving a transaction again with another timestamp keeps the ordering key of the first one. `SaveTx`: the keys
  stay current if and only if the timestamp is unchanged. `HistoryRuns.Replay`: after any run, iteration is
  chronological if and only if later saves kept the order of the first ones. Example: `StaleOrder`.
- A script with a timelock of zero comes back from a partial transaction's text without its timelock, and
  authorities come back from the value of the output rather than from its authorities. `TextRoundTrip`: a
  proposal comes back unchanged if and only if it `Survives`. Examples: `ZeroTimelockIsLost`,
  `AuthorityIsReplaced`.

## Model

| member | source | states |
|---|---|---|
| PreparedTransaction.SendTransaction.PrepareTxData | src/new/sendTransaction.ts:238-824 | Without a storage it fails as such. Else on every success the data is conserved token by token, its fee exact, its outputs the requested ones plus change that goes home, its shielded outputs 0 or 2 to 32 and genuine, its blinding factors balanced; with a store that mirrors the history the full-unshield call meets its precondition, and with distinct caller inputs no outpoint is spent twice; every failure has a cause in the request, the funds or the assembly and leaves the object unchanged |
| PreparedTransaction.Prepare | src/new/sendTransaction.ts:238-824 | The same guarantees for the preparation itself, for any storage, request and shuffles; a transparent send of HTR alone succeeds if and only if the available HTR covers it |
| NativeSend.PlanNotRefused | src/new/sendTransaction.ts:238-585 | A transparent send of HTR alone with inputs of the wallet's choice is refused by no stage when the available HTR covers it |
| NativeSend.PlannedWasCovered | src/new/sendTransaction.ts:546-554 | Such a send is planned only when the available HTR covers it |
| NativeSend.AssemblyNotRefused | src/new/sendTransaction.ts:582-824 | Such a plan is always assembled |
| PreparedTransaction.ProveConserved | src/new/sendTransaction.ts:485-601 | For every token, input values equal transparent output values plus shielded output values, plus the declared fee when the token is HTR, through phantoms, custom-change rewriting, the HTR pass and pulled HTR |
| PreparedTransaction.ProveFeeExact | src/new/sendTransaction.ts:493-585 | The declared fee is the calculated fee of the final lists plus 1 per amount-shielded and 2 per fully shielded output, and there is a fee header exactly when something is due |
| PreparedTransaction.ProveTransparent | src/new/sendTransaction.ts:587-601 | The transparent outputs are, in some order, the requested ones plus change outputs to the wallet |
| PreparedTransaction.ProveShielded | src/new/sendTransaction.ts:682-721 | The shielded outputs show exactly the requested definitions plus positive shielded change; their number is 0 or 2 to 32; their blinding terms sum to those of the shielded inputs |
| PreparedTransaction.ProveChangeHidden | src/new/sendTransaction.ts:429-483 | With explicit shielded outputs, the opt-in and a wallet, no final transparent output is change |
| PreparedTransaction.ProveTokens | src/new/sendTransaction.ts:784-824 | The public token list names each custom token that a transparent or amount-shielded output names, once, and no other |
| PreparedTransaction.ProveInputs | src/new/sendTransaction.ts:342-436 | The caller inputs come first, resolved in order and each unspent, owned and usable; the wallet adds unmarked utxos of its own, and only of tokens the caller brought none of |
| PreparedTransaction.ProveExcessPrecondition | src/new/sendTransaction.ts:723-782 | In the full-unshield call the input entry values over all tokens sum to the output entry values plus the fee |
| PreparedTransaction.Assemble | src/new/sendTransaction.ts:582-824 | From a complete plan: same inputs, a permutation of its transparent and shielded outputs, the excess factor exactly when shielded inputs meet no shielded output, the visible tokens; or a stated reason why not |
| SendPlan.CollectOutputs | src/new/sendTransaction.ts:258-338 | Succeeds exactly when every output is acceptable, with what the output loop collects; otherwise reports the error of an unacceptable output |
| SendPlan.CollectionIsComplete | src/new/sendTransaction.ts:258-338 | What is collected: one output object per request, a phantom and a definition per shielded one, and each sent token once, open to the wallet's choice |
| SendPlan.ResolveInputs | src/new/sendTransaction.ts:340-411 | Succeeds exactly when every outpoint resolves to an input of a sent token or of HTR; otherwise the error names the first outpoint that does not |
| SendPlan.ResolutionIsComplete | src/new/sendTransaction.ts:342-411 | Inputs resolve one by one in order, a token the caller brought is closed to the wallet's choice, and the first HTR input is noted when nothing sends HTR |
| SendPlan.FundCustom | src/new/sendTransaction.ts:431-504 | Every custom token balances against requested outputs and change, the change is rewritten if asked, the fee is that of the outputs that stay visible; a failure names the token or change that caused it |
| SendPlan.FundHtr | src/new/sendTransaction.ts:506-554 | HTR is funded for its outputs and the whole fee, by the wallet's choice exactly when the caller brought none and something needs it; HTR brought for nothing is refused |
| SendPlan.MakePlan | src/new/sendTransaction.ts:238-585 | All stages in order, or the first one that failed and why |
| SendModel.PhantomsMatchDefs | src/new/sendTransaction.ts:296-318 | For every token, the requested outputs with phantoms are worth the explicit transparent outputs plus the shielded definitions |
| SendBalance.PlanConserves | src/new/sendTransaction.ts:413-585 | A plan balances in every token: inputs against transparent outputs, shielded definitions and the total fee |
| SendBalance.PlanFeeIsExact | src/new/sendTransaction.ts:500-585 | The fee computed before the HTR pass is still the fee of the final inputs and outputs, in any order |
| SendBalance.OptInLeavesNoTransparentChange | src/new/sendTransaction.ts:429-576 | With the opt-in no planned transparent output is change and only positive change to the wallet's shielded address is added to the requested definitions |
| SendBalance.WithoutOptInNothingIsConverted | src/new/sendTransaction.ts:429-449 | Without the opt-in, without a wallet or without an explicit shielded output, no change is converted and no extra input is pulled |
| SendBalance.NoOutpointTwice | src/new/sendTransaction.ts:413-421 | Given distinct caller inputs and a store that mirrors the history, caller, custom, HTR and pulled inputs are pairwise distinct |
| SendBalance.WalletAddsOnlyMissingTokens | src/new/sendTransaction.ts:402-421 | Every input the wallet adds is an unmarked utxo of its store, of a token the caller brought none of |
| TokenFunding.CheckUnspentInput | src/new/sendTransaction.ts:1566-1645 | True exactly for an unspent, non-authority output of a known, valid transaction at an own address and of the selected token |
| TokenFunding.PrepareSendTokensData | src/new/sendTransaction.ts:1427-1526 | One token funded exactly: chosen inputs are a best choice and caller inputs are all usable, the difference is a single change output to the wallet; a refusal is true (funds fall short, an input is unusable, an amount is zero, an address is foreign) |
| TokenFunding.PrepareSendManyTokensData | src/new/sendTransaction.ts:1535-1555 | Every listed token balances, no other is touched, no outpoint is added twice; a failure is the refusal of one listed token |
| ChangeShielding.ShieldCustomChange | src/new/sendTransaction.ts:449-483 | Every custom-token change output becomes a shielded output of its full value in order, the rest stays, and the maximum is kept; otherwise the reason holds |
| ChangeShielding.ConvertHtrChangeIfRequested | src/new/sendTransaction.ts:1285-1414 | When it applies, the HTR change leaves the outputs and a positive shielded output of its value, plus what was pulled, minus the added fee, is appended; utxos are pulled only when the change cannot pay, only unused ones, smallest first and no more than needed; when it does not apply nothing changes |
| ChangeShielding.ConversionKeepsValue | src/new/sendTransaction.ts:449-483 | Rewriting custom change moves value from transparent to shielded without changing it, for every token |
| ChangeShielding.ConvertedKeepsBalance | src/new/sendTransaction.ts:1325-1413 | The HTR conversion exchanges change and pulled inputs for shielded value and added fee exactly, and touches no other token |
| ChangeShielding.PulledIsFresh | src/new/sendTransaction.ts:1341-1373 | Pulled utxos are unmarked HTR of the store that the transaction did not spend before, each once |
| TransactionAssembly.FinalOutputs | src/new/sendTransaction.ts:587-601 | After shuffling and dropping phantoms by identity exactly the planned transparent outputs remain; without change the requested order is kept |
| TransactionAssembly.CollectEntries | src/new/sendTransaction.ts:609-679 | One generator per input in order, one blinded entry per shielded input and one plain entry per transparent fund; fails exactly when a shielded input has no blinding factor |
| TransactionAssembly.EntriesCarryAllValue | src/new/sendTransaction.ts:609-679 | The collected entries carry the value of every input |
| TransactionAssembly.CreateOutputs | src/new/sendTransaction.ts:682-721 | A batch of 2 to 32 balanced outputs, a permutation of the definitions, each genuine for the generators of all inputs; nothing for no definitions; otherwise the reason holds |
| TransactionAssembly.ComputeExcess | src/new/sendTransaction.ts:723-782 | There is an excess factor exactly when shielded inputs meet no shielded output, and it closes the balance over all entries and the fee |
| TransactionAssembly.VisibleTokens | src/new/sendTransaction.ts:784-824 | Exactly the listed tokens that an output shows, each once |
| SendRequests.DeliveredAsAsked | src/new/sendTransaction.ts:258-824 | Told from the fields of request, history and utxos: for every address, value, token and timelock as many payments, and worth as much, as are asked for; one HTR output per data send; shielded outputs of the asked value, token and mode at the spend address and scan key; caller inputs as recorded, wallet inputs as stored; change and token list in full; the fee as the sum of what each token owes |
| SendBlinding.DeliveredAsMade | src/new/sendTransaction.ts:609-782 | Every shielded output holds the provider's answer for its own value, key, token and factors, and a fully shielded one the surjection proof over the inputs' tokens; the factors of the outputs equal those of the shielded utxos spent, modulo the group order; an excess is given exactly for a full unshield and takes the outputs' place |
| SendRefusals.RefusalIsTrue | src/new/sendTransaction.ts:238-824 | Whatever error a preparation ends with says something true of the request and the wallet: which output, input, address, token, amount or missing factor it is |
| SendRefusals.NativeMeans | src/new/sendTransaction.ts:506-554 | The native send that succeeds exactly when covered, told by the outputs asked for and the utxos free to spend |
| UtxoStore.SelectUtxos | src/storage/memory_store.ts:783-877 | Refuses a maximum together with a target; otherwise yields what the selection function says for the ordered utxos |
| UtxoStore.SelectionMatches | src/storage/memory_store.ts:830-877 | Everything yielded matches the options, comes from the store in its order, and comes once |
| UtxoStore.SelectionStopsInTime | src/storage/memory_store.ts:830-877 | Every proper prefix of what is yielded falls short of the target and of the maximum count |
| UtxoStore.SelectionIsExhaustive | src/storage/memory_store.ts:830-877 | If no limit stopped it and there is no maximum amount, exactly the matching utxos are yielded |
| UtxoStore.SkippedWouldOvershoot | src/storage/memory_store.ts:830-877 | If no limit stopped it, a matching utxo is left behind only if it would overshoot the maximum on top of everything yielded |
| UtxoStore.SelectionRespectsMaximum | src/storage/memory_store.ts:830-877 | The unlocked value yielded never exceeds the maximum amount |
| UtxoStore.OrderingSorts | src/storage/memory_store.ts:820-828 | Ordering permutes the utxos and sorts them by value in the asked direction |
| UtxoStore.SelectionIsAvailable | src/storage/storage.ts:600-628 | Selected utxos are of the asked token, unmarked when availability is asked, and distinct |
| UtxoStore.SelectionIsEligible | src/storage/memory_store.ts:783-877 | Everything selected has the asked token, authority, address, size and kind, and is unmarked and past timelock and reward lock when availability is asked; without limits every such utxo of the store is selected |
| UtxoSelection.BestUtxoSelection | src/utils/utxo.ts:93-173 | An exact utxo if there is one, else a least greater one, else the shortest prefix in falling order that reaches the amount, else nothing and the available sum |
| UtxoSelection.BestChoiceFindsFunds | src/utils/utxo.ts:93-173 | The choice reaches a positive amount if and only if all available funds together do |
| UtxoSelection.BestChoiceUsesFewestUtxos | src/utils/utxo.ts:93-173 | No other set of available utxos that covers the amount is smaller |
| UtxoSelection.BestChoiceIsSound | src/utils/utxo.ts:93-173 | The chosen utxos are unmarked funds of the token, distinct, and worth the reported amount |
| UtxoSelection.FastUtxoSelection | src/utils/utxo.ts:48-80 | For a positive amount the shortest prefix in falling order that reaches it, for zero all funds, for a negative one the first; fails exactly when all available funds fall short, and then reports their sum |
| UtxoSelection.SelectForAmount | src/utils/transaction.ts:595-631 | Refuses a non-positive amount, succeeds exactly when the utxos together reach it, and the change is the excess of the ones in hand |
| UtxoSelection.ScanIsBest | src/utils/transaction.ts:595-631 | On utxos in falling order the scan ends with a single least utxo that reaches the amount if one does, else with the shortest prefix that does |
| UtxoSelection.AvailableIsUsable | src/utils/utxo.ts:48-173 | What is available are exactly the unmarked funds of the token past their locks, each once |
| BalanceMatching.CalculateTxBalance | src/utils/transaction.ts:818-869 | Per token, outputs minus inputs in funds, mint and melt authorities, token-creation outputs aside |
| BalanceMatching.MatchBalanceSelection | src/storage/storage.ts:641-733 | The new inputs minus the new outputs equal the requested balance in value, or in count for authorities; the error said never to happen does not happen; every other error is true |
| BalanceMatching.OnlyMissingFundsFail | src/storage/storage.ts:641-733 | The chosen utxos reach a deficit in funds if and only if all available funds of the token do |
| BalanceMatching.MatchTokenBalance | src/storage/storage.ts:747-794 | Funds, and for custom tokens mint and melt authorities, each close their own gap, with change of the token to the given address only |
| BalanceMatching.FillTx | src/storage/storage.ts:806-830 | The completed transaction has zero fund balance for the token and keeps within the input and output limits; errors are a gap that cannot be closed or a limit exceeded |
| BalanceMatching.FilledBalance | src/storage/storage.ts:806-830 | After filling, the funds balance, and mint and melt are off by exactly the free utxos holding both authorities that are among the first holders of the other one, as many as it was missing |
| BalanceMatching.AuthoritiesBalanceIff | src/storage/storage.ts:806-830 | Mint balances after filling if and only if no free utxo holding both authorities has fewer melt holders before it in the store than melt authorities were missing; the same for melt with the roles exchanged |
| BalanceMatching.DoubleSpendIffSharedAuthority | src/storage/storage.ts:747-794 | An outpoint is selected twice if and only if some free utxo of the token holds both authorities and, in store order, has fewer mint holders before it than mint authorities are missing and fewer melt holders than melt ones |
| BalanceMatching.ChosenAreFirst | src/storage/storage.ts:641-733 | The authorities selected for a gap are the first free holders of that authority in store order, as many as are missing |
| BalanceMatching.MixedAuthorityIsSpentTwice | src/storage/storage.ts:747-794 | A concrete store where one utxo holding both authorities is picked twice |
| FilledInputs.FilledInputsDistinctIff | src/storage/storage.ts:806-830 | The filled transaction spends no outpoint twice if and only if it did not before, no utxo holding both authorities is reached twice, and none of its own inputs is a free utxo the selection reaches: the funds before it in the store are worth less than the gap, or fewer holders of its authority precede it than are missing |
| FilledInputs.FundsAreFirst | src/storage/storage.ts:641-733 | The funds selected for a gap are the first free ones in store order that are worth it |
| FilledInputs.OwnInputIsAddedAgain | src/storage/storage.ts:806-830 | A concrete transaction that spends the only utxo of the wallet, unmarked, and is filled with that very utxo |
| FilledInputs.FillMeans | src/storage/storage.ts:747-830 | Every added input repeats a free utxo of the token, funds or an authority to match; every added output is funds or one mint or melt authority to the change address; the funds then balance |
| Fee.Calculate | src/utils/fee.ts:37-92 | The sum over the custom tokens of their fees, or an error exactly when a token is unknown; never negative |
| Fee.FeeIgnoresNativeFundsAndOrder | src/utils/fee.ts:37-92 | Adding or removing native elements and reordering leave the fee unchanged |
| Fee.FeeIsDue | src/utils/fee.ts:37-92 | A fee is due if and only if the transaction has funds of a fee-paying custom token, or deposits or withdraws one |
| FeeSchedule.FeeIsWhatIsDue | src/utils/fee.ts:37-92 | The fee is the sum, over any list of the tokens touched, of one per output and deposit of a token that charges fees, or one if it is only taken; it fails exactly when a custom token touched is unknown |
| FeeSchedule.FeeOfOneToken | src/utils/fee.ts:37-92 | n outputs and deposits of one fee token cost n |
| ShieldedCreation.ExactProviderIsHonest | src/shielded/creation.ts:97-168 | What is required of the provider can be met, for any group order |
| ShieldedCreation.Validate | src/shielded/creation.ts:325-447 | Succeeds exactly for 2 to 32 well-formed proposals with a surjection domain that is present when needed, not too large, and made of tokens and blinding factors of the right size |
| ShieldedCreation.BuildAmount | src/shielded/creation.ts:97-168 | The output is as proposed and commits under its own factor, everything the provider returned of the right size; as a last output it closes the balance; a refusal means the provider returned something of a wrong size |
| ShieldedCreation.BuildFull | src/shielded/creation.ts:201-310 | The same for a fully shielded output with both its blinding factors, which also proves its token against the input generators |
| ShieldedCreation.BuildSurjectionDomain | src/shielded/creation.ts:177-193 | One domain entry per input generator, in order |
| ShieldedCreation.CreateShieldedOutputs | src/shielded/creation.ts:325-513 | For any mix of modes the outputs are the proposals in order, each committing to its value and paying its script, and their blinding terms sum to those of the inputs; errors have a stated cause |
| ShieldedLimits.AcceptableMeans | src/shielded/creation.ts:325-447 | A batch passes validation exactly with 2 to 32 proposals of a scan key of 66 digits on the curve, a known form of token, a value above 0 and below 2 to the 40 and a 32-bit timelock, and at most 256 generators in range, one at least if an output is to be fully shielded |
| ShieldedLimits.BatchFailureIsTrue | src/shielded/creation.ts:97-513 | A failing batch is out of these limits, has an address without script, or the provider answered with a part of the wrong size or range |
| NanoTransactionBuilder.NanoContractTransactionBuilder.ExecuteDeposit | src/nano_contracts/builder.ts:347-441 | Succeeds exactly when the amount is set, the change address is the wallet's and the spendable funds reach the deposit plus the token fee it takes on; then exactly the scanned utxos are spent and marked, change is one output to the asked, the builder's or the current address; the fee mark is set exactly when the fee was taken on, even if the funds fall short; each error is true and leaves the utxo marks alone |
| NanoTransactionBuilder.NanoContractTransactionBuilder.ExecuteWithdrawal | src/nano_contracts/builder.ts:452-518 | Succeeds exactly for an amount that is set and not below the token deposit, with an address unless nothing is left; yields the requested output, or none when the token deposit uses the whole amount |
| NanoTransactionBuilder.NanoContractTransactionBuilder.ExecuteGrantAuthority | src/nano_contracts/builder.ts:529-594 | Succeeds exactly when the address is the wallet's and a free utxo carries the asked authority; one such utxo, of mint for mint and melt for melt, is picked and marked, and an output of 1 for mint or 2 for melt is given back if an address is set |
| NanoTransactionBuilder.NanoContractTransactionBuilder.ExecuteAcquireAuthority | src/nano_contracts/builder.ts:604-626 | Succeeds exactly with an authority and an address; the output is 1 for mint and 2 for melt, in value and authorities, to that address |
| NanoTransactionBuilder.NanoContractTransactionBuilder.BuildInputsOutputs | src/nano_contracts/builder.ts:715-772 | The actions up to the first one the wallet does not accept balance in every token, yield exactly the requested outputs in order plus change at home, spend one authority per grant and move funds for deposits and withdrawals only; exactly what they spend is marked |
| NanoTransactionBuilder.NanoContractTransactionBuilder.SelectFeeInputs | src/nano_contracts/builder.ts:782-834 | HTR inputs worth the amount and its change, or an error exactly when the spendable HTR falls short |
| NanoTransactionBuilder.NanoContractTransactionBuilder.PayFee | src/nano_contracts/builder.ts:947-1001 | The fee is taken from deposit change first and fresh HTR then, or from the contract's HTR output; all funds stay positive and nothing but HTR funds changes; a failure is true |
| NanoTransactionBuilder.NanoContractTransactionBuilder.CalculateFee | src/nano_contracts/builder.ts:293-318 | The fee of the built inputs, outputs and actions |
| NanoTransactionBuilder.NanoContractTransactionBuilder.Build | src/nano_contracts/builder.ts:917-1045 | Per token, inputs plus withdrawals equal outputs plus deposits plus, for HTR, the fee if and only if the builder carries no stale fee mark, or the contract pays, or no action deposits or withdraws a custom token that pays fees; the fee is exact and within the maximum, the header names each action's token, inputs are fresh and distinct; failures have a cause, and leave the wallet as it was if and only if all actions were done or no action before the failing one spent an outpoint the history knows as unspent (where it knows every utxo: no deposit or grant came before it) |
| NanoTransactionBuilder.CollectTokens | src/nano_contracts/builder.ts:715-772 | The custom tokens of the actions, each once |
| NanoActions.UnchangedIffUnmarked | src/nano_contracts/builder.ts:715-772 | Successful actions leave the wallet as it was if and only if none of them spends an outpoint the history knows as unspent; where the history knows every utxo, if and only if none deposits or grants |
| NanoActions.SpentIffDeposited | src/nano_contracts/builder.ts:347-640 | Whatever the wallet, accepted actions spend something if and only if one of them deposits or grants |
| NanoActions.FeeOwed | src/nano_contracts/builder.ts:293-318 | Whatever the actions selected, their fee is positive if and only if one of them deposits or withdraws a custom token that pays fees |
| NanoActions.FeeKnown | src/nano_contracts/builder.ts:293-318 | The fee can be calculated if and only if the version of every custom token of the actions is known |
| NanoExamples.FailureKeepsMark | src/nano_contracts/builder.ts:1035-1045 | A run in which a deposit and then a withdrawal without an amount make the build throw and the deposit's utxo stays marked |
| NanoExamples.StaleFeeMark | src/nano_contracts/builder.ts:347-441 | A run in which a deposit for a token creation is followed, with the same builder, by a plain transaction that is built and does not balance |
| NanoTransactionBuilder.HeaderIsFaithful | src/nano_contracts/utils.ts:295-327 | Each header entry has its action's kind, its amount or 1 for mint and 2 for melt, and an index that stands for its token |
| NanoTransactionBuilder.OneFeeBalances | src/nano_contracts/builder.ts:947-1001 | At most one fee balances a given transaction |
| NanoTransactionBuilder.ReleaseRestores | src/nano_contracts/builder.ts:1035-1045 | Releasing the inputs marked since the start gives the marks of the start |
| NanoBuilder.FreshAdds | src/nano_contracts/builder.ts:409-419 | Marking before the next selection keeps the inputs unmarked at the start and pairwise distinct |
| NanoBuilder.PayFromChange | src/nano_contracts/builder.ts:947-975 | The first HTR change shrinks by the fee or goes, the remainder is what it could not pay, requested outputs stay |
| NanoBuilder.PayFromContract | src/nano_contracts/builder.ts:978-1001 | Succeeds exactly when the first HTR output covers the fee, which then shrinks by it or goes |
| NanoRequests.FinishedAsAsked | src/nano_contracts/builder.ts:917-1045 | Told from the fields of the actions and utxos: as many outputs of each address, token, value and authority as the actions ask for; every input a utxo of the store that was unmarked and unlocked; one mint input per mint grant and one melt input per melt grant; 1 for mint and 2 for melt in outputs and header; the fee the sum of what each token owes |
| NanoRequests.ActionSpends | src/nano_contracts/builder.ts:347-640 | A deposit spends transparent funds of its token at its address worth at least its amount, a grant the one utxo free to use that carries its authority, the other actions nothing |
| NanoRequests.AcceptedMeans | src/nano_contracts/builder.ts:347-640 | When an action is accepted, told by its amount, addresses and authority and by the utxos of the store |
| NanoWallet.GetUtxosForAmount | src/new/wallet.ts:1484-1504 | Succeeds exactly when the spendable transparent funds reach a positive amount, with the excess as change |
| NanoWallet.GetAuthorityUtxo | src/new/wallet.ts:2375-2410 | Refuses authorities other than mint and melt; else every utxo yielded has the named authority, token and address, all of them when many are asked for, else at most one, and none only if the store has none; only unmarked and unlocked ones when availability is asked |
| NanoWallet.SpendableMeans | src/new/wallet.ts:1435-1522 | Spendable are exactly the transparent funds of the token at the asked address that are unmarked and past their locks |
| NanoWallet.HathorWallet.MarkUtxoSelected | src/storage/storage.ts:842-879 | Marks an outpoint only when the history knows it as unspent; unmarks it when the history knows it |
| NanoWallet.HathorWallet.Release | src/nano_contracts/builder.ts:1035-1045 | Exactly the known outpoints of the given inputs lose their marks |
| Bytes.IntRoundTrip | src/utils/buffer.ts:42-109 | Reading back a written integer gives its residue modulo 256 to the width |
| Bytes.SignedRoundTrip | src/utils/buffer.ts:67-109 | A signed integer that fits its width is read back by two's complement |
| Bytes.OutputValueRoundTrip | src/utils/buffer.ts:276-315 | Every value the printer accepts is read back, whatever its width and whatever follows |
| Bytes.OutputValueInRange | src/utils/buffer.ts:276-294 | A value that is read is never negative and at most 2 to the 63, and at least one byte is used |
| Bytes.SignIsTopBit | src/utils/buffer.ts:276-294 | The first byte of a signed integer is 128 or more exactly when it is negative, which is how the width is told |
| Bytes.PrefixedBack | src/utils/buffer.ts:160-203 | A length-prefixed field is read back before any rest |
| Text.BytesSurviveHex | src/utils/buffer.ts:129-142 | Bytes survive hexadecimal |
| Text.HexSurvivesLowercased | src/utils/buffer.ts:129-142 | A hexadecimal string of even length comes back in lower case |
| Text.AsciiRoundTrip | src/nano_contracts/header.ts:95-97 | A method name survives the ASCII encoding if and only if it is ASCII |
| Text.Utf8AndUtf16 | src/models/create_token_transaction.ts:105-141 | A string has at most as many UTF-16 units as UTF-8 bytes, and at least a third |
| Leb128.EncodeLeb128 | src/utils/leb128.ts:20-59 | Succeeds exactly for a value the signedness admits whose encoding fits the maximum |
| Leb128.DecodeLeb128 | src/utils/leb128.ts:67-109 | The shifting loop computes the recursive decoding of section 7.6 of DWARF 5 |
| Leb128.Leb128RoundTrip | src/utils/leb128.ts:20-109 | Whatever was encoded is read back, signed or not, before any rest |
| Leb128.EncodedSize | src/utils/leb128.ts:20-59 | An unsigned integer takes at most n bytes exactly when it is below 128 to the n |
| Leb128.DecodeConsumes | src/utils/leb128.ts:67-109 | Decoding takes at least one byte |
| Wire.InputRoundTrip | src/models/input.ts:57-110 | An input survives up to lower case, its index modulo 256 and empty data read as absent |
| Wire.OutputRoundTrip | src/models/output.ts:162-213 | An output survives up to its token data modulo 256 |
| Wire.ShieldedRoundTrip | src/models/shielded_output.ts:99-253 | A printed shielded output is read back without its value if its proofs and script keep the parser's maxima, and refused otherwise |
| Wire.OversizedProofIsRefused | src/models/shielded_output.ts:99-253 | Outputs whose range proof is above the maximum can be written and are refused when read |
| Wire.ReadMany | src/models/transaction.ts:576-606 | The counted parser loops compute the recursive parse |
| Wire.WriteMany | src/models/transaction.ts:265-275 | The pushing serializer loops compute the recursive print |
| HeaderWire.NanoRoundTrip | src/nano_contracts/header.ts:85-231 | A nano header survives up to lower case, truncated indexes and an empty script read as none |
| HeaderWire.FeeRoundTrip | src/headers/fee.ts:51-137 | A fee header survives up to its token indexes modulo 256 |
| HeaderWire.ShieldedHeaderRoundTrip | src/headers/shielded_outputs.ts:52-112 | A header of shielded outputs survives, the values aside |
| HeaderWire.UnshieldRoundTrip | src/headers/unshield_balance.ts:54-94 | The 32-byte excess factor survives |
| HeaderWire.SupplyRoundTrip | src/headers/mint_melt_header_base.ts:64-106 | Whatever a mint or melt header prints is read back unchanged |
| HeaderWire.SupplyIsCanonical | src/headers/mint_melt_entry.ts:68-119 | The bytes read as mint or melt entries are exactly the bytes these entries print |
| HeaderWire.HeaderRoundTrip | src/headers/parser.ts:18-37 | Every header kind survives, whatever follows it |
| HeaderWire.HeaderConsumes | src/models/transaction.ts:657-678 | A header that is read took at least one byte, so the uncounted loop ends on any bytes |
| HeaderWire.HeadersRoundTrip | src/models/transaction.ts:657-678 | Any list of headers survives although its length is not on the wire; bytes after it are read as more headers or an error, except a single byte after no header |
| TransactionWire.TransactionRoundTrip | src/models/transaction.ts:421-437 | A transaction whose fields fit their widths survives, up to its normal form |
| TransactionWire.OnlyOneByteIsIgnored | src/models/transaction.ts:657-711 | Bytes appended to a transaction are ignored if and only if it has no headers and there is one of them; any others are read as at least one more header, after the headers of the transaction, or are an error |
| TransactionWire.CreateTokenRoundTrip | src/models/create_token_transaction.ts:83-262 | A printed token creation is read back if and only if its name and symbol are readable, and refused otherwise |
| TransactionWire.CreateTokenIgnoresOneByte | src/models/create_token_transaction.ts:247-262 | Bytes appended to a token creation are ignored if and only if its token information is readable, it has no headers and there is one of them; any others are read as at least one more header, after its own, or are an error |
| TransactionWire.TokenInfoRoundTrip | src/models/create_token_transaction.ts:105-185 | Token information that prints is read back if and only if name and symbol keep their limits in UTF-8 bytes |
| TransactionWire.EuroSymbolDoesNotSurvive | src/models/create_token_transaction.ts:105-185 | A two-character symbol the printer accepts and the parser refuses |
| TransactionCodec.Transaction.SerializeFundsFields | src/models/transaction.ts:212-275 | Succeeds exactly when every hash is hexadecimal and every value fits; the bytes are signal bits, version, three counts, then tokens, inputs and outputs, the input data left out of what is signed |
| TransactionCodec.Transaction.SerializeGraphFields | src/models/transaction.ts:282-312 | The bytes are weight, timestamp, parent count, parents and nonce |
| TransactionCodec.Transaction.Serialize | src/models/transaction.ts:421-437 | Succeeds exactly when every field fits; the bytes are those of funds, graph and headers as laid out part by part |
| TransactionCodec.Transaction.GetFundsFieldsFromBytes | src/models/transaction.ts:559-607 | Parsed tokens, inputs and outputs are appended to the lists, the other fields set, the rest returned; errors as the parse |
| TransactionCodec.Transaction.GetGraphFieldsFromBytes | src/models/transaction.ts:619-644 | Parsed parents are appended, the other fields set, the rest returned; errors as the parse |
| TransactionCodec.Transaction.GetHeadersFromBytes | src/models/transaction.ts:657-678 | The uncounted loop appends the parsed headers or fails as the parse does |
| TransactionCodec.Transaction.CreateFromBytes | src/models/transaction.ts:691-711 | A new object with the parsed data, or the parse error |
| TransactionCodec.WriteThenRead | src/models/transaction.ts:421-437 | Writing succeeds exactly when the data prints, and reading it gives a new object with the normal form of the data |
| TransactionCodec.CreateTokenTransaction.Serialize | src/models/create_token_transaction.ts:83-141 | Succeeds exactly when every field fits; the bytes are signal bits, version, two counts, inputs, outputs, token information, graph and headers |
| TransactionCodec.CreateTokenTransaction.CreateFromBytes | src/models/create_token_transaction.ts:198-262 | A new object with the parsed data, or the parse error |
| TransactionCodec.DeserializeEntries | src/headers/mint_melt_entry.ts:68-119 | The loop with offset and seen set computes the parse: counts, sizes, ranges and unique indexes |
| TransactionCodec.ValidateFees | src/headers/fee.ts:205-235 | True exactly for at most 16 entries with unique, non-negative indexes and positive amounts |
| WireLayout.HeaderStartsWithItsId | src/headers/types.ts:13-44 | The first byte of a printed header is the id of its kind |
| WireLayout.OutputValueExamples | src/utils/buffer.ts:276-315 | The bytes of the largest four-byte value, the smallest eight-byte value and the largest of all; zero and more than the largest are refused |
| WireLayout.Leb128Examples | __tests__/utils/leb128.test.ts:40-60 | The encodings of two signed examples and of 128 |
| WireLayout.FeeHeaderExample | src/headers/fee.ts:51-88 | The bytes of a fee header of 100 native units |
| WireLayout.MintHeaderExample | src/headers/mint_melt_entry.ts:46-62 | The bytes of a mint header of 256 units, the amount in eight bytes |
| TransactionLayout.TransactionLayout | src/models/transaction.ts:212-437 | A transaction is written if and only if its hashes are hexadecimal and its values and headers fit, and then with the displayed bytes: counts, tokens, inputs, outputs, graph, headers |
| TransactionLayout.CreateTokenLayout | src/models/create_token_transaction.ts:83-141 | A token creation is written if and only if its fields fit, and then with the displayed bytes, the token information between outputs and graph |
| TransactionLayout.InputLayout | src/models/input.ts:57-68 | An input is the 32 bytes its hash spells, the index, the length of its data in two bytes and the data; to be signed, the length is 0 and the data absent |
| TransactionLayout.OutputLayout | src/models/output.ts:162-170 | An output is its value, token data, script length and script, most significant byte first; a value above 2 to the 31 less 1 is the eight bytes of its negation in two's complement; any other value is refused |
| TransactionLayout.GraphLayout | src/models/transaction.ts:282-312 | Weight, timestamp in four bytes, parent count, parents, nonce in four bytes |
| TransactionLayout.NanoLayout | src/nano_contracts/header.ts:85-143 | 0x10, id, sequence number in LEB128, method name, arguments, actions with kind, token index and amount, caller's address, script; each with its length as displayed |
| TransactionLayout.ShieldedLayout | src/models/shielded_output.ts:99-127 | Mode, commitment, range proof, script; token data in mode 1, asset commitment and surjection proof in mode 2; ephemeral key; written if and only if the fields of the mode are there |
| TransactionLayout.HeaderLayout | src/headers/types.ts:13-44 | Each of the six headers is written if and only if its fields fit, with its id, its count and its entries as displayed |
| TransactionLayout.TokenInfoLayout | src/models/create_token_transaction.ts:105-141 | Version, name with its length in bytes, symbol with its length in bytes; refused exactly without one of them or above 30 and 5 UTF-16 units |
| TransactionLayout.AddressLayout | src/utils/helpers.ts:197-222 | An address is read from 25 bytes: the network's byte, 20 bytes and the checksum of the 21, and refused otherwise |
| TransactionLayout.HexLayout | src/utils/buffer.ts:129-142 | Hexadecimal is read two digits a byte, the upper first, in either case, and refused exactly for a character that is no digit |
| TransactionLayout.CharacterLayout | src/models/create_token_transaction.ts:120-141 | The bytes of a character are those of UTF-8: the lead byte tells their number and together they hold its bits |
| TransactionLayout.Leb128Layout | src/utils/leb128.ts:20-59 | Byte k holds the k-th seven bits, and its top bit tells whether another follows |
| WireLayout.TransactionStartsWithCounts | src/models/transaction.ts:212-257 | A transaction starts with signal bits, version and the three counts, a byte each |
| StreamClient.NoLostWakeUp | src/sync/stream.ts:611-706 | In every state of every run, items waiting on a stream that is not aborted have an active processor |
| StreamClient.ShutdownStoresEverything | src/sync/stream.ts:766-797 | When shutdown succeeds, what was received is what was stored, in order and once, followed by what was lost; something was lost if and only if the stream was aborted by an event with an empty message that arrived while items were queued, and it is exactly these items |
| StreamClient.AbortHasACause | src/sync/stream.ts:494-513 | An aborted client was aborted by one event of its run, whose message is the one remembered |
| StreamClient.AbortedIsFrozen | src/sync/stream.ts:577-760 | Once aborted, a client stores nothing and its queue, what it received and what it reports stay as they are, whatever happens |
| StreamClient.EmptyErrorLosesItems | src/sync/stream.ts:510-513 | A run in which an error with an empty message lets shutdown succeed with an item not stored |
| StreamClient.AddressesTileWithinWindow | src/sync/stream.ts:534-571 | Address batches are disjoint, in order, cover every index from the start index on, and stay within the address window |
| StreamClient.RunInv | src/sync/stream.ts:577-760 | Delivery, wake-ups, remembered errors, tiling and the address window hold in every state of every run, whatever server and timers do |
| StreamRuns.ShutdownAnswer | src/sync/stream.ts:766-797 | How a shutdown ends, told by the events of the run alone |
| StreamRuns.EverythingHeardIsRecorded | src/sync/stream.ts:679-840 | In every run the client has received exactly the items that arrived before an abort, in order, has answered exactly the ends, and knows the highest address index |
| StreamRuns.ProcessorSettles | src/sync/stream.ts:611-677 | In any state of any run, a processor left to itself stops, and unless the stream was aborted it has then stored everything received |
| StreamRuns.AcknowledgesWhenDue | src/sync/stream.ts:577-604 | An acknowledgement is sent exactly when the processor looks for an item and more than half a window was seen and processed since the last one and at most half a window is left |
| StreamRuns.BatchIsSentIffRoom | src/sync/stream.ts:534-571 | The next batch of addresses is sent and its timer set exactly when the stream goes on and the window leaves room; otherwise the turn does nothing |
| StreamRuns.BatchesAreCounted | src/sync/stream.ts:534-571 | In every run: one batch at the start and one for each turn with room, one timer for each, one turn asked for by each address and each timer |
| StreamRuns.WindowIsFilled | src/sync/stream.ts:534-571 | In every run, once an address came back, a batch turn or its timer is always to come while the window leaves room |
| StreamProtocol.QueueNeverExceedsWindowAndAHalf | src/sync/stream.ts:577-706 | Against a server that respects the window, at most a window and a half of items is queued |
| StreamProtocol.AcksAreHonestAndSparse | src/sync/stream.ts:577-604 | No acknowledgement is ahead of what was seen and successive ones are more than half a window apart |
| StreamProtocol.NeverBothWait | src/sync/stream.ts:577-604 | When nothing is on its way and the client is idle, at most half a window is unacknowledged and the server may send (before the first item: exactly when the begin message left room) |
| StreamProtocol.WindowOfOneIsStuck | src/sync/stream.ts:577-604 | With a window of one, a begin message uses it up and nothing is ever sent |
| StreamManager.StreamManager.LoopTurn | src/sync/stream.ts:611-677 | The loop body up to its next await does what the abstract turn does |
| StreamManager.StreamManager.ProcessQueue | src/sync/stream.ts:611-677 | A second processor never starts; the first runs one turn |
| StreamManager.StreamManager.AddTx | src/sync/stream.ts:679-689 | The sequence number is recorded, the item queued, the processor woken |
| StreamManager.StreamManager.AddAddress | src/sync/stream.ts:691-706 | The same for an address, with the last received index |
| StreamManager.StreamManager.GenerateBatch | src/sync/stream.ts:534-571 | One batch of addresses, if the window leaves room |
| StreamManager.StreamManager.Turn | src/sync/stream.ts:800-840 | Every turn of listener, processor or timer is the abstract step |
| StreamManager.StreamManager.FinishShutdown | src/sync/stream.ts:766-797 | After any run: a shutdown that times out fails as such; any other succeeds if and only if no event of the run aborted the stream with a message that is not empty, and else fails with exactly that message |
| LinkedQueue.Queue.Enqueue | src/models/queue.ts:33-46 | The linked nodes represent the sequence with the item appended; the bad-state error never occurs |
| LinkedQueue.Queue.Dequeue | src/models/queue.ts:52-61 | The oldest item is removed and returned, or nothing from an empty queue |
| LinkedQueue.Queue.Size | src/models/queue.ts:75-77 | The length of the represented sequence |
| PriorityQueue.PriorityQueue.Push | src/models/priority_queue.ts:78-81 | Adds exactly the node and keeps the heap order |
| PriorityQueue.PriorityQueue.Pop | src/models/priority_queue.ts:96-110 | Removes exactly the root, which no remaining node outranks, and keeps the heap order |
| PriorityQueue.PriorityQueue.Add | src/models/priority_queue.ts:86-91 | Adds exactly the given nodes and returns the new size |
| PriorityQueue.PriorityQueue.Peek | src/models/priority_queue.ts:67-73 | The value of a node of greatest priority, or nothing |
| PriorityQueue.PriorityQueue.SiftUp | src/models/priority_queue.ts:150-161 | The last node rises until the array is a heap, the nodes a permutation |
| PriorityQueue.PriorityQueue.SiftDown | src/models/priority_queue.ts:167-185 | The root sinks until the array is a heap, the nodes a permutation |
| PriorityQueue.Drain | src/models/priority_queue.ts:96-110 | Popping until the queue is empty yields exactly its nodes, in non-increasing priority |
| PriorityQueue.DrainsAgree | src/models/priority_queue.ts:96-110 | Any two ways to drain the same nodes agree in the priority at every place, so that only ties are left to the heap |
| PromiseQueue.PromiseQueue.Add | src/models/promise_queue.ts:210-241 | The task is accounted for once with its priority, no slot stays free while a task waits, the limit holds, and only tasks that fail at once have settled |
| PromiseQueue.PromiseQueue.Finish | src/models/promise_queue.ts:227-235 | The task is settled with its outcome, its slot is free or given to a waiting task no other outranks |
| PromiseQueue.PromiseQueue.Next | src/models/promise_queue.ts:121-125 | One slot less is taken, and at most one job starts with its cascade |
| PromiseQueue.PromiseQueue.TryToStartNextJob | src/models/promise_queue.ts:154-176 | Starts something exactly when unpaused, a task waits and a slot is free |
| PromiseQueue.PromiseQueue.StartJob | src/models/promise_queue.ts:214-236 | A job that throws or was aborted settles as rejected and re-enters the scheduler within the same turn; any other one runs |
| PromiseQueue.PromiseQueue.ProcessQueue | src/models/promise_queue.ts:199-202 | Ends with no free slot or no waiting task, although cascades re-enter it |
| PromiseQueue.PromiseQueue.SetConcurrent | src/models/promise_queue.ts:144-149 | Refuses less than one; starts nothing |
| PromiseQueue.PromiseQueue.Continue | src/models/promise_queue.ts:106-109 | Unpauses and fills every free slot |
| PromiseQueue.PromiseQueue.Tick | src/models/promise_queue.ts:59-68 | The interval fills every free slot, unless paused |
| PromiseQueue.PromiseQueue.Stop | src/models/promise_queue.ts:98-101 | Pauses, starting and stopping nothing |
| PromiseQueue.Drive | src/models/promise_queue.ts:98-241 | After any sequence of additions, endings, intervals, stops, continues and changes of the limit, every task ever added is queued, running or settled, once; with a fixed limit it is kept and no slot is free while a task waits, and when nothing runs and the scheduler is not paused everything has settled |
| PromiseQueue.ExactlyOnePlace | src/models/promise_queue.ts:154-241 | Every task ever added is in exactly one of queued, running and settled, and settles once |
| PromiseQueue.IdleMeansAllSettled | src/models/promise_queue.ts:154-176 | An unpaused scheduler that leaves no slot free while a task waits, and runs nothing, has settled every task exactly once |
| ShieldedProcessing.ProcessShieldedOutputs | src/shielded/processing.ts:101-292 | An owned undecoded slot that the provider opens under the child key of its address, for token tx.tokens[k - 1] of index k or HTR in the amount mode, holds value, token and factors of that answer and is reported with them, its mode and its address; any other slot is left alone and not reported; it fails exactly when a candidate needs a scan key that cannot be unlocked, changing nothing |
| ShieldedProcessing.OnlyOwnedUndecodedChange | src/shielded/processing.ts:101-292 | A slot changes exactly when it becomes decoded, only an owned undecoded slot does, only the decoded fields change, and the token of a fully shielded slot matches its asset commitment |
| ShieldedProcessing.ProcessingKeepsConsistency | src/schemas.ts:296-314 | The ownership rule of every entry is kept |
| ShieldedProcessing.ProcessingIsIdempotent | src/shielded/processing.ts:101-292 | A second pass changes nothing and reports nothing |
| ShieldedProcessing.ReportIsExact | src/shielded/processing.ts:101-292 | The report lists index outputs plus s exactly when slot s became decoded |
| ShieldedProcessing.ReportsAreOrdered | src/shielded/processing.ts:101-292 | Reports come in slot order, each index once |
| HistoryStore.KeyDecodes | src/storage/memory_store.ts:66-93 | A key decodes to its timestamp, and to its id if and only if the id has no colon |
| HistoryStore.KeyOrder | src/storage/memory_store.ts:66-71 | String order of keys is numeric order of timestamps, then string order of ids |
| MemoryStore.MemoryStore.SaveTx | src/storage/memory_store.ts:558-570 | A new id adds one key, a known id none; history and keys stay in step, and the keys stay current if and only if a known transaction keeps its timestamp |
| MemoryStore.MemoryStore.PreProcessHistory | src/storage/memory_store.ts:216-218 | The keys are sorted and otherwise unchanged |
| MemoryStore.MemoryStore.CleanStorage | src/storage/memory_store.ts:1104-1130 | History and keys are cleared together or kept together |
| MemoryStore.MemoryStore.HistoryIter | src/storage/memory_store.ts:461-482 | While in step, yields exactly the stored transactions in which an own address has an input, an output or a decoded shielded output of the token, or all without one; over current sorted keys, strictly by timestamp and id, up or down |
| MemoryStore.AscendingIsChronological | src/storage/memory_store.ts:461-482 | After sorting, ascending iteration yields every transaction once, strictly by timestamp and then id |
| MemoryStore.TokenIteration | src/storage/memory_store.ts:461-549 | What an iteration over one token or over all yields, both ways, and in which order |
| MemoryStore.StaleKey | src/storage/memory_store.ts:558-570 | Saving a known transaction keeps the keys current if and only if its timestamp is unchanged |
| MemoryStore.StaleOrder | src/storage/memory_store.ts:558-570 | Any two transactions of which the first is saved again with a later timestamp are iterated in ascending order with the later one first, even after sorting |
| HistoryRuns.Drive | src/storage/memory_store.ts:558-570 | After any sequence of saves, sorts and cleans the history is the last save of each known transaction; with colon-free ids it is in step with the keys, which are current if and only if every known transaction has the timestamp it was first saved with |
| HistoryRuns.Replay | src/storage/memory_store.ts:461-549 | Sorting and iterating after any such sequence yields every known transaction exactly once, by first timestamp and then id; the order is chronological if and only if later saves kept the order of the first ones |
| Separated.SplitJoin | src/models/partial_tx.ts:370-425 | Pieces without the separator survive being joined and split |
| Separated.HexIntRoundTrip | src/models/partial_tx.ts:370-425 | Natural numbers survive hexadecimal text in both readings the format uses |
| StandardScript.ScriptSurvives | src/utils/scripts.ts:238-264 | Parsing a standard script and creating it again gives the same bytes if and only if its timelock is not zero |
| StandardScript.CreatedScriptParses | src/models/p2pkh.ts:67-84 | A created script parses as what it was created from, a timelock of zero apart |
| ProposalText.TextRoundTrip | src/models/partial_tx.ts:370-465 | The text of a proposal is read back as the proposal without input data, with authorities taken from values and scripts recreated; it is read back unchanged if and only if no input carries data, authority outputs carry their mask as value and no script a timelock of zero |
| ProposalText.ZeroTimelockIsLost | src/models/partial_tx.ts:370-465 | A proposal whose script has a timelock of zero is written, and comes back with a script that has none |
| ProposalText.AuthorityIsReplaced | src/models/partial_tx.ts:370-465 | A proposal with a mint authority whose value is that of melt is written, and comes back with a melt authority |
| PartialLayout.TextLayout | src/models/partial_tx.ts:370-395 | A proposal is written if and only if its scripts are standard and its transaction can be written: the mark, the bytes of that transaction in hexadecimal, address, token, authorities and value of each input, and the places of the change outputs |
| PartialLayout.ReadMeans | src/models/partial_tx.ts:403-465 | A text is read as a proposal if and only if it is four fields between bars, the mark, a readable transaction of version 1 in hexadecimal with standard scripts, an entry per input and the change places, and the proposal holds what they say |
| PartialLayout.StandardMeans | src/utils/scripts.ts:238-264 | Exactly the displayed bytes are read as a script paying to a key hash or script hash, with or without a timelock |
| PartialTransaction.CalculateTokenBalance | src/models/partial_tx.ts:250-277 | One table entry per token mentioned, with the sums of its funds |
| PartialTransaction.IsComplete | src/models/partial_tx.ts:284-290 | True exactly when the funds of every token there is balance |
| PartialTransaction.PartialTx.Serialize | src/models/partial_tx.ts:370-395 | The text of the object's state, field by field as displayed, or its error |
| PartialTransaction.PartialTx.Deserialize | src/models/partial_tx.ts:403-465 | A new object with the state the text stands for, or its error |
| PartialTransaction.PartialTx.AddOutput | src/models/partial_tx.ts:335-349 | The surplus of inputs over outputs falls by the value in the output's own token, unless it is an authority, and in no other; the proposal is complete afterwards if and only if the surplus of every token was exactly what the output takes |
| PartialTransaction.OutputClosesSurplus | src/models/partial_tx.ts:284-349 | An output appended to any proposal completes it if and only if it takes the whole surplus of every token |

## Left out

- HTTP, websocket transport, mining, pushing, event emission, logging, statistics and user-interface updates: input and output without an internal law.
- Hashing, base58, key derivation, encryption, signatures, range and surjection proofs: functions handed in by the caller, with `Honest` as the only requirement on them.
- The weight of a transaction is eight opaque bytes; its computation in floating point, the hash field and `updateHash` are not modelled.
- Sighash forms of headers and shielded outputs, the cache of the data to sign, and the JSON forms of the models.
- NanoWallet.HathorWallet.MarkUtxoSelected: a mark lasts until it is removed; the time after which it expires is not modelled.
- NanoTransactionBuilder.NanoContractTransactionBuilder.Build: states nothing for a vertex that creates a token, because its data comes from `prepareCreateTokenData`, which is not part of this model; the single actions are modelled for such a vertex too.
- NanoTransactionBuilder.NanoContractTransactionBuilder.BuildInputsOutputs: excludes a vertex that creates a token, as `Build` does.
- NanoTransactionBuilder.NanoContractTransactionBuilder.CalculateFee: has no fee for the outputs and data of a token to create, as `Build` creates none.
- The arguments, method, blueprint and caller checks of the nano builder apart from the change address, the sequence number lookup, and the fee header object: the fee is a field of the result.
- PreparedTransaction.SendTransaction.PrepareTxData: the record of a token comes from one map, whether the storage holds it or the node would be asked for it.
- Address types are decided by the network parameter of an address; a deposit change or a withdrawal to an address without a type is not refused in the nano builder.
- Header classes are values: their serializers push into the caller's list, and the model returns the bytes they push; the loops over their entries are those of `Wire.ReadMany` and `Wire.WriteMany`. `DeserializeEntries` and `ValidateFees` keep their own loops.
- Header queries such as the fee of a token index, and getters listing headers of one kind.
- Scripts carrying data and P2SH redeem scripts: partial transactions refuse them, and outputs carry scripts as bytes elsewhere.
- Lone surrogates in names, and string order beyond the basic multilingual plane: `HistoryStore` compares code points.
- Signs, white space and prefixes that `BigInt` and `parseInt` admit in the numbers of a partial transaction's text: the model reads hexadecimal digits.
- Partial transactions read from the bytes of a token creation, and the `tokenData` field of a proposal output, which serializing overwrites.
- MemoryStore.MemoryStore.SaveTx: the address cursors it advances are not modelled.
- MemoryStore.MemoryStore.CleanStorage: the metadata, token and utxo maps it also clears are not modelled.
- Generators yield to a consumer that does not stop: the model returns everything they yield.
- StreamClient.ShutdownStoresEverything: assumes storage calls do not throw.
- StreamProtocol.NeverBothWait: states safety of the waiting states and not eventual progress, since timers and the network may stall.
- PromiseQueue.PromiseQueue.Add: covers tasks that return a promise, reject or throw; a task or listener that calls `add` from inside itself is not modelled.
- Priorities that are not numbers, and heaps of two to the 30 nodes or more, where the source's 32-bit shifts overflow.
- The random draws of blinding factors and shuffles are arbitrary functions: nothing is stated about their distribution.
- ShieldedProcessing.ProcessShieldedOutputs: wiping key buffers and warnings in the log are not modelled.
- An empty string as a token identifier.
- Byte-exact re-encoding of parsed data: output values have more than one encoding, except in mint and melt entries, where `HeaderWire.SupplyIsCanonical` states it.
