# RGB wallet bookkeeping: a verified model

This project models the bookkeeping of an RGB wallet: how it picks and moves assets, how a transfer
advances between a sender, its cosigners and its recipients, how balances follow from database rows, and
how Bitcoin wallet data, backups and the shared operation log of a multisig wallet survive failures. The
statements are proved for all inputs, all runs or all reachable states of the model.

`dafny verify dfyconfig.toml` checks everything.

## Parts

| files | subject |
|---|---|
| `Protocol`, `ProtocolSafety`, `ProtocolReplies`, `ProtocolOutcomes`, `ProtocolBlocked`, `ProtocolTiming`, `ProtocolWallets` | the transfer protocol of a non-donation send as one step relation over senders, recipients, proxy, hub, clock and network; the wallets' own code, refined to it |
| `RejectSearch`, `Selection`, `Funding`, `ChangeSeal`, `SendLoop`, `ChangeRoom`, `Transitions`, `SharedInput`, `Assignments` | input selection, reject search, the retry loop, where change goes, and conservation of every amount |
| `Balances`, `WalletRuns`, `WalletBalances`, `WalletEffects`, `Spendable`, `PreparedBatch`, `WalletTables` | balances derived from coloring rows over whole runs, what a prepared send hands to them, and the tables updated in place |
| `BdkStore`, `BdkWrites`, `BdkTables`, `BdkCrash`, `BdkKeeper` | change-set algebra, writes against merges, the tables, and a crash at any point |
| `OperationLog`, `OperationOutcomes`, `Descriptors`, `DescriptorKeys`, `Strings` | the multisig log and the canonical descriptor |
| `Supply`, `Issuance`, `UtxoChoice`, `TxoRows`, `BackupStream` | supply of inflatable assets, issuance slots, output rows, the backup stream |
| `Common` | sequences, sums and filters |

Code that changes state is written as classes and loops whose contracts equate the new state with a
specification function; the theorems are about those functions and their runs.

## What the proofs found

Some expected properties fail. Each is stated with the exact condition under which it holds.

- A transfer that spends an output only for its bitcoins does not reserve it. The wallet may then issue on
  that output and spend it again; when the first transaction goes out, reading the future balance panics
  (`WalletBalances.FeeInputPanics`, a run from two empty outputs). Some run panics if and only if some run
  reaches such an output (`WalletBalances.PanicsIffBareInput`), and a broadcast panics if and only if it
  spends more than the balance and the declared inputs hold (`WalletBalances.BroadcastPanicsIff`).
- When a batch sends two assets and the input chosen for one also hosts the other, what it hosts of the
  other is moved by no transition (`SharedInput.SharedInputLosesAsset`, from selection on; exact condition
  in `Transitions.ConservedIffSelected`).
- A cosigner that has not seen the hub's acceptance before the expiration can never leave
  WaitingCounterparty, although the transaction is out: every refresh tries to fail the batch, and the hub
  refuses (`ProtocolOutcomes.LateCosignerStuck`). It can still complete its transfer if and only if the
  batch has not expired (`ProtocolOutcomes.CosignerCatchesUpIff`). A watch-only user can end on Failed
  there if and only if the batch has an expiration (`ProtocolOutcomes.WatchOnlyFailsIff`).
- A recipient that expires before the sender can fail a transfer that is then broadcast. For single and
  shared wallets alike, recipients are safe if and only if the sender's expiration is at most each of theirs
  or no run can broadcast the batch (`ProtocolTiming.SafeIffWellTimed`; which batches can be broadcast is
  `ProtocolTiming.BroadcastPossibleIff`).
- A send can fail although the outputs are worth it and pay for it: without bitcoin change, whatever comes back
  needs an output that the transaction does not spend, a leftover of an exact request included
  (`ChangeRoom.OnlyOutputLeavesNoRoom`; as one of the outcomes in `SendLoop.SendSucceedsIffClean`; excluded
  beforehand by the room that `ChangeRoom.RoomySendSucceedsIffClean` asks for).
- Persisting a change set is not merging it: a stale timestamp overwrites a fresher one, a removal leaves no
  trace, and an anchor has one time (exact condition in `BdkWrites.WriteIsMergeIff`), and recovery can write an older block hash back
  (`BdkCrash.BlockHashCanRegress`, exact condition in `BdkCrash.BlocksSurviveCrashIff`). Transactions,
  anchors and revealed indices are never lost.
- The hub lets a cosigner respond once all earlier operations are marked as processed. A mark outlives the
  rollback of its transaction and a restored backup, and then a response skips the operation for good
  (`OperationLog.SkippingArises`, a run from an empty database; `OperationLog.SkippingLosesOperation`). A
  response keeps the database in sync if and only if no approved operation is marked ahead of its index
  (`OperationLog.RespondInSyncIff`); without such rollbacks and restores none is
  (`OperationLog.CarefulIsOrderly`).
- Issuing an inflatable asset can fail although there is room: its amounts take the empty outputs that the
  rights need (`Issuance.RightsMayStarve`, exact condition in `Issuance.RefusedWithRoomIff`).
- An encrypted backup cut to a number of full chunks decrypts without its last chunk having been seen, and so
  does an empty file; any other changed or cut file is refused (`BackupStream.CutAtChunkAccepted`, exact
  condition in `BackupStream.AcceptedIff`).
- A validated witness receive and a synchronisation that already sees the output spent do not commute
  (`TxoRows.ValidateAndSyncCommuteIff`).

## Assumptions

- The database's colorings and the RGB stock agree on which allocations sit on which output.
- The hub's decision on a transfer, and the proxy's ACK for a recipient, can be set once and not changed.
- The hub takes a response only to the operation that is next by the cosigner's marks, as
  src/wallet/test/multisig/mod.rs:1300-1312 expects of it.
- The verdict on a consignment is fixed; a history once at a safe height stays so; a transaction once seen
  by the network stays visible to everyone; all parties read one clock, and a refresh is one step.
- File system calls succeed or the process crashes; a rename is atomic and durable. `consume_fascia` succeeds.
- A forged chunk of a backup does not open (`BackupStream.Unforged`), where a statement is about changed files.
- Totals that the wallet keeps in 64 bits are naturals, except in `Supply`, where the bound is modelled.
- Transactions are identified by their bytes, so a transaction id never maps to two of them.
- The authenticated cipher is any function pair that opens what it sealed under the same nonce, with a
  16-byte tag (section 2.8 of RFC 8439); a read fills its buffer unless the file ends. Key and string parsers of the Bitcoin library are parameters.

## Model

| member | source | states |
|---|---|---|
| ProtocolSafety.NoBroadcastAgainstFailed | src/wallet/online.rs:1739-1795 | in every run, with rollbacks, proxy errors, lost answers and fails at any point, the transaction is never on the network while a proxy recipient has failed, given the sender's expiration is at most each recipient's |
| ProtocolTiming.SafeIffWellTimed | src/wallet/online.rs:1762-1772 | for any batch of a single or shared wallet that safety holds over all runs if and only if the expirations are ordered so or no run broadcasts the batch |
| ProtocolTiming.LateSenderHarms | src/wallet/online.rs:494-501 | the run, led by a single wallet or any cosigner, that harms a recipient expiring before the sender, for any number of recipients |
| ProtocolTiming.BroadcastPossibleIff | src/wallet/online.rs:1739-1795 | some run broadcasts a batch if and only if no proxy recipient's consignment is invalid and, in a shared wallet, there is a cosigner and every recipient uses a proxy |
| ProtocolBlocked.NeverBroadcast | src/wallet/online.rs:1745-1778 | no run of any other batch has its transaction on the network |
| ProtocolBlocked.UnrecordedBlocks | src/wallet/multisig.rs:275-277 | a shared wallet, which refuses such a recipient at the start, could never record an ACK given by hand: no run would broadcast the batch |
| ProtocolSafety.CosignersFollowHub | src/wallet/multisig.rs:286-311 | in every run a cosigner's Failed means the hub refused and nothing was broadcast, and WaitingConfirmations or Settled that it accepted |
| ProtocolSafety.CosignersAgree | src/wallet/multisig.rs:279-311 | no two cosigners are ever on opposite outcomes, at the same or different points of a run |
| ProtocolSafety.AckNeverFlips | src/wallet/online.rs:1683-1737 | once recorded, an ACK or NACK row stays the same in every continuation of every run |
| ProtocolSafety.StepKeepsInv | src/wallet/online.rs:2036-2068 | every event keeps the invariant linking rows, proxy slots, hub decision, expirations and statuses |
| ProtocolSafety.StepExtends | src/wallet/online.rs:1705-1727 | no event revises a recorded or posted ACK, a hub decision or a seen transaction |
| ProtocolSafety.IncomingKeeps | src/wallet/online.rs:991-1040 | a recipient's refresh, fail or take-over, committed or rolled back, keeps a posted verdict equal to the consignment's and gives an ACK up only after expiring |
| ProtocolSafety.IncomingStaysSafe | src/wallet/online.rs:434-455 | a recipient that ACKed cannot fail once the transaction is visible, since failing refreshes first |
| ProtocolSafety.CompleteKeeps | src/wallet/online.rs:1739-1795 | completing a batch leads only to statuses that follow the hub, and makes the transaction visible only with all ACKs and before expiration |
| ProtocolOutcomes.BroadcastNeedsAllAcks | src/wallet/online.rs:1756-1794 | the step that first broadcasts is a sender's, with every row of the list it completes with ACKed, the batch unexpired and a shared wallet's hub accepting |
| ProtocolOutcomes.NackFails | src/wallet/online.rs:1745-1755 | a refresh whose polling completes and sees any NACK ends on Failed without broadcast; the hub can never have accepted such a batch |
| ProtocolOutcomes.NackedNeverBroadcast | src/wallet/online.rs:662-673 | after a NACK is posted no continuation of any run broadcasts |
| ProtocolOutcomes.LateCosignerStuck | src/wallet/online.rs:1766-1772 | a cosigner that comes after the expiration of an accepted batch stays in WaitingCounterparty in every continuation |
| ProtocolOutcomes.CosignerCatchesUpIff | src/wallet/online.rs:1756-1794 | a cosigner that does not know of an acceptance yet can complete its transfer in some run if and only if the batch has not expired |
| ProtocolOutcomes.NextRefreshDecides | src/wallet/online.rs:1762-1778 | the next refresh of a wallet that does not know of an acceptance follows it before the expiration; past it a watch-only user fails and a cosigner stays |
| ProtocolOutcomes.WatchOnlyFailsIff | src/wallet/multisig.rs:298-310 | a watch-only user can fail an accepted batch in some run if and only if the batch has an expiration |
| ProtocolOutcomes.LateCosignerArises | src/wallet/multisig.rs:305-311 | that state is reachable with the transaction on the network |
| ProtocolOutcomes.WatchOnlyCanDisagree | src/wallet/multisig.rs:298-310 | a run in which a watch-only user fails a transfer that the hub accepted and a cosigner broadcast |
| ProtocolWallets.Hub.SetTransferStatus | src/wallet/multisig.rs:286-296 | the register keeps its first value, and a different one is a mismatch |
| ProtocolWallets.SendingWallet.FailBatchTransfer | src/wallet/online.rs:423-432 | the row is failed only if the hub agrees, exactly as the protocol's step |
| ProtocolWallets.SendingWallet.SetHubAcceptStatus | src/wallet/multisig.rs:286-303 | accepting for each role, and the decision it leaves on the hub |
| ProtocolWallets.SendingWallet.TryComplete | src/wallet/online.rs:1739-1795 | the loop over ACKs and the branches equal the protocol's completion of a batch |
| ProtocolWallets.SendingWallet.WaitAcks | src/wallet/online.rs:1683-1737 | polling row by row writes exactly the polled rows, also when the proxy fails half way, and completes with the very same list |
| ProtocolWallets.SendingWallet.RefreshTransfer | src/wallet/online.rs:2036-2068 | one refresh of an outgoing batch equals the step whose outcome `ProtocolReplies` spells out case by case, errors included |
| ProtocolWallets.SendingWallet.FailTransfer | src/wallet/online.rs:434-520 | failing refreshes first, treats fee errors as unchanged and undoes the rows on any other error |
| ProtocolWallets.SendingWallet.ProvideOutOfBandAck | src/wallet/online.rs:1797-1899 | the ACK is kept only if the batch waits or is broadcast; otherwise the rows are as before |
| ProtocolWallets.ReceivingWallet.RefreshTransfer | src/wallet/online.rs:2051-2066 | one refresh of an incoming transfer equals that step, settling only at the minimum of confirmations, and reports whether the status moved |
| ProtocolWallets.ReceivingWallet.FailTransfer | src/wallet/online.rs:457-520 | failing an incoming transfer equals the protocol's step, refused before expiration while waiting for the broadcast |
| ProtocolWallets.ReceivingWallet.Operate | src/wallet/online.rs:991-1040 | whichever operation the wallet runs, a posted verdict stays, an ACK is given up only past the expiration, and not once the transaction is visible |
| ProtocolReplies.SettledHasConfirmations | src/wallet/online.rs:1918-2020 | in every run a transfer that has settled, at a sender or a recipient, has at least the confirmations it asks for |
| ProtocolReplies.SenderConfirms | src/wallet/online.rs:1918-2020 | a sender that waits for confirmations settles at or above the minimum and stays below it |
| ProtocolReplies.RecipientConfirms | src/wallet/online.rs:1937-1953 | a recipient waits for the network to have the transaction, then for the minimum of confirmations, then settles |
| ProtocolReplies.RecipientJudges | src/wallet/online.rs:1042-1167 | a consignment is judged on a refresh or when handed over, by how it travels: refused with a NACK, deferred, or ACKed |
| ProtocolReplies.RecipientDefers | src/wallet/online.rs:1613-1681 | a deferred one is ACKed once its history is safe; a consignment is taken over only from a recipient that waits for it |
| ProtocolReplies.RecipientFails | src/wallet/online.rs:434-520 | failing an incoming transfer is refused, gives way to a refresh that changes something, or fails it |
| ProtocolReplies.SenderRefreshes | src/wallet/online.rs:1739-1795 | a NACK, or agreement too late, gives the batch up unless the hub has accepted it; a missing answer keeps it waiting; the ACKs seen are recorded |
| ProtocolReplies.SenderCompletes | src/wallet/online.rs:1756-1794 | with all ACKs in time the hub is asked and the network decides; a watch-only user waits for the hub |
| ProtocolReplies.ProxyEndsRefresh | src/wallet/online.rs:1683-1737 | a proxy failing at a row leaves exactly the rows before it recorded, and undoes a fail altogether |
| ProtocolReplies.RefusalIsFollowed | src/wallet/online.rs:2055-2060 | a member of a shared wallet follows the hub's refusal before it asks any proxy |
| ProtocolReplies.SenderFails | src/wallet/online.rs:457-520 | failing a batch that cannot be completed fails it, for a cosigner at the hub too, unless the hub has accepted it |
| ProtocolReplies.FailingCompletes | src/wallet/online.rs:434-455 | failing one that can be completed broadcasts it; a fee error fails it, any other error leaves it |
| ProtocolReplies.SenderPastFailing | src/wallet/online.rs:457-520 | a batch past failing, or one that is only watched, is left as it is |
| ProtocolReplies.AckByHand | src/wallet/online.rs:1797-1899 | an ACK by hand counts only for a waiting single wallet and a recipient without a proxy |
| ProtocolReplies.AckByHandDecides | src/wallet/online.rs:1797-1899 | it is kept while others are missing; with the last one the transaction goes out or all is undone |
| RejectSearch.SearchAncestors | src/wallet/online.rs:2398-2422 | the depth-first walk finds a rejection if and only if a path of ancestors without allowed opouts reaches a rejected one; it ends on any graph |
| RejectSearch.CheckDag | src/wallet/online.rs:2386-2425 | returns exactly the tainted opouts among those checked; errs if and only if one is missing from the index |
| RejectSearch.GetRejectList | src/wallet/online.rs:864-899 | the last line about an opout decides; allow and reject sets are disjoint |
| RejectSearch.LinesSay | src/wallet/online.rs:871-884 | an exclamation mark before an opout allows it, the bare opout rejects it |
| RejectSearch.AllowShields | src/wallet/online.rs:2409-2412 | allowing more never rejects more, and an allowed opout is never rejected |
| Selection.SelectRgbInputs | src/wallet/online.rs:2113-2243 | the selection is part of the candidates in order, totals right, every output hosting something those before it miss, none passed over that does, no last one superfluous; it succeeds if and only if the candidates hold enough |
| Selection.TakenInOrder | src/wallet/online.rs:2119-2162 | chosen outputs come from the smallest holders to the largest in the main amount, and where that is equal in the inflation rights |
| Selection.SmallestTakenFirst | src/wallet/online.rs:2119-2162 | the same with the amounts spelled out: all that an output hosts of any asset, a piece counting as one |
| Selection.LastWasNeeded | src/wallet/online.rs:2181-2213 | an output is taken only while those before it do not suffice |
| Selection.AddAllocations | src/wallet/online.rs:2215-2218 | an output adds exactly the amounts of its allocations to the collection |
| SendLoop.AllocateInputs | src/wallet/online.rs:2472-2512 | the opouts of the selected outputs split into inputs and extras: no input is rejected, each one helped when it was taken, and no unrejected extra is smaller than an input of its kind |
| SendLoop.PlacedCorrectly | src/wallet/objects.rs:839-870 | after any number of opouts the collected amounts are the inputs' and everything useful and unrejected was taken until enough |
| SendLoop.PlacedInOrder | src/wallet/online.rs:2472-2512 | of opouts in ascending order every one taken is needed, the smallest are taken, and no unrejected one left would have helped |
| SendLoop.UnrejectedCovers | src/wallet/objects.rs:872-884 | with a target raised by all rejected amounts, the unrejected opouts cover the original: change cannot underflow |
| SendLoop.AllocationCovers | src/wallet/online.rs:2558 | what is chosen always covers the original request, in every pass |
| SendLoop.PrepareAsset | src/wallet/online.rs:3562-3567 | one asset of one pass: inputs equal request plus change, smallest first and each needed, or the unrejected opouts cannot cover the request |
| SendLoop.InflateNeeded | src/wallet/online.rs:2757-2764 | after a rejection the target is the original plus the amounts of all rejected opouts |
| SendLoop.OthersUnaffected | src/wallet/online.rs:2757-2764 | rejections of one asset leave the other assets' targets right |
| SendLoop.JudgeInputs | src/wallet/online.rs:2734-2768 | stops at the first asset with tainted inputs, returning only tainted ones; clean means no input of any listed asset is tainted |
| SendLoop.Reject | src/wallet/online.rs:2756-2766 | every retry strictly enlarges the rejected set and keeps all targets exact |
| SendLoop.PrepareAll | src/wallet/online.rs:3550-3582 | a pass serves every asset without rejected inputs, or names one that the rest cannot cover |
| SendLoop.Attempt | src/wallet/online.rs:3549-3602 | a pass ends the send with a justified outcome or leaves a strictly larger rejected set |
| SendLoop.SendBegin | src/wallet/online.rs:3547-3603 | the retry loop ends on every input; success means untainted inputs worth request plus change and a seal for change and leftovers alike, failure that unrejected opouts cannot cover it, that no inputs pay for it, that what comes back has no output to go to, or that an opout is missing from the index |
| SendLoop.SendSucceedsIffClean | src/wallet/online.rs:3547-3603 | with a steady list the loop succeeds if and only if no pass lacks bitcoins or an output for its change and untainted opouts on candidate outputs cover every request |
| SendLoop.SolventSendSucceedsIffClean | src/wallet/online.rs:3547-3603 | where all outputs together can pay, success depends on the untainted opouts and the place of the change alone |
| SendLoop.Arrange | src/wallet/online.rs:3550-3602 | before its inputs are judged a pass has served all assets, paid for the transaction and found a seal for everything that comes back, or ends with the reason why not |
| SendLoop.SealedWhereNeeded | src/wallet/online.rs:2556-2666 | a prepared send has a seal over its inputs unless there is no change, no leftover opout and no holding of another asset on them; a send without a place for change has one of these |
| ChangeSeal.SealFoundIff | src/wallet/online.rs:2359-2384 | a seal is found if and only if the transaction has bitcoin change or an allocatable output outside its inputs is left |
| ChangeSeal.SealIsSpare | src/wallet/online.rs:2367-2383 | change never goes to an output that the transaction spends, nor to a full, unknown or promised one |
| ChangeSeal.SealIsPreferred | src/wallet/online.rs:2359-2384 | bitcoin change is used if there is any; else the spare output chosen is the least loaded one that hosts something arriving, or a least loaded one of all that hosts nothing or has no such competitor |
| ChangeSeal.TakeSeals | src/wallet/online.rs:2556-2568 | one seal per change and leftover, the chosen output kept for all; none is looked for when nothing comes back |
| ChangeRoom.RoomySendSucceedsIffClean | src/wallet/online.rs:3547-3603 | where besides every transaction pays bitcoins back, or one allocatable output is no candidate input, success depends on the untainted opouts alone |
| ChangeRoom.OnlyOutputLeavesNoRoom | src/wallet/online.rs:2359-2384 | where the only output holds more than the request, be it in one opout, another one or another asset, and there is no bitcoin change, every send fails for want of an output for the rest |
| ChangeRoom.LeftoverLeavesNoRoom | src/wallet/online.rs:2634-2650 | so does an exact request of one of its two opouts |
| ChangeRoom.SoleOutputLeavesNoRoom | src/wallet/online.rs:2367-2369 | so does a request of part of its one opout |
| Funding.TryPreparePsbt | src/wallet/online.rs:2295-2340 | inputs grow by the largest free output until the transaction can be built; it fails for want of outputs only when all of them are too little |
| Funding.FundedIffEnough | src/wallet/online.rs:2295-2340 | where more inputs never hurt, funding succeeds if and only if all inputs there are would be enough |
| Transitions.PreparedIsFunded | src/wallet/online.rs:2558-2562 | what the inputs are prepared with meets what building any kind of transition needs |
| Transitions.PrepareSingle | src/wallet/online.rs:3786-3800 | an inflation or burn is funded by the selected inputs, or the candidates do not cover it |
| Transitions.BuildMain | src/wallet/online.rs:2515-2602 | the transition balances, every recipient gets one output of exactly what it asks for, the rest goes to the wallet and is worth exactly the change, and what is issued or burned is the plan's |
| Transitions.BuildTransitions | src/wallet/online.rs:2457-2666 | one transition carries out each plan in this way, every other one returns one leftover whole to the wallet; all balance, and together consume each selected opout of a planned asset and each other asset's input opout exactly once |
| Transitions.ExtrasMoveWhole | src/wallet/online.rs:2634-2666 | each leftover opout moves intact to a change seal in its own transition |
| Transitions.CollectOthers | src/wallet/online.rs:2618-2632 | exactly the input opouts of assets outside the batch are collected |
| Transitions.ConservedIffSelected | src/wallet/online.rs:2458-2470 | every opout on a spent input is moved if and only if each input hosting a batch asset was selected for that asset |
| SharedInput.SharedInputLosesAsset | src/wallet/online.rs:2619-2622 | two assets sent through selection, preparation and building: what the second asset's input hosts of the first is consumed by no transition |
| SharedInput.OnlyFirst | src/wallet/online.rs:2158-2163 | of two outputs the one worth less comes first and is the whole selection when it is enough |
| SharedInput.OnlySecond | src/wallet/online.rs:2168-2178 | an output that hosts nothing of the asset is never selected for it |
| Transitions.UnselectedIsLost | src/wallet/online.rs:2619-2622 | any such opout is on the inputs and consumed by no transition |
| Balances.SpendableWithinSettled | src/database/mod.rs:790-822 | the spendable subtraction never fails, in any database |
| Balances.FutureByColoring | src/database/mod.rs:710-788 | the future balance is the sum of the colorings' weights plus pending witness requests |
| WalletRuns.StepKeepsInv | src/wallet/online.rs:2945-3163 | every operation that does not reuse a bare input keeps the wallet invariant: live batches take no more than their inputs hold, each held amount is claimed once, inputs of broadcast batches are spent |
| WalletRuns.StepKeepsAccount | src/wallet/online.rs:3224-3244 | no such operation changes what a live batch declares or what the outputs it spends hold |
| WalletRuns.RunKeepsInv | src/wallet/online.rs:3224-3244 | so does every run of such operations, batches that leave an asset behind included |
| WalletRuns.RunKeepsAccount | src/wallet/online.rs:3224-3244 | over such a run a batch's account stays as it was prepared |
| WalletRuns.StepKeepsPlaced | src/wallet/online.rs:2945-3163 | every operation, one that reuses a bare input included, keeps live amounts on known outputs, inputs of broadcast batches spent and invoices on known outputs |
| WalletRuns.ReachedIsPlaced | src/wallet/online.rs:3224-3244 | that holds in every state that a new wallet reaches, and the full invariant in every one it reaches without such a reuse |
| PreparedBatch.PreparedDeclares | src/wallet/online.rs:2945-3163 | the batch saved for a prepared send takes of no asset more than the outputs it spends hold, which is what runs ask of a begun batch |
| PreparedBatch.RowsAreLive | src/database/mod.rs:790-822 | what selection counts on unspent outputs is live on the outputs that the batch spends, coloring by coloring |
| WalletRuns.SpendableInput | src/wallet/online.rs:3224-3244 | an output that passes the input filter exists and hosts nothing pending and no blind invoice |
| WalletEffects.SettledByColoring | src/database/mod.rs:746-750 | the settled balance is what is settled on unspent outputs plus what a transaction still to be confirmed took |
| WalletEffects.BroadcastSettled | src/wallet/online.rs:89-121 | a broadcast adds what the batch declares and drops what its transaction spends |
| WalletEffects.SettleSettled | src/wallet/online.rs:2015-2019 | a confirmation drops what the batch declares and adds its change on unspent outputs |
| WalletEffects.WholeTransferSettled | src/wallet/objects.rs:1869-1879 | from preparation to confirmation a transfer takes all that its inputs hold off the settled balance and adds its change |
| WalletEffects.ReceiveSettled | src/wallet/online.rs:2015-2019 | a confirmed receive adds what was allocated, where that is unspent |
| WalletEffects.IssueSettled | src/wallet/offline.rs:353-398 | an issuance adds the issued amounts at once |
| WalletEffects.OthersKeepSettled | src/database/mod.rs:746-750 | no other step moves the settled balance |
| WalletEffects.BeginMovesFuture | src/wallet/online.rs:2945-3163 | preparing a transfer takes what it declares off the future balance and adds its change |
| WalletEffects.ValidateMovesFuture | src/wallet/online.rs:1437-1446 | a validated consignment adds what it allocates to a blind invoice's output |
| WalletEffects.WitnessCounts | src/database/mod.rs:757-777 | a witness receive adds what was asked for to the future balance exactly while its transaction waits for confirmations |
| WalletBalances.FutureNonNegative | src/database/mod.rs:780-788 | pending outgoing amounts never exceed what is available, so the conversion succeeds |
| WalletBalances.BalancesNeverPanic | src/database/mod.rs:780-822 | in a run that reuses no bare input the two conversions of a balance never fail |
| WalletBalances.PanicsIffBareInput | src/database/mod.rs:780-788 | from a sound state some run ends with an unreadable balance if and only if some run reaches a bare input: an output that a pending transaction spends and that still passes for an input |
| WalletBalances.SharingNeedsBareInput | src/wallet/online.rs:3224-3244 | only such an output lets an operation take what a pending transaction spends |
| WalletBalances.EndKeepsFuture | src/wallet/online.rs:3165-3222 | finalizing leaves the future balance |
| WalletBalances.BroadcastMovesFuture | src/wallet/online.rs:89-121 | broadcasting adds what the batch declares to the future balance and drops the live amount its transaction spends |
| WalletBalances.BroadcastPanicsIff | src/database/mod.rs:780-788 | the balance is unreadable after a broadcast if and only if the amount spent exceeds the future balance and the declared inputs together |
| WalletBalances.BroadcastKeepsFutureIff | src/wallet/online.rs:89-121 | broadcasting leaves it if and only if the batch's inputs declare all the live amount it spends |
| WalletBalances.SettleKeepsFuture | src/wallet/online.rs:2015-2019 | settling leaves it |
| WalletBalances.TransferKeepsFuture | src/wallet/objects.rs:1869-1879 | a step of a transfer leaves the future balance if and only if it is not the broadcast of a batch that declares less than it spends |
| WalletBalances.FullBroadcastKeepsFuture | src/wallet/online.rs:2945-3163 | a batch that declares all its inputs hold of an asset keeps the asset's future balance when broadcast, after any run in between |
| WalletRuns.BeginAccount | src/wallet/online.rs:2971-3002 | a begun batch declares exactly the inputs it was prepared with, and its outputs hold what they held before |
| WalletBalances.FailForgets | src/wallet/online.rs:423-432 | after a failure all balances are those of a database without the batch's rows, whatever happened in between |
| WalletBalances.FailUndoesBegin | src/wallet/online.rs:423-432 | failing a prepared batch restores every balance held before |
| WalletBalances.SharedFeeInputPanics | src/database/mod.rs:780-788 | from any state with a bare input three more allowed operations lead to a negative future balance |
| WalletBalances.BareInputArises | src/wallet/online.rs:2302-2331 | issuing an asset and sending it with a fee input leaves a bare input |
| WalletBalances.FeeInputPanics | src/database/mod.rs:780-788 | the whole run, from two empty outputs to a balance that cannot be read |
| Spendable.CandidatesHoldSpendable | src/database/mod.rs:790-822 | what selection can take equals the spendable balance |
| Spendable.SelectForAmount | src/wallet/online.rs:2113-2243 | in every state that any run reaches, bare inputs shared or not, selecting n succeeds if and only if n is at most the spendable balance, without a superfluous input |
| WalletTables.Tables.SetColorings | src/wallet/online.rs:2985-3037 | one coloring row per entry is appended, in order, for the given batch |
| WalletTables.Tables.SaveTransfers | src/wallet/online.rs:2945-3163 | saving a prepared batch is the begin step of the model |
| WalletTables.Tables.MarkSpent | src/wallet/online.rs:110-118 | exactly the transaction's inputs become spent |
| WalletTables.Tables.PromoteOutputs | src/wallet/core.rs:648-689 | exactly the transaction's outputs become existing |
| WalletTables.Tables.BroadcastPsbt | src/wallet/online.rs:89-121 | promoting, marking and moving the status is the broadcast step of the model |
| WalletTables.Tables.FailBatch | src/wallet/online.rs:423-432 | failing is the fail step of the model |
| WalletTables.Tables.ImportContract | src/wallet/offline.rs:353-398 | an issuance is the issue step of the model |
| WalletTables.Tables.SaveReceived | src/wallet/online.rs:1437-1446 | saving a receive is the validation step of the model |
| WalletTables.Transfer | src/wallet/online.rs:3377-3390 | a transfer from preparation to settlement keeps the invariant and every other coloring |
| BdkStore.LaterSnapshotAbsorbs | src/wallet/core.rs:337-340 | writing a snapshot and then any extension of it by merge equals writing only the extension |
| BdkStore.PersistIdempotent | src/wallet/core.rs:424-428 | writing a change set twice equals writing it once, removals, unlocks and partial rows included |
| BdkStore.ExtensionAbsorbs | src/database/bdk.rs:185-419 | the same for any change set that says something about all the first does |
| BdkStore.RoundTripIffAdditive | src/database/bdk.rs:76-183 | loading after writing gives the change set back if and only if it removes and unlocks nothing and has one time per anchor |
| BdkStore.TimestampsMergeIffFresh | src/database/bdk.rs:56-64 | a timestamp column after writing is the merged one if and only if no written timestamp is staler |
| BdkStore.RawOverlays | src/database/bdk.rs:56-64 | stored transaction bytes stay unless new ones are written |
| BdkWrites.WriteIsMergeIff | src/database/bdk.rs:185-419 | on any tables, loading after a write gives the merge of what was there with the change set if and only if it removes and unlocks nothing, no time in it is staler than a stored one and no anchor changes its time |
| BdkWrites.WalletRowAfter | src/database/bdk.rs:190-231 | descriptors and network stay unless the change set carries them |
| BdkWrites.LockAfter | src/database/bdk.rs:233-264 | an output is locked after a write as the change set says, or as before if it says nothing |
| BdkWrites.BlockAfter | src/database/bdk.rs:266-290 | a hash is replaced, removed or kept in the same way |
| BdkWrites.ColumnsAfter | src/database/bdk.rs:292-345 | every column of a transaction that is not carried keeps its value |
| BdkWrites.AnchorAfter | src/database/bdk.rs:363-384 | an anchor keeps its time unless it is written again, with the latest time written |
| BdkWrites.RevealedAfter | src/database/bdk.rs:385-416 | a revealed index is the greater of the stored and the written one |
| BdkWrites.NothingWritten | src/database/bdk.rs:185-188 | an empty change set changes nothing |
| BdkWrites.LoadedAfter | src/database/bdk.rs:76-183 | descriptors, network, transactions, outputs and indices load as merged, whatever is written |
| BdkWrites.MergeAssociative | src/wallet/core.rs:429-474 | in whatever groups deltas are staged and gathered, they merge to the same change set |
| BdkTables.Tables.PersistChangeset | src/database/bdk.rs:185-419 | the upserts and deletions, part by part, equal the written store, whose effect `BdkWrites` spells out |
| BdkTables.Tables.WriteLocks | src/database/bdk.rs:233-264 | locks are added and unlocks deleted, all others untouched |
| BdkTables.Tables.WriteBlocks | src/database/bdk.rs:266-290 | hashes are upserted and removals deleted |
| BdkTables.Tables.WriteTxs | src/database/bdk.rs:292-345 | every touched transaction gets one row, absent columns keep what is stored |
| BdkTables.Tables.WriteAnchors | src/database/bdk.rs:363-384 | ascending anchors leave the latest time of each |
| BdkTables.Tables.WriteRevealed | src/database/bdk.rs:385-416 | a revealed index only ever rises |
| BdkTables.GatherRows | src/database/bdk.rs:292-312 | the four maps and the anchors are gathered into one row per touched transaction |
| BdkCrash.PersistHolds | src/database/bdk.rs:185-419 | writing keeps every stored transaction, anchor and revealed index and adds exactly those written |
| BdkCrash.StepKeepsInv | src/wallet/core.rs:429-474 | every event, a crash included, keeps file, temporary file, buffer and tables consistent |
| BdkCrash.StepKeepsKnown | src/wallet/core.rs:424-428 | nothing but a crash loses anything staged or buffered, a rollback included |
| BdkCrash.Durable | src/wallet/core.rs:452-474 | whatever was committed or flushed survives every continuation, and is in the tables once a start-up or commit completes |
| BdkCrash.RevealedNeverDecreases | src/database/bdk.rs:385-416 | over any run no stored revealed index goes down |
| BdkCrash.RecoveryEndsOnNewest | src/wallet/core.rs:337-359 | recovery yields the committed tables with only the newest complete snapshot applied |
| BdkCrash.RecoveryIdempotent | src/wallet/core.rs:355-358 | a crash before the files are dropped, and another recovery, give the same tables |
| BdkCrash.BlocksSurviveCrashIff | src/wallet/core.rs:337-359 | a crash and recovery leave the stored block hashes if and only if they agree with the newest snapshot on disk |
| BdkCrash.BlockHashCanRegress | src/wallet/core.rs:443-450 | a run from a new wallet after which a crash between commit and file removal brings an older block hash back |
| BdkKeeper.Keeper.PersistBdk | src/wallet/core.rs:429-453 | staging moves to the buffer and the transaction sees it written, with the callback registered only if there is something |
| BdkKeeper.Keeper.Commit | src/database/mod.rs:257-277 | the callback runs only on commit; a rollback keeps buffer and file |
| BdkKeeper.Keeper.PersistAndCommit | src/wallet/core.rs:481-484 | the persist point is a run of the crash model; committed, the tables have all that was gathered and the file is gone, rolled back all of it is still buffered |
| BdkKeeper.Keeper.FlushBdkPending | src/utils.rs:656-676 | flushing is a run of the crash model that ends with the buffer in the file |
| BdkKeeper.Keeper.SetupBdk | src/wallet/core.rs:337-362 | start-up is the recovery run of the crash model: the tables have both snapshots in order, and neither file is left |
| OperationLog.HandledInSyncIff | src/wallet/multisig.rs:1939-1985 | handling a resolved operation keeps the database equal to the log's approved prefix if and only if no approved operation is skipped or repeated |
| OperationLog.ExactlyOnce | src/wallet/multisig.rs:1257-1270 | over any run whose responses come in order, with rollbacks, surviving marks and restored backups the database holds exactly the approved operations up to its index, each once and in order |
| OperationLog.NextIsInOrder | src/wallet/multisig.rs:1835-1844 | the regular synchronisation is always in order |
| OperationLog.SyncCatchesUp | src/wallet/multisig.rs:1807-1889 | repeated synchronisation reaches the whole resolved log |
| OperationLog.CosignersConverge | src/wallet/multisig.rs:1807-1889 | of two synchronised cosigners one has applied a prefix of the other's operations |
| OperationLog.RespondInSyncIff | src/wallet/multisig.rs:2036-2107 | a response that the hub takes keeps the database in sync if and only if no approved operation is marked ahead of the local index |
| OperationLog.InitiateInSyncIff | src/wallet/multisig.rs:1272-1290 | applying an operation of one's own at once does so if and only if no approved one is still to be handled |
| OperationLog.CarefulIsOrderly | src/wallet/multisig.rs:1257-1270 | without rollbacks after a mark and restored backups, and with own operations only when up to date, every run is in order |
| OperationLog.SkippingArises | src/wallet/multisig.rs:2092-2097 | a run from an empty database in which a surviving mark makes a response skip an approved operation |
| OperationLog.SkippingLosesOperation | src/wallet/multisig.rs:2036-2107 | a skipped approved operation is never applied in any continuation without a restored backup |
| OperationOutcomes.DecisionStands | src/wallet/multisig.rs:1939-1985 | once approved or refused an operation stays so; in every continuation in order an approved one is in the database if and only if the index has passed it, a refused one never |
| OperationOutcomes.PostedIsNext | src/wallet/multisig.rs:1807-1889 | a posted operation that needs no approval is applied once the index passes it, any other one not while it is pending |
| OperationOutcomes.RunKeepsOutcomes | src/wallet/multisig.rs:1807-1889 | no run takes an operation back or revises an outcome |
| OperationOutcomes.RestoreReturns | src/wallet/backup.rs:239-291 | restoring brings back the database of the latest backup, whatever happened in between |
| OperationLog.CosignerDb.MarkOperationAsProcessed | src/wallet/multisig.rs:1257-1270 | a mark that is already there is not an error, and the index is moved |
| OperationLog.CosignerDb.HandleOperation | src/wallet/multisig.rs:1939-1985 | effects and index commit together or not at all; the hub's mark stays either way, as in the model |
| OperationLog.CosignerDb.SyncWithHub | src/wallet/multisig.rs:1807-1889 | handles exactly the operation after the local index, as the synchronisation step of the model |
| OperationLog.Hub.RespondToOperation | src/wallet/test/multisig/mod.rs:1300-1312 | the hub takes a response if and only if every earlier operation is marked as processed, and may resolve the operation with it |
| OperationLog.CosignerDb.RespondToOperation | src/wallet/multisig.rs:2036-2107 | taken if and only if the operation exists, is pending, not yet responded to and the hub holds all earlier ones as processed; then it is the response step of the model, else nothing changes |
| OperationLog.CosignerDb.Initiate | src/wallet/multisig.rs:1272-1290 | posting and applying at once is the model's step, refused while an operation is pending |
| Descriptors.BuildDescriptors | src/wallet/multisig.rs:111-195 | succeeds if and only if there are 1 to 255 usable cosigners and valid thresholds, with the two descriptors that `DescriptorKeys` spells out |
| Descriptors.DescriptorsCanonical | src/wallet/multisig.rs:168-170 | any order of the cosigners gives the same success and the same two descriptors |
| Descriptors.DescriptorDetermines | src/wallet/multisig.rs:180-190 | equal descriptors have equal thresholds and the same keys |
| DescriptorKeys.SameDescriptorIff | src/wallet/multisig.rs:139-195 | two wallets have the same colored (vanilla) descriptor if and only if they have its threshold and their cosigners' fingerprints, colored (vanilla) extended keys and keychains in common |
| DescriptorKeys.ColoredKeyParts | src/wallet/multisig.rs:128-163 | a colored key splits into the fingerprint, purpose, RGB coin and account, the colored extended key and its keychain |
| DescriptorKeys.VanillaKeyParts | src/wallet/multisig.rs:128-163 | a vanilla key splits into the fingerprint, purpose, Bitcoin coin and account, the vanilla extended key and the cosigner's keychain |
| DescriptorKeys.OtherKeysDoNotMatter | src/wallet/multisig.rs:139-147 | another usable vanilla key leaves the colored descriptor, and the other way round |
| DescriptorKeys.OwnKeysMatter | src/wallet/multisig.rs:139-147 | a colored key that prints differently gives another colored descriptor |
| DescriptorKeys.DescriptorReads | src/wallet/multisig.rs:168-195 | each descriptor names the network's unspendable internal key, its own threshold and its own keys in ascending order |
| DescriptorKeys.AcceptedIff | src/wallet/multisig.rs:111-155 | accepted are 1 to 255 cosigners whose fingerprints and extended keys are valid, these for the network, with two thresholds from 1 to their number |
| DescriptorKeys.ShownFields | src/wallet/multisig.rs:42-56 | a printed cosigner names fingerprint, vanilla key, colored key and keychain, in this order |
| Descriptors.ParseShown | src/wallet/multisig.rs:42-84 | a printed cosigner parses back, default keychain explicit, exactly when its fields are valid |
| Strings.SortedUnique | src/wallet/multisig.rs:168-170 | a multiset of strings has one sorted arrangement |
| Supply.GetTotalIssueAmount | src/wallet/offline.rs:249-259 | succeeds with the sum exactly when no amount is zero, the sum fits and the list may be empty |
| Supply.GetTotalInflationAmount | src/wallet/offline.rs:261-282 | the same, with the sum fitting on top of what is issued |
| Supply.SupplyBounded | src/wallet/offline.rs:786-791 | over every run known supply plus rights held is at most the maximum, and equal to it while no right is sent away |
| Supply.InflationNeverOverflows | src/wallet/online.rs:3899-3914 | in every run ending an inflation fits in 64 bits and raises the known supply by its amount |
| Supply.CoveredInflationAccepted | src/wallet/online.rs:3775-3784 | the overflow check never refuses an inflation that the selected rights cover |
| Supply.StepKeepsInv | src/wallet/online.rs:1994-2011 | every operation conserves issued supply plus all rights |
| Supply.IssuedIff | src/wallet/offline.rs:786-791 | an asset is issued if and only if no amount or right is zero and both together are positive and fit; its amounts are then known and its rights free |
| Supply.LearnedSupply | src/wallet/online.rs:1994-2011 | the known supply becomes the greater of what was known and what a consignment shows |
| Supply.BeginReserves | src/wallet/online.rs:2945-3163 | an operation holds back the free rights on its inputs, and at least what it takes |
| Supply.OutcomeFrees | src/wallet/online.rs:3881-3921 | a failed operation frees all it holds back, an ended one what it did not take |
| Supply.FailUndoesBegin | src/wallet/online.rs:423-432 | failing an operation leaves the asset as it was before it |
| Supply.RunStaysTidy | src/wallet/online.rs:423-432 | over every run nothing but an operation in flight holds rights back |
| Issuance.ChooseIssueUtxos | src/wallet/offline.rs:469-482 | works out if and only if there are as many allocatable outputs as amounts; outputs are distinct and stay within the limit |
| Issuance.ChooseIfaUtxos | src/wallet/offline.rs:846-866 | an inflatable issuance works out if and only if the amounts have slots and the empty outputs suffice for amounts and rights together; outputs are distinct, rights get empty ones |
| Issuance.EmptyUsedFirst | src/wallet/offline.rs:159-176 | every pick uses up exactly one empty output as long as there is one |
| Issuance.RightsMayStarve | src/wallet/offline.rs:846-861 | two outputs with a valid placement for an amount and a right that the condition of an inflatable issuance refuses |
| Issuance.HasPlacementIff | src/wallet/offline.rs:846-866 | amounts and rights can be placed within all limits if and only if the rights are at most the empty outputs and both together at most the allocatable ones |
| Issuance.RefusedWithRoomIff | src/wallet/offline.rs:846-866 | an inflatable issuance is refused despite such a placement if and only if there are rights, and amounts and rights outnumber the empty outputs |
| Issuance.UtxoIsAvailable | src/wallet/offline.rs:137-181 | an output is found if and only if one is available |
| Issuance.EmptyFirst | src/wallet/offline.rs:137-181 | a loaded output is chosen only when no available one is empty |
| Issuance.OneFewer | src/wallet/offline.rs:103-135 | excluding a used output makes exactly one fewer available |
| UtxoChoice.AvailableIff | src/wallet/offline.rs:103-135 | the outputs offered are exactly those with room: known, not excluded, with few enough allocations that did not fail and no batch being prepared on them |
| UtxoChoice.PrunedForgetsFailed | src/wallet/offline.rs:113-116 | exactly the failed allocations are forgotten |
| UtxoChoice.ChosenIsPreferred | src/wallet/offline.rs:156-176 | the output chosen is the least loaded one of the preferred kind, or a least loaded one of all that hosts nothing or has no competitor of that kind |
| TxoRows.ValidateAndSyncCommuteIff | src/wallet/core.rs:648-689 | validating and synchronising commute if and only if the output has a row, is not seen, or is unspent with its script pending |
| TxoRows.RowsNeverForget | src/database/mod.rs:368-410 | over any writes existence never reverts and a positive amount never becomes zero |
| TxoRows.WriteKeeps | src/database/mod.rs:368-410 | a write leaves other rows, and of its own row everything but existence and a positive amount |
| TxoRows.ExpectedOutput | src/wallet/online.rs:1424-1434 | a validated receive makes an unknown output expected: not there, not spent, pending, worth nothing |
| TxoRows.SyncPromotes | src/wallet/core.rs:648-689 | a synchronisation promotes exactly the listed outputs that it does not pass over, column by column |
| TxoRows.ScriptsTaken | src/wallet/core.rs:648-689 | a script leaves the pending list if and only if an output with it is promoted |
| TxoRows.TxoTable.Upsert | src/database/mod.rs:368-410 | on conflict only existence and a positive amount are updated |
| TxoRows.TxoTable.UpdateFromBdk | src/wallet/core.rs:648-689 | the loop over listed outputs leaves the rows and pending scripts that `SyncPromotes`, `UnlistedStay` and `ScriptsTaken` spell out |
| TxoRows.TxoTable.SaveReceived | src/wallet/online.rs:1424-1434 | the expected output's row is inserted unless there is one |
| BackupStream.StreamBe32Nonce | src/wallet/backup.rs:441-451 | prefix, big-endian position and last marker, 24 bytes |
| BackupStream.NonceInjective | src/wallet/backup.rs:441-451 | equal nonces under one prefix have equal position and marker |
| BackupStream.NonceBytes | src/wallet/backup.rs:441-451 | the 19 bytes of the prefix, the position with its most significant byte first, and 1 for the last chunk, else 0 |
| BackupStream.Layout | src/wallet/backup.rs:453-498 | every full chunk is sealed at its place under its position without the marker, and the rest, be it empty, under the next position with it |
| BackupStream.EncryptFile | src/wallet/backup.rs:453-498 | refused exactly when a full chunk falls on the counter's last position; no nonce is used twice |
| BackupStream.DecryptFile | src/wallet/backup.rs:500-544 | the loop equals chunk-wise decryption |
| BackupStream.RoundTrip | src/wallet/backup.rs:500-544 | decryption recovers every file encryption accepts, multiples of the chunk length included |
| BackupStream.CutAtChunkAccepted | src/wallet/backup.rs:515-533 | a file cut after any number of full chunks decrypts to the cleartext up to there |
| BackupStream.AcceptedIff | src/wallet/backup.rs:515-541 | of all files in which only what was sealed opens, exactly the encrypted one and its cuts after full chunks decrypt |
| BackupStream.CutAcceptedIff | src/wallet/backup.rs:515-541 | the first n bytes of an encrypted file decrypt if and only if n is its length or ends on one of its full chunks, zero included |
| BackupStream.AcceptedLengths | src/wallet/backup.rs:470-480 | the accepted lengths are those below 239 * 2^32 bytes |

## Left out

- Network clients and servers of hub, proxy, indexer and reject list: only the register, slot, counter or list each exposes is modelled.
- PSBT building and signing, consignment validation, fascia, Merkle commitments and miniscript: external libraries, modelled by their outcome.
- Entities, migrations, logging, archive and media files, bindings: no hard property.
- Witness receives in the future-balance statements: the requested amount is counted on top of the received coloring, so the statements are about outgoing, blind and issued amounts.
- Repeated validation after a late failure of an ACK: validation and ACK are one step in the balance model.
- A second end of a batch that has already moved on: the begin-to-end steps require an initiated batch.
- Refusals by a multisig recipient, which do not reach the hub: recipients of the protocol model are single wallets.
- Donations, whose transaction is broadcast at once: the protocol statements are about non-donation sends.
- Honesty of out-of-band ACKs: a sender's user may give one at any time, so recipient safety is stated for proxy recipients.
- What the hub checks of a posted operation besides that none is pending: its code is not in this repository.
- Restoring another cosigner's backup: `OperationLog` restores an earlier state of the same database.
- Chain reorganisations: a seen transaction stays, and a safe height is not lost.
- ProtocolSafety.CosignersFollowHub: does not speak of watch-only users, who never write the hub's decision; `ProtocolOutcomes.WatchOnlyCanDisagree` shows why.
- BdkCrash.Durable: does not cover block-hash rows, which a leftover file can rewrite; `BdkCrash.BlockHashCanRegress` shows how.
- SendLoop.SendBegin: original plus rejected amounts are naturals, so an overflow of that sum in 64 bits is not modelled.
- AssignmentsCollection: the source's methods update a local record in place; here they return a new value.
- Import of the legacy Bitcoin wallet file store: an optional feature with its own file.
- Order of the extra transitions, which the source takes from an unordered map: statements are about what all transitions consume together.
