# Verified model of the tokenisation platform's core

This project models the parts of the platform where a mistake is silent and costs
money or trust: the token ledger and what is rebuilt from its audit trail, the
chaincode that implements the same rules a second time, the webhook and ledger
workers, cashflow settlement, API-key authentication, credential writes, and three
pure cores (address parsing, rule ordering, selective disclosure). Each property is
proved for every input, every run or every interleaving.

Code that changes state step by step is modelled as classes and methods with loops,
proved against specification functions; what the code promises is then proved of
those functions, over whole runs. Concurrent workers are state machines whose runs
are arbitrary lists of steps.

## How it is organised

| file | what it holds |
|---|---|
| `Wrappers`, `Faults`, `Sequences`, `Sums`, `Texts`, `Amounts` | options and results, how a call can throw, small shared facts, balance tables and their sums, text splitting, the three readings of an amount |
| `Ledger`, `LedgerHistory`, `Trail`, `LedgerReplay`, `Rehydration` | the simulated ledger, the ledger as the history of its accepted calls, its audit trail, boot replay, and the reboot as a whole |
| `Holders`, `MarketReplay` | the economic and literal folds, and what the secondary market does to replay |
| `Chaincode`, `ChaincodeRefinement` | the key-value implementation and its refinement of the ledger |
| `Deliveries`, `EndpointHealth`, `DispatchPass` | webhook workers, endpoint health, one pass as written |
| `Confirmer`, `ConfirmerPass` | the register of ledger transactions and its confirmer |
| `ProRata`, `Cashflow`, `CashflowSaga` | floored shares, one settlement, interleaved settlements |
| `Investor`, `AssetStreams`, `Portfolio` | what holdings are worth, the streams of assets that share a contract, and what portfolios say of one asset between them |
| `KeyCache`, `Budgets`, `Principal` | the verified-prefix cache, the counters, the API-key path |
| `Credentials` | issuing, revoking and onboarding with failures at every call |
| `AddressBlocks`, `UrlGuard`, `PersonaEdges`, `Disclosure` | the tables of unreachable addresses, and the pure cores |

## Where the code does not do what its comments say

Each of these is a lemma with a concrete input, beside the exact condition under which
the promise does hold.

- Replay ignores a listing (apps/api/src/tokenization/ledger-replay.ts:82-91 debits the
  seller, and nothing handles `list`), so after a restart a seller's listed units are
  the seller's again and the escrow account has none: a listing that was open can be
  neither cancelled nor taken. A restart is invisible exactly when nothing is listed
  (`RestartInvisibleIffNothingListed`, `ListedUnitsAreStranded`).
- An amount such as `0x10` or ` 7` is accepted by the live ledger and read as zero by
  every fold (`StepReplaysIff`, `NonDecimalAmounts`). A wallet can so be overdrawn in the
  fold of a live trail, and portfolios then show more than the asset is worth
  (`OverdraftOverstates`).
- Assets of one use case share a contract, and the ledger checks what an account has on
  the contract as a whole (apps/api/src/shared/executors.ts:36-49, 162-188). Units of one
  asset can so be transferred as units of another, whose stream is overdrawn and whose
  portfolios show more than it is worth (`SharedContractOverstates`). An asset's own stream
  overdraws nobody exactly when each of its debits was covered in that stream
  (`SharedStreamIsSoundIff`), as `POST /assets/:id/listings` checks and a transfer does
  not; and no face value is overstated exactly when no wallet is overdrawn
  (`NeverOverstatesIff`).
- The chaincode's transfer of an account to itself credits it without debiting it, and a
  token transferred to its owner is listed twice (`StepRefinesIff`, `SelfTransferInflates`,
  `SelfTransferListsTwice`).
- The engine writes the ledger and then the record of it
  (packages/core/src/tokenization/lifecycle-engine.ts:147-148). If the record is lost, replay
  is in step with the ledger exactly when the call moved nothing (`UnrecordedKeepsStepIff`).
- "It cannot double-send" (apps/api/src/webhooks/dispatcher.ts:12-17): each holder's row
  stays under its claim exactly while no reclaim's limit passes a live claim
  (`ReclaimStepIff`, `ExclusiveIffCareful`), which holds while no send outlasts the stale
  limit (`TimelyIsCareful`) and not beyond (`SlowSendIsSentTwice`). A reclaim that passes
  one does no harm by itself (`CarelessIsNotYetTwo`): two workers come to be at one row
  exactly when a claim is won of a row that another is still at (`NeverTwoIff`).
- A retry waits for its backoff exactly when no failure is settled of a row that another
  worker has in its queue (`RetriesWaitIff`), because the claim does not look at the due
  time again: a second worker can skip it (`SecondWorkerSkipsTheBackoff`), a single worker
  never does (`OneWorkerWaits`).
- "Never a wrong disable" (apps/api/src/webhooks/dispatcher.ts:345-349) holds of serial
  settlements; one computed from a stale read is wrong exactly when a 2xx or a re-enabling
  came after the read and what failed since is no long run (`StaleDisableWrongIff`,
  `LostResetHappens`).
- A receipt without a status is "never" to read as success
  (packages/adapters/src/evm-adapter.ts:350-354), but the confirmer settles it as
  confirmed (`ConcludeIff`), and an asset can read active on nothing else
  (`StatuslessReadsActive`); `ProvenIff` and `ActiveUnprovenIff` say exactly when. Settling
  does not look at the row: which steps overwrite a
  closed row is exact (`ClosedChangesIff`, `ClosedForGoodIff`), a slow pass can take a
  confirmation back (`SlowPassUnconfirms`), and so can a pass without any delay that
  polled before the recorder wrote (`OvertakenRecorderIsUndone`).
- "Either completes to executed or compensates and releases"
  (apps/api/src/shared/executors.ts:246-247): `Execute` says exactly when. A payment that
  throws after it was made is not refunded, and a mark that throws after taking effect
  leaves a cashflow executed whose holders were all refunded (`ExecutedIffMarked`,
  `MarkedButRefunded`).
- A failed onboarding leaves a live credential if the call that stored it threw after
  storing it: the rollback does not know its id (`FailedOnboardingLeaves`,
  `OrphanedCredential`).
- "A narrow rule is never shadowed" (scripts/gen-persona-edges.ts:73-76): it comes first
  exactly when it is not the wider one with an empty tail (`NarrowerFirstIff`,
  `NoNarrowRuleShadowed`, `EmptyTailShadows`, `EmptySegmentIsShadowed`), and prefixes that
  do not end in a slash have none (`EmptyTailEndsInSlash`). A rule that is exact lends its
  methods to a twin that is not, and there is no other way for the edge to let through
  what no matching rule permits (`EdgeExceedsIff`, `ExactTwinLeaks`).

## Model

| member | source | states |
|---|---|---|
| Amounts.GoReadsLessThanJs | infra/fabric/chaincode/tokenlayer/tokenlayer.go:86-89 | every amount Go's base-10 reading accepts, `BigInt` accepts with the same value |
| Amounts.DecimalIsRead | packages/adapters/src/simulated-ledger.ts:175-179 | every number written in decimal, with any leading zeros, is read as that number by the live ledger, the folds and the chaincode; by `BigInt` among white space too, and by both languages under a sign |
| Amounts.PrefixedIsRead | packages/adapters/src/simulated-ledger.ts:175-179 | every number written in hexadecimal, octal or binary behind its prefix is read as that number by `BigInt` and as nothing by the folds and by Go |
| Amounts.BlankIsZero | packages/adapters/src/simulated-ledger.ts:175-179 | text with nothing but white space in it is zero to `BigInt` and nothing to the folds and to Go |
| Amounts.FoldReadsAmountIff | apps/api/src/tokenization/ledger-replay.ts:27-30 | of the amounts the live ledger accepts, the folds read the right value exactly for plain decimals |
| Amounts.NonDecimalAmounts | packages/adapters/src/simulated-ledger.ts:175-179 | hexadecimal and padded amounts are accepted live and read as nothing by the folds and by Go |
| Ledger.SimulatedLedger.Create | packages/adapters/src/simulated-ledger.ts:32-43 | creates an empty asset, and leaves other contracts alone |
| Ledger.SimulatedLedger.Hydrate | packages/adapters/src/simulated-ledger.ts:61-74 | replaces one contract's state by the given one |
| Ledger.SimulatedLedger.MintAmount | packages/adapters/src/simulated-ledger.ts:76-83 | performs the mint, of the number its amount is read as (`DecimalIsRead`), or fails with its error and no change |
| Ledger.SimulatedLedger.TransferAmount | packages/adapters/src/simulated-ledger.ts:85-94 | performs the transfer, to oneself included, of the number its amount is read as, or fails with its error and no change |
| Ledger.SimulatedLedger.BurnAmount | packages/adapters/src/simulated-ledger.ts:96-103 | performs the burn, of the number its amount is read as, or fails with its error and no change |
| Ledger.SimulatedLedger.MintNft | packages/adapters/src/simulated-ledger.ts:120-127 | performs the token mint or fails with its error and no change |
| Ledger.SimulatedLedger.TransferNft | packages/adapters/src/simulated-ledger.ts:129-135 | performs the token transfer or fails with its error and no change |
| Ledger.SimulatedLedger.BurnNft | packages/adapters/src/simulated-ledger.ts:137-142 | performs the token burn or fails with its error and no change |
| Ledger.SimulatedLedger.Freeze | packages/adapters/src/simulated-ledger.ts:154-158 | adds to or removes from the freeze list |
| Ledger.SimulatedLedger.Allow | packages/adapters/src/simulated-ledger.ts:160-164 | adds to or removes from the allowlist |
| Ledger.LedgerConserves | packages/adapters/src/simulated-ledger.ts:76-142 | after any attempts, accepted or refused, supply is the sum of the balances and no balance is negative |
| Ledger.SupplyIsSumOfHoldings | packages/adapters/src/simulated-ledger.ts:105-118 | of either kind, the total supply reported is the sum of the balances reported |
| Ledger.OwnersCounted | packages/adapters/src/simulated-ledger.ts:105-118 | token balances, summed over owners, are the number of tokens |
| Ledger.TransferMoves | packages/adapters/src/simulated-ledger.ts:85-94 | a transfer moves the amount between two accounts, and to oneself moves nothing |
| LedgerHistory.LedgerIsHistory | packages/adapters/src/simulated-ledger.ts:76-168 | after any attempts, every balance is what the accepted calls gave the account less what they took, supply is what was minted less what was burned, and every owner, uri and list entry is the last accepted word on it |
| LedgerHistory.AcceptedIffLawful | packages/adapters/src/simulated-ledger.ts:76-172 | after any attempts, a call is accepted exactly when the calls accepted before it make it lawful: amounts positive and covered, tokens new or their owner's, accounts neither frozen nor, where there is a list, off it |
| LedgerHistory.RefusedForCause | packages/adapters/src/simulated-ledger.ts:76-179 | the error of a refusal names something that is the case |
| LedgerHistory.BarredAccountsKeep | packages/adapters/src/simulated-ledger.ts:76-135 | nothing but a burn changes what a frozen account, or one off the list, has |
| LedgerReplay.FoldLedgerState | apps/api/src/tokenization/ledger-replay.ts:39-124 | the loop computes the replay of the trail |
| LedgerReplay.StepReplaysIff | apps/api/src/tokenization/ledger-replay.ts:53-122 | replaying one accepted non-market call keeps replay and ledger in step exactly for calls with non-empty addresses and token ids and plain decimal amounts, or that move nothing |
| LedgerReplay.AgreeStep | packages/adapters/src/simulated-ledger.ts:76-172 | two ledgers that agree give one operation the same answer and the same error, and agree afterwards |
| LedgerReplay.AgreeForever | packages/adapters/src/simulated-ledger.ts:76-172 | and so for every continuation |
| Trail.EntryTellsCall | packages/core/src/tokenization/lifecycle-engine.ts:140-310 | the entry recorded for a call says which call it was and with what |
| LedgerReplay.RestartIsInvisible | apps/api/src/tokenization/ledger-replay.ts:1-23 | hydrating from the trail of any run whose accepted calls are off the market, name their accounts and tokens and write their amounts plainly, whatever was refused besides, gives a ledger with the same readers and the same answers to every continuation |
| LedgerReplay.UnrecordedKeepsStepIff | packages/core/src/tokenization/lifecycle-engine.ts:147-148 | an accepted call that leaves no record keeps replay in step exactly when it moved nothing |
| Rehydration.GroupByContract | apps/api/src/tokenization/ledger-replay.ts:146-160 | one group for each simulated contract that has an asset, with all of their ids and the first asset's kind and use case |
| Rehydration.RehydrateSimulatedLedgers | apps/api/src/tokenization/ledger-replay.ts:140-182 | hydrates each group's contract from one page of its combined trail, skipping vanished use cases and trails that cannot be read, and counts contracts and entries |
| Rehydration.EntriesAreCounted | apps/api/src/tokenization/ledger-replay.ts:162-182 | where groups share no asset and each trail fits a page, the entries counted are the audit's entries of the assets recovered |
| Rehydration.GroupReadsItsContract | apps/api/src/tokenization/ledger-replay.ts:146-166 | the trail read for a contract has the rows of every asset on it, and no others |
| Rehydration.RebootRestores | apps/api/src/tokenization/ledger-replay.ts:134-182 | after a reboot a contract whose combined trail could be read and fits one page answers every reader as it did; one that was skipped is as it was |
| Rehydration.RebootRestoresMarketIff | apps/api/src/tokenization/ledger-replay.ts:134-182 | after a reboot a contract with a market agrees with the live ledger exactly when no account but the escrow account has anything listed |
| Holders.Fold.Step | apps/api/src/tokenization/holders.ts:56-112 | one entry folded in place |
| Holders.FoldAsset | apps/api/src/tokenization/holders.ts:36-41 | the economic balances and supply of a trail |
| Holders.FoldAssetRawBalances | apps/api/src/tokenization/holders.ts:130-191 | the literal balances of a trail |
| Holders.ReplayIsFold | apps/api/src/tokenization/holders.ts:48-113 | boot replay and the economic fold agree on balances, supply and owners, on every trail |
| Holders.SharedContractAddsUp | apps/api/src/shared/executors.ts:36-49 | however the fungible streams of a contract's assets interleave, the fold of the whole is, at every address and in supply, the sum of the folds of the parts |
| Holders.FoldsDifferByOpenEscrow | apps/api/src/tokenization/holders.ts:83-191 | economic is literal plus what the address has listed, less everything listed at the escrow account; the sums are equal |
| MarketReplay.RunIsLiteral | apps/api/src/tokenization/holders.ts:116-191 | the literal fold of the trail of a fungible run, of which the accepted calls name their accounts and write their amounts plainly, market calls included, is the live ledger's balances |
| MarketReplay.ReplayIsLiveUpToEscrow | apps/api/src/tokenization/ledger-replay.ts:82-91 | replayed balances are the live ones plus open listings, less their total at the escrow account |
| MarketReplay.RestartInvisibleIffNothingListed | apps/api/src/tokenization/ledger-replay.ts:82-91 | a restart of a market contract agrees with the live ledger exactly when no other account has anything listed |
| MarketReplay.OpenIsListed | packages/core/src/tokenization/lifecycle-engine.ts:196-262 | what a trail shows as listed is what the accepted calls listed and neither released nor settled |
| MarketReplay.ListedUnitsAreStranded | packages/core/src/tokenization/lifecycle-engine.ts:224-238 | after listing everything and restarting, the release that the live ledger would accept is refused |
| MarketReplay.NftSupplyIffNoStrays | apps/api/src/tokenization/holders.ts:59-107 | the token fold's supply is the number of owned tokens exactly when no transfer names a token that was never minted |
| MarketReplay.NftBalancesAreCounts | apps/api/src/tokenization/holders.ts:59-107 | each address's balance is the number of tokens it owns |
| MarketReplay.LiveTokenTrailHasNoStrays | packages/core/src/tokenization/lifecycle-engine.ts:274-310 | the trail of a live token run has no such transfer |
| Chaincode.SmartContract.DeployAsset | infra/fabric/chaincode/tokenlayer/tokenlayer.go:69-73 | writes the asset's record |
| Chaincode.SmartContract.MintAmount | infra/fabric/chaincode/tokenlayer/tokenlayer.go:75-94 | commits the mint's writes or fails with nothing written |
| Chaincode.SmartContract.TransferAmount | infra/fabric/chaincode/tokenlayer/tokenlayer.go:96-120 | commits the transfer's writes, both balances read before either is written, or fails with nothing written |
| Chaincode.SmartContract.ClearBoth | infra/fabric/chaincode/tokenlayer/tokenlayer.go:101-108 | freeze and allowlist, account by account, in that order |
| Chaincode.SmartContract.BurnAmount | infra/fabric/chaincode/tokenlayer/tokenlayer.go:122-139 | commits the burn's writes or fails with nothing written |
| Chaincode.SmartContract.MintNft | infra/fabric/chaincode/tokenlayer/tokenlayer.go:141-157 | commits owner key and owned list, or fails with nothing written |
| Chaincode.SmartContract.TransferNft | infra/fabric/chaincode/tokenlayer/tokenlayer.go:159-179 | commits both lists and the owner key, each list read as committed, or fails with nothing written |
| Chaincode.SmartContract.BurnNft | infra/fabric/chaincode/tokenlayer/tokenlayer.go:181-188 | removes the token from list and key, or fails with nothing written |
| Chaincode.SmartContract.PutFlag | infra/fabric/chaincode/tokenlayer/tokenlayer.go:229-244 | sets or deletes a freeze or allow flag |
| Chaincode.ChainRefusesForCause | infra/fabric/chaincode/tokenlayer/tokenlayer.go:75-188 | the error of a refusal names something that is the case |
| Chaincode.RemoveOwned | infra/fabric/chaincode/tokenlayer/tokenlayer.go:205-217 | the list without every occurrence of the token |
| Chaincode.FilterInPlace | infra/fabric/chaincode/tokenlayer/tokenlayer.go:205-217 | the same, by compacting the array it reads from |
| ChaincodeRefinement.AcceptsTheSame | infra/fabric/chaincode/tokenlayer/tokenlayer.go:75-188 | related states accept exactly the same operations, of those whose amount Go can read |
| ChaincodeRefinement.StepRefinesIff | infra/fabric/chaincode/tokenlayer/tokenlayer.go:96-179 | an accepted operation keeps store and ledger related exactly when it moves nothing from an account to itself |
| ChaincodeRefinement.SelfTransferInflates | infra/fabric/chaincode/tokenlayer/tokenlayer.go:96-120 | five units minted and transferred to oneself are ten on the chain and five on the ledger |
| ChaincodeRefinement.SelfTransferListsTwice | infra/fabric/chaincode/tokenlayer/tokenlayer.go:159-179 | a token transferred to its owner is listed twice and counted as two |
| ChaincodeRefinement.ChaincodeRefinesLedger | infra/fabric/chaincode/tokenlayer/tokenlayer.go:75-244 | every run, on deployed contracts and others, of which what the ledger would perform has an amount Go reads and is not from an account to itself, whatever was refused besides, keeps all deployed contracts related: owned lists free of duplicates and equal to the inverted owner keys |
| ChaincodeRefinement.OtherContracts | infra/fabric/chaincode/tokenlayer/tokenlayer.go:30-36 | a transaction on one contract keeps the others related |
| ChaincodeRefinement.DeployRefines | infra/fabric/chaincode/tokenlayer/tokenlayer.go:69-73 | a newly deployed contract is related to an empty asset |
| ChaincodeRefinement.ReadersAgree | infra/fabric/chaincode/tokenlayer/tokenlayer.go:246-271 | related states answer balance, owner, tokens and fungible supply alike; token supply, always zero here, agrees exactly when there are no tokens |
| Deliveries.DeliverySafety | apps/api/src/webhooks/dispatcher.ts:180-324 | over every interleaving of any number of workers in which no reclaim passes a live claim: one worker at a row at a time; attempts counts settled tries; at most six sends and one more for each lost in a crash; a send after a 2xx only if a crash dropped one before it was settled; a row is dead exactly when a worker gave it up or six of its tries were settled as failures since it was queued or requeued, and waits for a retry only after one to five; nobody is at a dead one |
| Deliveries.FailedTryWaits | apps/api/src/webhooks/dispatcher.ts:303-324 | over those runs, a try that fails after `n` failures leaves the row failed and due again after 30 s, 2 min, 10 min, 1 h or 6 h by `n`, within twenty per cent, and dead after five |
| Deliveries.RequeueStartsOver | apps/api/src/persistence/memory/shared.ts:607-619 | over those runs, a row that nobody is at can be queued afresh, whatever became of it, with all six attempts before it |
| Deliveries.ExclusiveIffCareful | apps/api/src/webhooks/dispatcher.ts:180-324 | every holder's row stays under its claim throughout a run exactly when no reclaim of the run passes a live claim |
| Deliveries.NeverTwoIff | apps/api/src/persistence/memory/shared.ts:585-594 | over any run, no two workers are ever at one row exactly when no claim is won of a row another is still at |
| Deliveries.CarelessIsNotYetTwo | apps/api/src/webhooks/dispatcher.ts:91-97 | a run with such a reclaim and, so far, nobody else at the row |
| Deliveries.TimelyIsCareful | apps/api/src/webhooks/dispatcher.ts:91-97 | and so they are while every live claim is younger than the stale limit |
| Deliveries.ReclaimStepIff | apps/api/src/persistence/memory/shared.ts:595-606 | a reclaim keeps claims exclusive exactly when every live claim was made at its limit or later |
| Deliveries.SlowSendIsSentTwice | apps/api/src/webhooks/dispatcher.ts:91-97 | a send that outlasts the stale limit is out twice at once |
| Deliveries.RetriesWaitIff | apps/api/src/webhooks/dispatcher.ts:186-194 | over any run of any workers, every row queued or in hand is due throughout exactly when no failure is settled of a row another worker has in its queue, and then no claim is early |
| Deliveries.OneWorkerWaits | apps/api/src/webhooks/dispatcher.ts:186-194 | so a single worker claims only rows that are due |
| Deliveries.SecondWorkerSkipsTheBackoff | apps/api/src/persistence/memory/shared.ts:585-594 | two timely workers can retry a row before its due time |
| EndpointHealth.CountersAreHistory | apps/api/src/webhooks/dispatcher.ts:359-383 | the counter is the number of attributable failures since the last 2xx or re-enabling, and its clock the time of the first of them |
| EndpointHealth.OtherFieldsAreHistory | apps/api/src/webhooks/dispatcher.ts:359-396 | the guard counter is the number of refusals in a row, the last delivery the last attempt, and the time of disabling that of the mark that switched it off |
| EndpointHealth.AttemptDisablesIff | apps/api/src/webhooks/dispatcher.ts:377-396 | an attempt disables exactly when the run has twenty failures of which the first is an hour old; refusals add nothing to it |
| EndpointHealth.DisabledForCause | apps/api/src/webhooks/dispatcher.ts:377-396 | an endpoint is off exactly when it was last switched off by hand or by such an attempt |
| EndpointHealth.FaultsOfOursNeverDisable | apps/api/src/webhooks/dispatcher.ts:351-371 | fewer than twenty rejections, among any number of refusals and unopenable secrets, never disable |
| EndpointHealth.StaleDisablesIff | apps/api/src/webhooks/dispatcher.ts:344-383 | a settlement computed from an earlier state of the endpoint asks to disable exactly when the run it saw was long |
| EndpointHealth.StaleDisableWrongIff | apps/api/src/webhooks/dispatcher.ts:344-349 | and that is wrong for the whole history exactly when a 2xx or a re-enabling came after the read and what has failed since is no long run |
| EndpointHealth.LostResetHappens | apps/api/src/webhooks/dispatcher.ts:344-349 | a history, of an endpoint that lived it, in which a 2xx is lost and the endpoint disabled after one failure |
| DispatchPass.Dispatcher.DispatchDue | apps/api/src/webhooks/dispatcher.ts:180-400 | reclaims, then handles the due rows in order, counting those it wins |
| DispatchPass.Dispatcher.Attempt | apps/api/src/webhooks/dispatcher.ts:189-397 | one row: claim, give up or try, settle, judge the endpoint |
| DispatchPass.Dispatcher.SettleAttempt | apps/api/src/webhooks/dispatcher.ts:303-397 | the row as settled and the endpoint as judged |
| DispatchPass.RowByAttempts | apps/api/src/webhooks/dispatcher.ts:189-324 | what a pass makes of a due row by the number of its earlier attempts: delivered, failed with the next of six to come, dead after the sixth or for want of its event or of an active endpoint; no other row changes |
| DispatchPass.TakesBackAfterTwoMinutes | apps/api/src/webhooks/dispatcher.ts:91-97 | a pass takes back exactly the rows claimed more than 120000 ms before it, attempts and due time kept |
| DispatchPass.HandlesThoseWaiting | apps/api/src/webhooks/dispatcher.ts:186-400 | of rows read once each, a pass counts those that were waiting when it began |
| DispatchPass.PassIsSerial | apps/api/src/webhooks/dispatcher.ts:180-400 | a pass takes each endpoint through the serial health history of its attempts |
| DispatchPass.PassIsRun | apps/api/src/webhooks/dispatcher.ts:180-400 | the pass as written is a run of the worker state machine, step by step, so what holds of every careful interleaving holds of it |
| Confirmer.RegisterNeverOverClaims | apps/api/src/tokenization/asset-settlement.ts:23-31 | under any interleaving and delays, an asset reads active only if each of its transactions was told a status that is no revert, was its own proof, or had a receipt without a status, and failed only on its own mark or a status-0 receipt; with nothing known a row stays open |
| Confirmer.ProvenIff | apps/api/src/shared/ledger-confirmer.ts:51-79 | over any run, a transaction is never confirmed without proof exactly when no receipt without a status is settled while nothing else has proved it |
| Confirmer.ActiveUnprovenIff | apps/api/src/tokenization/asset-settlement.ts:23-31 | an active verdict lacks a proof exactly for the transactions confirmed without one, each of them by such a step |
| Confirmer.StatuslessReadsActive | packages/adapters/src/evm-adapter.ts:350-354 | a run in which an asset reads active on a receipt without a status alone |
| Confirmer.RunBacked | apps/api/src/shared/ledger-confirmer.ts:29-80 | in every reachable state failed rows are backed by a revert, and confirmed ones by a receipt or by their submission |
| Confirmer.ActiveIff | apps/api/src/tokenization/asset-settlement.ts:23-31 | active exactly when every row is confirmed and the asset is not marked failed; pending exactly when some row is open |
| Confirmer.ConcludeIff | apps/api/src/shared/ledger-confirmer.ts:51-79 | only a receipt closes a row, as failed exactly on status 0; silence leads to a later poll |
| Confirmer.ClosedChangesIff | apps/api/src/persistence/memory/shared.ts:710-724 | exactly which steps change the status of a closed row |
| Confirmer.ClosedForGoodIff | apps/api/src/shared/ledger-confirmer.ts:29-80 | over any run from any state, a closed row keeps its status exactly when none of those steps is taken |
| Confirmer.ClosedForGood | apps/api/src/shared/ledger-confirmer.ts:29-80 | and it does so where passes are timely and keep apart from recorders |
| Confirmer.SlowPassUnconfirms | apps/api/src/persistence/memory/shared.ts:710-724 | a pass held up beyond the limit turns another's confirmation into unknown |
| Confirmer.OvertakenRecorderIsUndone | apps/api/src/shared/ledger-confirmer.ts:51-79 | a pass without delay that polled before the recorder wrote takes the recorder's confirmation back |
| ConfirmerPass.Register.RecordSubmission | apps/api/src/shared/ledger-transactions.ts:34-74 | records once and touches nothing else; confirmed afterwards exactly when it was, or when it was pending or new and the submission is its own proof |
| ConfirmerPass.RecordingIsTwoSteps | apps/api/src/shared/ledger-transactions.ts:34-74 | recording is the recorder's two steps of the state machine with nothing in between |
| ConfirmerPass.RecordingTwice | apps/api/src/shared/ledger-transactions.ts:34-74 | recording the same submission again changes nothing |
| ConfirmerPass.Register.RunOnce | apps/api/src/shared/ledger-confirmer.ts:29-80 | reclaims, then claims, polls and concludes the due rows in order |
| ConfirmerPass.PassCloses | apps/api/src/shared/ledger-confirmer.ts:29-80 | a pass alone closes exactly the open rows of which a poll brings a receipt, and leaves no claim |
| ConfirmerPass.SilenceEndsInUnknown | apps/api/src/shared/ledger-confirmer.ts:58-79 | polling that brings nothing leaves a row pending, with waits of five seconds that double, until its polls are `maxAttempts`, and unknown from then on, polled hourly |
| ConfirmerPass.TakesBackAfterAMinute | apps/api/src/shared/ledger-confirmer.ts:18-36 | a pass takes back exactly the rows claimed more than 60000 ms before it |
| ConfirmerPass.PassIsRun | apps/api/src/shared/ledger-confirmer.ts:29-80 | a pass as written is a run of the state machine, so what holds of every interleaving holds of it |
| ProRata.SplitProRata | packages/core/src/tokenization/cashflows.ts:94-106 | the floored share of each positive holder that comes to something |
| ProRata.SplitWithinTotal | packages/core/src/tokenization/cashflows.ts:94-106 | shares are positive, go to holders only, add up to at most the total and fall short by less than one each |
| ProRata.SharesAreFloors | packages/core/src/tokenization/cashflows.ts:94-106 | each positive holder's share is the floor of its part of the total |
| ProRata.SharesNearTotal | apps/api/src/tokenization/investor.ts:56-72 | floored parts of a total over holdings that make up the supply lie within one each of the total |
| ProRata.DropPayerShare | apps/api/src/shared/executors.ts:78-81 | removes every spelling of the payer and nothing else |
| ProRata.DroppedIsThePayers | apps/api/src/shared/executors.ts:78-81 | what is dropped and what is kept add up to the split, and no spelling of the payer is kept |
| Cashflow.Settlement.Transfer | apps/api/src/persistence/memory/tokenization.ts:196-208 | moves covered cash, or nothing; answers well only if it moved and did not throw |
| Cashflow.Settlement.PayAll | apps/api/src/shared/executors.ts:260-263 | pays the plan up to the first payment that throws, and that one too if it throws after it was made |
| Cashflow.Settlement.RefundAll | apps/api/src/shared/executors.ts:276-278 | refunds always have the funds; what stays moved is exactly the payment made without acknowledgement and those whose refund had no effect |
| Cashflow.Settlement.BurnAll | apps/api/src/shared/executors.ts:264-271 | burns holdings whole, in turn, until one fails, and succeeds exactly if none does |
| Cashflow.Settlement.Settle | apps/api/src/shared/executors.ts:253-274 | how far the claimed execution gets for each pattern of calls that throw before or after taking effect: cash, units, maturity and status |
| Cashflow.Settlement.SettleOrRefund | apps/api/src/shared/executors.ts:251-281 | settled in full, or refunded and released as far as the calls allow |
| Cashflow.Settlement.Execute | apps/api/src/shared/executors.ts:224-306 | the answer and the whole new state for each pattern of failures: nothing happened; or each holder gained its share, the payer lost their sum and the cashflow is executed; or it was interrupted, units are untouched or burned whole, cash is off by exactly the payments made without acknowledgement or not refunded, and the claim is released unless that had no effect or the mark had one |
| Cashflow.SucceedsIff | apps/api/src/shared/executors.ts:224-306 | an execution succeeds exactly if there is somebody to pay, the funds cover it, the cashflow was scheduled, a redemption has no open listings and every call works; a refusal names what is the case |
| Cashflow.RetriableIff | apps/api/src/shared/executors.ts:274-281 | after an interruption it can be executed again exactly if the release had an effect and the mark had none |
| Cashflow.ReturnedIff | apps/api/src/shared/executors.ts:260-280 | nothing is lost exactly if no payment that is reached throws after it was made and no refund of one that worked is without effect |
| Cashflow.NetOfSplit | apps/api/src/shared/executors.ts:237-263 | the payments of a split, in any order, give each payee its share and cost the payer their sum |
| Cashflow.RetryPassesOverTheBurned | apps/api/src/shared/executors.ts:264-280 | after an interrupted redemption the burned holders have no share of the next attempt, and the others no less than before |
| CashflowSaga.CashAccounted | apps/api/src/shared/executors.ts:224-281 | in every interleaving of executions, calls that throw before or after taking effect, crashes and other movements, each account holds what it would have held plus what executions paid it and have not taken back |
| CashflowSaga.NeverOverdrawn | apps/api/src/persistence/memory/tokenization.ts:196-208 | in every interleaving no account is overdrawn |
| CashflowSaga.AllOrNothing | apps/api/src/shared/executors.ts:244-281 | no cashflow completes twice; once every execution has completed or been refunded in full, cash differs only by the full payouts of the completed ones |
| CashflowSaga.RunExclusive | apps/api/src/persistence/memory/tokenization.ts:228-246 | of all executions of a cashflow at most one is live or completed, matching its status |
| CashflowSaga.ReleaseFrees | apps/api/src/persistence/memory/tokenization.ts:228-246 | in every reachable state, releasing makes the cashflow claimable again exactly if it was not marked executed and the release has its effect |
| CashflowSaga.ExecutedIffMarked | apps/api/src/persistence/memory/tokenization.ts:228-246 | a cashflow is executed exactly when an execution marked it so, and that one completed unless its mark threw after taking effect |
| CashflowSaga.MarkedButRefunded | apps/api/src/shared/executors.ts:274-281 | and then it stays executed with everybody refunded |
| Investor.BalanceOfWallet | apps/api/src/tokenization/investor.ts:30-37 | the sum over every spelling of the wallet |
| Investor.WalletsAddUp | apps/api/src/tokenization/investor.ts:30-37 | grouping addresses into wallets keeps the sum |
| Investor.PricedByUnit | apps/api/src/tokenization/investor.ts:56-72 | with a unit price written in decimal, units are worth that much each, in its currency, whatever the supply |
| Investor.PricedByFace | apps/api/src/tokenization/investor.ts:56-72 | without one, units are worth their part of the face value, cut off towards zero, and nothing without supply |
| Investor.ValuesNearFace | apps/api/src/tokenization/investor.ts:56-72 | where supply is the sum and no wallet is overdrawn, the values add up to at most the face value and fall short by less than one for each holder |
| Investor.NeverOverstatesIff | apps/api/src/tokenization/investor.ts:56-72 | where supply is the sum, no face value is overstated exactly when nothing is valued or no wallet is overdrawn |
| Investor.FoldKeepsSum | apps/api/src/tokenization/holders.ts:56-112 | on every trail that names both sides of its movements, supply is the sum of the balances |
| AssetStreams.NeverOverdrawnIff | apps/api/src/tokenization/investor.ts:74-94 | a fungible stream never overdraws a wallet exactly when each of its debits was covered by the wallet's balance in that stream, debits to oneself aside |
| AssetStreams.ByAddress | apps/api/src/tokenization/investor.ts:30-37 | with no spellings folded together, that is: no address's balance is ever negative |
| AssetStreams.SharedStreamIsSoundIff | apps/api/src/shared/executors.ts:36-49 | for any live run of assets that share a contract, in each one's own stream supply is the sum of the balances, and the stream overdraws nobody exactly under that condition |
| AssetStreams.LiveTrailIsSound | apps/api/src/tokenization/ledger-replay.ts:162-182 | the combined trail of a live non-market run has that sum and no overdraft |
| AssetStreams.MarketTrailIsSoundIff | apps/api/src/tokenization/ledger-replay.ts:162-182 | the combined trail of a live market run has that sum, and no overdraft exactly when each account holds no less than nothing with what it has listed, and the escrow account all that is listed |
| Portfolio.WorthIsValue | apps/api/src/tokenization/investor.ts:74-94 | what a wallet's portfolio says an asset is worth is the value of its units by the fold |
| Portfolio.PortfoliosNeverOverstate | apps/api/src/tokenization/investor.ts:74-94 | the portfolios of distinct wallets put at most its face value on an asset whose trail overdraws no wallet, and all but less than one each if they are all its holders |
| Portfolio.LivePortfoliosNeverOverstate | apps/api/src/tokenization/investor.ts:74-94 | and so for the stream of any asset in a live run of assets that share a contract, if its debits were covered in it |
| Portfolio.SoleAssetNeverOverstated | apps/api/src/tokenization/investor.ts:74-94 | and for an asset alone on its contract, market calls included, under the condition on what is listed |
| Portfolio.SharedContractOverstates | apps/api/src/http/routes/tokenization.ts:1138-1213 | an accepted run off the market, with plain amounts, that mints under one asset and transfers under another, after which two portfolios show twice the face value |
| Portfolio.OverdraftOverstates | apps/api/src/tokenization/investor.ts:56-94 | the trail of an accepted live run that overdraws a wallet, on which two portfolios show twice the face value |
| Portfolio.ComputePortfolio | apps/api/src/tokenization/investor.ts:74-94 | the holdings of the assets in which the wallet has units, and totals that are by currency the sums of what those are worth |
| KeyCache.VerifiedCache.Cached | apps/api/src/shared/api-keys.ts:144-159 | a hit is a fresh entry for this key, hash and fingerprint, and extends it; an expired entry is dropped |
| KeyCache.VerifiedCache.RememberVerification | apps/api/src/shared/api-keys.ts:162-172 | at the cap the oldest entry goes; the new one is fresh for one lifetime |
| KeyCache.VerifiedCache.Invalidate | apps/api/src/shared/api-keys.ts:175-177 | the entry is gone, the others stay in order |
| KeyCache.HitMatches | apps/api/src/shared/api-keys.ts:71-103 | in a sound cache a hit implies that this secret passes the slow check against this hash |
| KeyCache.RememberKeeps | apps/api/src/shared/api-keys.ts:162-172 | recording a verified secret keeps the cache sound and within its cap |
| KeyCache.HitForAMinute | apps/api/src/shared/api-keys.ts:144-177 | a secret verified or hit is a hit for exactly 60000 ms more, under the same key and hash and no other; after an invalidation none is |
| Principal.Authenticator.MayHash | apps/api/src/http/support.ts:252-257 | a hash is allowed exactly when the prefix is not refused (`RefusedIff` says when), and then its time is noted |
| Principal.Authenticator.SlowCheck | apps/api/src/http/support.ts:252-267 | within that budget: passes exactly for a matching secret, which is remembered and clears the counters; a failure is counted, a refusal leaves no trace |
| Principal.Authenticator.CheckSecret | apps/api/src/http/support.ts:242-268 | the cache, and the slow check for what it does not answer |
| Principal.Authenticator.RequirePrincipal | apps/api/src/http/support.ts:222-293 | the outcome and the new state of cache and counters for one request |
| Principal.CacheAgreesWithSlowCheck | apps/api/src/http/support.ts:242-268 | after any requests and invalidations a request verifies exactly when its row is live, its secret passes the slow check against the row's present hash, and it is not refused over budget |
| Principal.CacheStaysSound | apps/api/src/shared/api-keys.ts:144-177 | every reachable cache is sound and within its cap |
| Principal.CachedWasVerified | apps/api/src/shared/api-keys.ts:144-177 | after any requests, what the cache answers was verified less than a minute before, for the same secret, key and hash, with nothing invalidated on its prefix since |
| Principal.VerifiedIsCached | apps/api/src/shared/api-keys.ts:144-172 | and for that minute it is answered from the cache, whatever has been spent |
| Principal.OthersLeaveEntry | apps/api/src/shared/api-keys.ts:162-172 | requests on other prefixes leave an entry alone, but for one that takes the place of the oldest of a thousand |
| Principal.RefusedIff | apps/api/src/http/support.ts:190-194 | over any run under a clock that does not run back, a request is refused unhashed exactly when the cache does not answer it, `failedMax` wrong secrets were hashed on its prefix since its last verification in a minute that is not over, and the last hash is less than the reserve ago |
| Principal.LimitedIff | apps/api/src/http/support.ts:279-287 | a verified request is limited exactly when `rateMax` of its key's requests verified in the minute that is not over |
| Principal.RightSecretIsServed | apps/api/src/http/support.ts:222-293 | with fewer wrong secrets on its prefix than `failedMax` and fewer verified requests than `rateMax` in the last minute, a live key's right secret is served |
| Principal.ReserveAlwaysOpens | apps/api/src/http/support.ts:243-257 | once the reserve interval has passed since the last hash, no attempt is refused unhashed |
| Principal.NoKeyOverserved | apps/api/src/http/support.ts:177-187 | however requests mix, no key is served more than twice its allowance in any span of one window |
| Principal.NoPrefixOverworked | apps/api/src/http/support.ts:243-284 | from a clean start and without its secret, a prefix costs at most its allowance of hashes and one for each reserve interval, within a failure window and before its reset |
| Principal.SuccessCleans | apps/api/src/http/support.ts:263-267 | a verification gives its prefix a clean start |
| Budgets.RateBound | apps/api/src/http/support.ts:177-187 | the fixed-window bound for one counter |
| Budgets.WorkBound | apps/api/src/http/support.ts:190-194 | the failure bound for one counter |
| Credentials.Desk.IssueCredentialFor | apps/api/src/identity/credential-issuance.ts:48-88 | anchored before stored, in every state a failure could leave |
| Credentials.Desk.RevokeCredentialById | apps/api/src/identity/credential-issuance.ts:126-139 | revoked on chain before in the row, in every state a failure could leave |
| Credentials.Desk.OnboardSingle | apps/api/src/shared/user-kinds.ts:99-224 | what each pattern of failures leaves, with every state on the way behind the chain |
| Credentials.Desk.OnboardBatch | apps/api/src/shared/user-kinds.ts:249-276 | each row as if alone after those before it, whatever failed among them |
| Credentials.Desk.RevokeUserIdentity | apps/api/src/shared/user-kinds.ts:283-315 | the user's row changes only after everything held is revoked, on chain and in its row; it succeeds exactly if every revocation, the row's update and the audit entry do |
| Credentials.FailedOnboardingLeaves | apps/api/src/shared/user-kinds.ts:208-223 | exactly when a failed onboarding leaves its user row, and exactly when it leaves a credential that is not revoked |
| Credentials.OrphanedCredential | apps/api/src/shared/user-kinds.ts:208-223 | an onboarding that leaves no user and a credential still valid |
| Credentials.RollbackIsClean | apps/api/src/shared/user-kinds.ts:208-223 | where no creating call throws after taking effect and the compensations work, nothing of the run is left alive and nothing else has changed |
| Credentials.FailedOnboardingAudit | apps/api/src/shared/user-kinds.ts:201-223 | a failed onboarding is in the audit only if appending to it was all that failed, and it threw after it had |
| Credentials.RolledBackOnChain | apps/api/src/shared/user-kinds.ts:215-222 | a credential that the rollback revoked is revoked on chain too, where there is a registry |
| Credentials.OnboardsIff | apps/api/src/shared/user-kinds.ts:99-224 | onboarding succeeds exactly if the address is free and every call it makes works |
| Credentials.SuccessLeaves | apps/api/src/shared/user-kinds.ts:99-224 | a successful onboarding leaves a user of that address, its DID supplied or minted (or none where identifiers are plain), approved exactly if a DID was supplied or KYC asked for; with KYC it names its credential, held by that DID, not revoked, and anchored where there is a registry; one audit entry is added |
| Credentials.OnboardIsLocal | apps/api/src/shared/user-kinds.ts:99-224 | onboarding touches no other user and no other credential |
| Credentials.EmailsStayUnique | apps/api/src/shared/user-kinds.ts:99-101 | one at a time, onboardings never give one address to two users |
| UrlGuard.IPv6ToBytes | apps/api/src/webhooks/url-guard.ts:55-88 | the loops over the byte buffer compute the parse |
| UrlGuard.Put | apps/api/src/webhooks/url-guard.ts:75-84 | writes a run of groups in place, and fails exactly if one is not a group |
| UrlGuard.ParsesEveryForm | apps/api/src/webhooks/url-guard.ts:55-88 | every legal text form of an address (section 2.2 of RFC 4291) parses to the bytes it denotes |
| UrlGuard.ParsedIff | apps/api/src/webhooks/url-guard.ts:55-88 | and without a dotted tail nothing else: text parses exactly if it is groups of hexadecimal digits with at most one `::`, eight of them or fewer for it to stand for |
| UrlGuard.DottedTailIff | apps/api/src/webhooks/url-guard.ts:60-65 | a dotted tail in decimal is taken exactly if it has four parts of at most 255 each |
| UrlGuard.SpellingDoesNotMatter | apps/api/src/webhooks/url-guard.ts:43-54 | the verdict on any spelling is the verdict on the bytes |
| UrlGuard.WrappedIsEmbedded | apps/api/src/webhooks/url-guard.ts:101-108 | a mapped or translated address gets the verdict of the IPv4 address in it |
| UrlGuard.BlockedReason | apps/api/src/webhooks/url-guard.ts:91-122 | ends on embedded addresses too; on any dotted quad or legal form it answers nothing exactly when the address lies in no listed block, and loopback exactly when it is this machine's |
| UrlGuard.V4ByTable | apps/api/src/webhooks/url-guard.ts:111-120 | for every four octets, the reason is that of the block of the table, given by first address and prefix length, in which the 32-bit address lies |
| UrlGuard.VerdictByTable | apps/api/src/webhooks/url-guard.ts:91-110 | for every sixteen octets, refused exactly when the 128-bit address is in `::`, `::1`, fc00::/7, fe80::/10 or ff00::/8, or wraps a listed IPv4 address |
| UrlGuard.CheckUrl | apps/api/src/webhooks/url-guard.ts:124-173 | accepts exactly http or https URLs without credentials whose every address is outside the tables or a permitted loopback, and http only where every address is a permitted loopback; each other answer exactly in its case |
| PersonaEdges.MatchesIff | scripts/gen-persona-edges.ts:65-71 | a pattern matches a url exactly when its tokens fit the url's segments |
| PersonaEdges.InsideIsUnder | scripts/gen-persona-edges.ts:65-71 | containment of everything matched forces the segment-wise relation |
| PersonaEdges.NarrowerFirstIff | scripts/gen-persona-edges.ts:77-93 | the order puts a rule before one that strictly contains it exactly when it is not that one with an empty tail |
| PersonaEdges.SortEmits | scripts/gen-persona-edges.ts:77-93 | a stable sort by that order gives the same rules in order |
| PersonaEdges.EdgeDecision | scripts/gen-persona-edges.ts:113-119 | the first matching rule decides, by its method list; without one the answer is no |
| PersonaEdges.NoNarrowRuleShadowed | scripts/gen-persona-edges.ts:73-93 | without such a pair, the deciding rule never strictly contains another rule that matches |
| PersonaEdges.EmptyTailShadows | scripts/gen-persona-edges.ts:73-93 | with one, the sort may let the wider rule decide all that the narrower matches |
| PersonaEdges.EmptyTailEndsInSlash | scripts/gen-persona-edges.ts:60-93 | only a prefix that ends in a slash has an empty tail |
| PersonaEdges.EmptySegmentIsShadowed | scripts/gen-persona-edges.ts:60-93 | two rules of which the narrower comes second |
| PersonaEdges.EdgeExceedsIff | packages/core/src/shared/personas.ts:403-437 | what the edge lets through is a preflight or lent by a rule, and no such rule matches the url exactly when each is an exact twin of the deciding one and the url goes on below it |
| PersonaEdges.ExactTwinLeaks | scripts/gen-persona-edges.ts:94-110 | an exact twin does lend its methods to the paths below it |
| Disclosure.ResolveDisclosures | apps/api/src/identity/selective-disclosure.ts:108-146 | every credential resolved in order, or the first error |
| Disclosure.ResolveOne | apps/api/src/identity/selective-disclosure.ts:117-142 | every field resolved in order, or the first error |
| Disclosure.EvaluatePredicate | apps/api/src/identity/selective-disclosure.ts:46-63 | the comparison its operator names |
| Disclosure.OperatorsByDifference | apps/api/src/identity/selective-disclosure.ts:46-63 | each operator's answer by whether the value is above, at or below the threshold |
| Disclosure.RedactClaims | apps/api/src/identity/selective-disclosure.ts:154-164 | one entry for each resolved field; the claims in full if nothing was resolved |
| Disclosure.AgreementDecides | apps/api/src/identity/selective-disclosure.ts:108-146 | claims that agree on shared values and predicate outcomes resolve alike, errors included |
| Disclosure.ViewsEqualIffAgree | apps/api/src/identity/selective-disclosure.ts:154-164 | and two views are equal only then |
| Disclosure.EachByItself | apps/api/src/identity/selective-disclosure.ts:108-164 | a named credential's view depends on its own claims alone; one that is not named is shown in full |
| Disclosure.NonInterference | apps/api/src/identity/selective-disclosure.ts:108-164 | over whole requests, a named credential looks the same exactly when its claims agree on what was let out |

## Left out

Behaviour that is not modelled:

- The order in which a JavaScript Map yields its entries, except in the verified-prefix cache where eviction depends on it; loops over maps are proved for every order.
- Aliasing between an asset's maps and those passed to `hydrate`: an asset's state is a value here, held in a field that the methods reassign.
- The chaincode's byte encodings, its key strings (keys are kept in parts, so references containing a colon do not collide) and deploying over an existing contract.
- Whole runs in which records are lost: a trail has an entry for every accepted call, and what one lost record does is stated for one call.
- The tie order of audit entries with the same timestamp: a trail is a sequence.
- The texts of error messages, log lines, events and mails; the jitter's distribution; durations and response statuses.
- `Number` on text that is not plain digits, and the platform's `isIP`, DNS and URL parsing, which are parameters; where `CheckUrl` speaks of the tables, `isIP` is taken to know nothing but dotted quads and legal forms of IPv6 addresses.
- Cryptography: bcrypt and SHA-256 are function parameters, the latter assumed injective where a theorem says so.
- The interleaving of one process's requests at the slow check's await: authentication is modelled one request at a time.
- Rounding of fractional face values, which reach the model as the integer they round to, and not-a-number claims, for which comparison over the reals has no counterpart.
- Regular expressions as text: a rule's pattern is modelled by the set of urls it matches, over parameters and literal segments; the catalogue of rules itself, and whether the edge grants everything the catalogue does.
- `computeActivity`, holder counts, first acquisition dates and `validateRequestedFields`: they would add only easier members.
- The timers `startDispatcher` and `startConfirmer`: a worker's passes are taken not to overlap, and a confirmer's overlapping passes are separate workers.
- Accounts created during onboarding, password-reset tokens, and anchors left on chain by a failed issuance, which the code does not take back.
- The approval route and the policy checks of the lifecycle engine before it calls the ledger.
- Real chain adapters, the Prisma repositories, HTTP routes and the console.
