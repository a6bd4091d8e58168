# Verified core of the Orbiter bridge services

A Dafny model of the parts of the Orbiter client monorepo that move or interpret amounts, with proofs of what they keep.

- **Inscription ledger** (`Ledger*.dfy`, `JsNumber.dfy`, `MapSums.dfy`): deploy, claim, mint, cross, crossover and transfer over the tables, the cross cache, and one bookkeeper per chain. `Ledger` is a state machine whose events are the pieces of the handlers between two points where others may run; `LedgerService` is the class those pieces come from, proved to do exactly that; `LedgerInvariants`, `LedgerConservation` and `LedgerSupply` prove what every run keeps, `LedgerEffects` and `LedgerAccounts` who is paid and what every balance is made of, `LedgerMint` what a mint does to cross rows; `LedgerExample` holds two runs from the empty database.
- **Block crawler** (`Crawl*.dfy`, `JsSet.dfy`): pending set, processing set, LevelDB keys and mark file, with crashes between any two writes; `CrawlSafety` proves that blocks are kept, `CrawlEffects` that they are taken up and worked off.
- **Amount codes** (`Codec*.dfy`, `SecurityCode.dfy`, `Decimals.dfy`, `Arithmetic.dfy`): routing codes and nonces in the digits of an amount.
- **Fees and payouts** (`Fees.dfy`, `Payout.dfy`) and the **dealer protocol** (`Dealer.dfy`).
- **Starknet calldata** (`Starknet.dfy`, `StarknetCalls.dfy`), the **matching caches** (`MatchingCache.dfy`), and **version 1 settlement** (`Settlement*.dfy`; what a row and its payment have in common is in `SettlementMatches`).

A committed database transaction is one step. What the environment decides (configuration, clocks, which row a query returns, whether a request, statement or commit fails, when the process restarts) is a parameter of an event, and properties hold for every sequence of events.

`dafny verify dfyconfig.toml` checks the whole project.

## Where the code does not do what one would expect

Each of these has a lemma with the input or the run, and one with the exact condition.

- A crossover's protocol is not compared with its row's, so amounts can move from one protocol to another (`ProtocolNotCompared`; exactly then: `AssetBooksIff`).
- A mint's database search has no version filter and takes cross rows (`MintTakesCross`). A row it takes is closed without a credit, and never paid out exactly when no bookkeeper has found it before and has still to commit (`MintStrands`, `NeverPaidIff`); nothing else but its credit closes an owed row (`OwedIff`).
- The claim limit is compared as doubles, so from 2^53 on an amount above the limit can pass (`GreaterExactBelowPrecision`, `GreaterExactIff`).
- A mark of 0 is taken for a first start: on a chain younger than a batch blocks can be skipped (`YoungChainSkips`, `CoveredIff`); on any other none are (`NoBlockLostFar`).
- A request rejected with an empty object or array counts as success, and its block is dropped (`SilentFailureLoses`, `AckedIff`).
- On bit-limited chains embedding a code can move the place where it is looked for (`LimitedRoundTripFails`, `LimitedRoundTripIff`). Codes of one repeated digit can come back even then.
- Source ids 901 to 909 and multiples of a hundred are never read back, and the padding loop pads short codes to three digits (`SourceIdIff`, `PadToFour`).
- A listed rule only needs a withholding fee ending in 0000, which protects four digits of the five-digit dealer code (`LastFourIff`, `DealerCodeIff`).
- The search of a payment's second transaction takes no lock: a settled row keeps its payment exactly if no handler in progress had found it for another (`StaleSaveOvertakes`; exactly then: `FinalIff`, `SettledForEverIff`).
- On a bit-limited chain digits can follow the dealer code, which is read at the very end (`MovedCodeLost`, `MovedCodeIff`).
- The maker's client writes payments to the rows it pays, and the memory match does not look at them: two settled rows can name one payment (`LookalikesShareOnePayment`; exactly then: `NamedOnceIff`, `OneToOneIff`).
- The handler of a maker's payment reopens a settled row exactly for a payment of status 3; only its callers rule that out (`CrashedPaymentReopens`).
- A debit of a negative amount starts with two minus signs, which SQL reads as a comment: the checks let it pass, the statement fails and nothing moves (`NegativePasses`, `DebitIff`).

## Model

| member | source | states |
|---|---|---|
| LedgerConservation.Conservation | apps/explore-DataRefinery/src/transaction/transactionV3.service.ts:351-426 | after every run, over every interleaving of claims, bookkeepers, rollbacks and restarts, user balances plus uncredited cross amounts equal the minted amounts |
| LedgerConservation.AssetBooksIff | apps/explore-DataRefinery/src/transaction/transactionV3.service.ts:1009-1299 | an event leaves the books of every single protocol and tick as they were if and only if it is not a credit whose protocol or tick differs from its row's |
| LedgerConservation.AssetConservation | apps/explore-DataRefinery/src/transaction/transactionV3.service.ts:1083-1299 | as long as every credit of a run names its row's protocol and exact tick, each protocol and tick is conserved on its own |
| LedgerConservation.NextDrift | apps/explore-DataRefinery/src/transaction/transactionV3.service.ts:803-841 | the exact change of held plus in-flight minus minted that any event makes, for the whole ledger or one asset: none but a misdirected credit's amount |
| LedgerAccounts.BalanceIsStatement | apps/explore-DataRefinery/src/transaction/transactionV3.service.ts:803-841 | after every run the balance of every account is the sum of its entries: claim rows, cross rows, credits and matched transfers, read off transfers, rows, credits and statuses without reading a balance |
| LedgerAccounts.EntryIsChange | apps/explore-DataRefinery/src/transaction/transactionV3.service.ts:803-841 | one event changes the balance of an account by exactly what it enters for it |
| LedgerAccounts.OnlyOwnerSpends | apps/explore-DataRefinery/src/transaction/transactionV3.service.ts:955-969 | a balance falls only by a cross or a transfer sent from its own address, on its chain and in its asset |
| LedgerEffects.CreditReachesReceiver | apps/explore-DataRefinery/src/transaction/transactionV3.service.ts:1152-1158 | what a crossover pays goes to the address its cross named, else to the cross's sender, on the crossover's chain and under its protocol and tick, and is the cross's amount; every other entry keeps its value |
| LedgerEffects.MemoryPays | apps/explore-DataRefinery/src/transaction/transactionV3.service.ts:1093-1166 | a crossover matched in memory pays out if and only if its transaction does not fail, the row is unsettled and in its time window, and the source is open: row, both transfers and one balance change as written out; otherwise no table changes |
| LedgerEffects.SearchPays | apps/explore-DataRefinery/src/transaction/transactionV3.service.ts:1233-1299 | one that found its row in the database pays it out unless its transaction fails |
| LedgerEffects.MemoryFits | apps/explore-DataRefinery/src/transaction/inscription-cross-memory-matching.service.ts:48-74 | the stored row a crossover was matched with in memory names its receiver, chain, nonce and maker, its tick up to case and its amount up to rounding |
| LedgerEffects.SearchFits | apps/explore-DataRefinery/src/transaction/transactionV3.service.ts:1208-1232 | the row a crossover found in the database names all of that exactly |
| LedgerEffects.CrossOverAcceptedIff | apps/explore-DataRefinery/src/transaction/transactionV3.service.ts:1009-1091 | a crossover is matched if and only if its fields are there and its sender deployed its asset: with the first cached row, of the chain its fc names, that it resembles, and from the database if and only if there is none |
| LedgerEffects.SearchFindsIff | apps/explore-DataRefinery/src/transaction/transactionV3.service.ts:1199-1232 | the search returns a row that names the crossover if there is one, else an unsettled one without payment that asks for it, and moves on if and only if there is neither |
| LedgerEffects.TransferAcceptedIff | apps/explore-DataRefinery/src/transaction/transactionV3.service.ts:1300-1391 | a transfer is accepted if and only if it asks for what its sender has; it is then about to move that from its sender to the lower-cased address it names |
| LedgerEffects.TransferMoves | apps/explore-DataRefinery/src/transaction/transactionV3.service.ts:1392-1427 | whatever happened since its check, its amount leaves its sender and reaches that address on the same chain and in the same asset, and no other balance changes |
| LedgerEffects.CrossAcceptedIff | apps/explore-DataRefinery/src/transaction/inscription.builder.ts:252-344 | a cross is accepted if and only if amount, balance, fee, target chain and receiver are in order; its row says so |
| LedgerEffects.CrossTakes | apps/explore-DataRefinery/src/transaction/transactionV3.service.ts:945-1008 | the transaction of an accepted cross takes its amount from its sender and leaves its row, or, if it fails, leaves rows and balances alone; another row cannot be in the way |
| LedgerEffects.CrossCached | apps/explore-DataRefinery/src/transaction/transactionV3.service.ts:977-985 | a new row is cached when it is recent and its version and source are not there yet, even if its transaction then fails |
| LedgerEffects.CrossCodeFails | apps/explore-DataRefinery/src/transaction/inscription.builder.ts:252-344 | a rejected cross gets 42 without its fields, 44 without its deploy record, otherwise the status of a check it fails |
| LedgerEffects.ClaimBeginsIff | apps/explore-DataRefinery/src/transaction/transactionV3.service.ts:229-304 | a claim begins if and only if its fields are there and its asset was deployed to its receiver |
| LedgerEffects.ClaimGrantedIff | apps/explore-DataRefinery/src/transaction/inscription.builder.ts:162-249 | it goes on to its transaction if and only if cap, limit, amount, target chain and fee are in order; its row says so |
| LedgerEffects.ClaimCodeFails | apps/explore-DataRefinery/src/transaction/inscription.builder.ts:162-249 | the status of a rejected claim is that of a check it fails |
| LedgerEffects.ClaimGives | apps/explore-DataRefinery/src/transaction/transactionV3.service.ts:361-394 | its transaction leaves its row, credits its sender on the chain it asked for and counts the amount as minted, or changes none of the three, if it fails or a row has come in between |
| LedgerEffects.ClaimRewrites | apps/explore-DataRefinery/src/transaction/transactionV3.service.ts:354-360 | a claim that found its row writes it over, status and payment aside, and neither credits nor counts anything |
| LedgerEffects.ClaimMarks | apps/explore-DataRefinery/src/transaction/transactionV3.service.ts:405-418 | either way the claim's transfer is marked valid, unless it was so when delivered or the transaction wrote nothing |
| LedgerEffects.DeployIff | apps/explore-DataRefinery/src/transaction/transactionV3.service.ts:687-801 | a deploy leaves a record with its terms if and only if its fields are there, its receiver is a maker and its asset has none |
| LedgerEffects.RowSaysWhatWasAsked | apps/explore-DataRefinery/src/transaction/inscription.builder.ts:217-248 | in every reachable state a row says what its source transfer asks: amount, receiver, maker, another chain, a deployed asset |
| LedgerEffects.MintAcceptedIff | apps/explore-DataRefinery/src/transaction/transactionV3.service.ts:428-483 | a mint is looked up in the database if and only if its fields are there and its fc names a chain |
| LedgerEffects.MintSearchIff | apps/explore-DataRefinery/src/transaction/transactionV3.service.ts:592-626 | its search returns a row that names it if there is one, else one of any version that asks for it, and gives up if and only if there is neither |
| LedgerEffects.MintSettles | apps/explore-DataRefinery/src/transaction/transactionV3.service.ts:627-653 | its save gives that row its payment and closes both transfers, and nothing else |
| LedgerEffects.MintMemoryIff | apps/explore-DataRefinery/src/transaction/transactionV3.service.ts:484-591 | a mint the cache answers settles that row if and only if the transaction does not fail and its two row counts are right; otherwise it goes on to the database |
| LedgerEffects.LoadsIff | apps/explore-DataRefinery/src/transaction/transactionV3.service.ts:1451-1467 | a free bookkeeper takes up what its query returns, a busy one nothing |
| LedgerEffects.FreeStatuses | apps/explore-DataRefinery/src/transaction/transactionV3.service.ts:229-801 | the status that the checks of a claim's first part, a mint or a deploy give its transfer, in their order |
| LedgerEffects.KeptStatuses | apps/explore-DataRefinery/src/transaction/transactionV3.service.ts:1009-1391 | the status that the checks of a crossover or a transfer give it, in their order |
| LedgerExample.ProtocolNotCompared | apps/explore-DataRefinery/src/transaction/transactionV3.service.ts:1208-1232 | a run from the empty database, with deploys, a claim, a cross and a crossover, after which a row of one protocol has been paid out under another, whose users hold five units that were never minted |
| LedgerMint.OwedIff | apps/explore-DataRefinery/src/transaction/transactionV3.service.ts:592-653 | an uncredited cross row with an open source stops being so if and only if the event is its credit or a mint's save of it |
| LedgerMint.FindableIff | apps/explore-DataRefinery/src/transaction/transactionV3.service.ts:1208-1232 | such a row, unsettled and without a payment, can no longer be found in the database exactly then, or when the maker's client writes a payment to it |
| LedgerMint.FindableMeans | apps/explore-DataRefinery/src/transaction/transactionV3.service.ts:1208-1232 | an owed row is unsettled and without a payment if and only if some crossover satisfies the query's conditions for it |
| LedgerMint.NeverPaidIff | apps/explore-DataRefinery/src/transaction/transactionV3.service.ts:1200-1268 | a cross row that was closed without a credit is credited in no run that follows, if and only if no bookkeeper had found it before and has still to commit |
| LedgerMint.MintStrands | apps/explore-DataRefinery/src/transaction/transactionV3.service.ts:594-653 | a mint that takes an owed cross row closes it without a credit, for good exactly when no bookkeeper has found it before |
| LedgerMint.MintCreditsNobody | apps/explore-DataRefinery/src/transaction/transactionV3.service.ts:428-680 | no piece of a mint, whichever row it settles, changes a balance, a credit or an amount in flight |
| LedgerExample.MintTakesCross | apps/explore-DataRefinery/src/transaction/transactionV3.service.ts:603-620 | the search of a mint has no version filter: a run from the empty database in which a mint takes an owed cross row, which is then credited in no run that goes on |
| LedgerInvariants.NoNegativeBalance | apps/explore-DataRefinery/src/transaction/transactionV3.service.ts:1362-1427 | no run makes a balance negative, although each debit is decided on a balance read before its transaction |
| LedgerInvariants.CreditedAtMostOnce | apps/explore-DataRefinery/src/transaction/transactionV3.service.ts:1083-1299 | no run credits a row twice, nor anything but a cross row of the database, whatever stale or rolled-back rows the cache holds; a credited row has a target and its source is closed |
| LedgerInvariants.NextKeeps | apps/explore-DataRefinery/src/transaction/transactionV3.service.ts:1433-1480 | every event keeps the invariant: rows agree with their source transfer, one row per source, cached and half-processed rows agree with the stored one, funds checked for a debit are still there, no balance is negative |
| LedgerInvariants.RunKeeps | apps/explore-DataRefinery/src/transaction/transactionV3.service.ts:1433-1480 | the invariant holds in every reachable state |
| LedgerInvariants.MovedBalances | apps/explore-DataRefinery/src/transaction/transactionV3.service.ts:1392-1415 | moving an amount that is there leaves balances non-negative and no other chain's bookkeeper short of the funds it checked |
| LedgerInvariants.MemoryCreditable | apps/explore-DataRefinery/src/transaction/transactionV3.service.ts:1093-1151 | the two row-count guards let a cached row through only if the database has it as a cross row of this chain and it is not credited |
| LedgerInvariants.DebitIff | apps/explore-DataRefinery/src/transaction/transactionV3.service.ts:1392-1427 | a checked transfer whose transaction does not fail otherwise is matched if and only if its amount is a number that is not negative; if not, nothing is written and it waits to be loaded again |
| LedgerInvariants.NegativePasses | apps/explore-DataRefinery/src/transaction/transactionV3.service.ts:1349-1415 | the checks let any negative amount through to the debit, whose statement is then refused |
| LedgerInvariants.FoundCreditable | apps/explore-DataRefinery/src/transaction/transactionV3.service.ts:1200-1232 | a row found by the database search is uncredited and pays out on the searching chain until its finder commits |
| LedgerSupply.ClaimsCountOnce | apps/explore-DataRefinery/src/transaction/transactionV3.service.ts:305-394 | however often and concurrently a claim is delivered, currentMintedTx is the number of claim rows, currentMintedAmount the sum of their amounts, and no transfer has two rows |
| LedgerSupply.SupplyBound | apps/explore-DataRefinery/src/transaction/inscription.builder.ts:199-216 | with at most k claims of an asset past the read of its deploy record at once, minted plus still expected amounts stay at most max - 1 + k times the largest amount the limit lets through |
| LedgerSupply.SerialSupplyBound | apps/explore-DataRefinery/src/transaction/inscription.builder.ts:199-216 | claims handled one at a time overshoot max by less than one limit, for limits that doubles compare exactly |
| JsNumber.GreaterExactIff | apps/explore-DataRefinery/src/transaction/inscription.builder.ts:214 | comparing amounts as doubles agrees with comparing the integers for every amount if and only if the limit and its successor are different doubles |
| JsNumber.GreaterExactBelowPrecision | apps/explore-DataRefinery/src/transaction/inscription.builder.ts:214 | limits below 2^53 are compared exactly, and 2^53 is the first that is not |
| JsNumber.RoundMonotone | apps/explore-DataRefinery/src/transaction/inscription.builder.ts:214 | rounding integers to doubles, ties to even, never swaps two of them |
| LedgerService.BuildClaim | apps/explore-DataRefinery/src/transaction/inscription.builder.ts:162-249 | the checks in their order: nonce, source chain, cap, target chain, other chain, limit, integer, fee; the row built or the first error |
| LedgerService.TransactionV3Service.HandleDeployTransfer | apps/explore-DataRefinery/src/transaction/transactionV3.service.ts:687-801 | exactly the deploy event: one record per protocol and tick, or the status of the first failed check |
| LedgerService.TransactionV3Service.StartClaimTransfer | apps/explore-DataRefinery/src/transaction/transactionV3.service.ts:229-304 | exactly the claim's first part: the deploy record read, or the status written |
| LedgerService.TransactionV3Service.BuildClaimRow | apps/explore-DataRefinery/src/transaction/transactionV3.service.ts:305-350 | exactly the claim's second part: give up on a row of status 90 or more, reject with the builder's code, or hold the row to write |
| LedgerService.TransactionV3Service.InsertClaim | apps/explore-DataRefinery/src/transaction/transactionV3.service.ts:361-394 | row, minted amount and count, and balance are written together or not at all; an id is used up either way |
| LedgerService.TransactionV3Service.CommitClaim | apps/explore-DataRefinery/src/transaction/transactionV3.service.ts:351-426 | exactly the claim's transaction, with rollback and the unique index on source and chain |
| LedgerService.TransactionV3Service.BuildCrossRow | apps/explore-DataRefinery/src/transaction/inscription.builder.ts:252-344 | the checks of a cross in their order, with the balance read now; the row built or the first error |
| LedgerService.TransactionV3Service.CheckCrossTransfer | apps/explore-DataRefinery/src/transaction/transactionV3.service.ts:842-944 | exactly the cross's checks |
| LedgerService.TransactionV3Service.InsertCross | apps/explore-DataRefinery/src/transaction/transactionV3.service.ts:955-985 | row and debit together or not at all; the cache, written after them, keeps the row even if the transaction is rolled back |
| LedgerService.TransactionV3Service.CommitCross | apps/explore-DataRefinery/src/transaction/transactionV3.service.ts:945-1008 | exactly the cross's transaction; a failure ends the whole pass |
| LedgerService.TransactionV3Service.AddBridgeTransaction | apps/explore-DataRefinery/src/transaction/inscription-cross-memory-matching.service.ts:99-126 | a row enters the cache unless it is too old or its version and source are there already |
| LedgerService.TransactionV3Service.MatchCache | apps/explore-DataRefinery/src/transaction/inscription-cross-memory-matching.service.ts:48-74 | the first cached row that fits |
| Ledger.FindCached | apps/explore-DataRefinery/src/transaction/inscription-cross-memory-matching.service.ts:48-74 | a row returned is cached and fits; none returned means none fits |
| LedgerService.TransactionV3Service.MatchCrossOverTransfer | apps/explore-DataRefinery/src/transaction/transactionV3.service.ts:1009-1091 | exactly the crossover's checks and its choice between memory and database |
| LedgerService.TransactionV3Service.PayOut | apps/explore-DataRefinery/src/transaction/transactionV3.service.ts:1234-1268 | row settled, both transfers closed and the receiver credited under the crossover's protocol and tick |
| LedgerService.TransactionV3Service.CommitMemoryMatch | apps/explore-DataRefinery/src/transaction/transactionV3.service.ts:1092-1190 | exactly the memory transaction: committed only if one row and two transfers change, else on to the database |
| LedgerService.TransactionV3Service.CommitDbMatch | apps/explore-DataRefinery/src/transaction/transactionV3.service.ts:1198-1299 | exactly the second transaction: a row found by target is loaded without address and amount, so its credit fails and the pass ends |
| LedgerService.TransactionV3Service.SearchDbMatch | apps/explore-DataRefinery/src/transaction/transactionV3.service.ts:1199-1232 | exactly the search of the second transaction: by target, and only if that finds nothing by the conditions of the crossover |
| LedgerService.TransactionV3Service.HandleMintTransfer | apps/explore-DataRefinery/src/transaction/transactionV3.service.ts:428-591 | exactly the mint's checks and memory transaction: committed only if one row and two transfers change, else on to the database |
| LedgerService.TransactionV3Service.SearchMint | apps/explore-DataRefinery/src/transaction/transactionV3.service.ts:592-626 | exactly the search of the mint's second transaction: by target, and only if that finds nothing by the conditions, whatever the row's version |
| LedgerService.TransactionV3Service.CommitMint | apps/explore-DataRefinery/src/transaction/transactionV3.service.ts:627-684 | exactly its save, by the row's id alone, or its rollback |
| LedgerService.TransactionV3Service.Resume | apps/explore-DataRefinery/src/transaction/transactionV3.service.ts:428-1480 | the event loop: whichever piece of a handler is next, the tables take exactly the step of the state machine and keep the invariant of LedgerInvariants |
| LedgerService.TransactionV3Service.CheckTransferTransfer | apps/explore-DataRefinery/src/transaction/transactionV3.service.ts:1300-1391 | exactly the transfer's checks |
| LedgerService.TransactionV3Service.CommitTransfer | apps/explore-DataRefinery/src/transaction/transactionV3.service.ts:1392-1430 | exactly the transfer's transaction; a negative or non-finite amount makes its statement invalid, and failures are swallowed |
| LedgerService.TransactionV3Service.LoadTransfers | apps/explore-DataRefinery/src/transaction/transactionV3.service.ts:1451-1467 | a free bookkeeper takes up to a thousand waiting transfers of its chain |
| LedgerService.TransactionV3Service.IncUserBalance | apps/explore-DataRefinery/src/transaction/transactionV3.service.ts:803-841 | the balance grows by the value, from zero if there was none |
| LedgerService.TransactionV3Service.IncMintedAmount | apps/explore-DataRefinery/src/transaction/transactionV3.service.ts:373-387 | minted amount and count of the asset grow together |
| LedgerService.TransactionV3Service.CloseTransfers | apps/explore-DataRefinery/src/transaction/transactionV3.service.ts:1248-1261 | both transfers go to 99 if they are at 0 or 1 |
| LedgerService.TransactionV3Service.SettleRow | apps/explore-DataRefinery/src/transaction/transactionV3.service.ts:1234-1247 | the row gets the target and 99, or 97 for a failed transfer |
| CrawlSafety.NoBlockLost | apps/explore-DataCrawler/src/utils/dataProcessor.ts:54-63 | with crashes between any two writes and restarts that lower the mark, every block from the first start up to the highest mark ever written is in LevelDB or was acknowledged |
| CrawlSafety.NoBlockLostFar | apps/explore-DataCrawler/src/rpc-scanning/rpc-scanning.service.ts:110-139 | if the height is above the batch limit whenever one is read, no run loses a block: a condition on the answers of the node alone |
| CrawlEffects.ScanTakesFirst | apps/explore-DataCrawler/src/rpc-scanning/rpc-scanning.service.ts:48-56 | in every reachable state a waiting crawler scans if and only if some block is idle, and takes the first idle blocks of the queue, in order, as many as fit |
| CrawlEffects.NextBatchIsFirst | apps/explore-DataCrawler/src/utils/dataProcessor.ts:102-114 | the batch holds idle blocks only, each once, in the order of the queue, none passed over, the batch size of them or all |
| CrawlEffects.RoundSettles | apps/explore-DataCrawler/src/rpc-scanning/rpc-scanning.service.ts:68-104 | a batch all of whose blocks are stored leaves memory and LevelDB as a whole, and nothing else does |
| CrawlEffects.QueueDrains | apps/explore-DataCrawler/src/rpc-scanning/rpc-scanning.service.ts:48-108 | from every reachable state a restart and one scan of the whole queue that goes well leave memory and LevelDB empty and every block stored |
| CrawlEffects.EndFreesRest | apps/explore-DataCrawler/src/rpc-scanning/rpc-scanning.service.ts:95-100 | a scan that ends leaves the blocks it could not handle queued and free to be taken again, and goes on to acknowledge the others |
| CrawlEffects.BreaksIff | apps/explore-DataCrawler/src/rpc-scanning/rpc-scanning.service.ts:76-94 | a scan breaks if and only if reading the transfers of a block that was fetched fails with null or undefined |
| CrawlEffects.BreakFreesBatch | apps/explore-DataCrawler/src/rpc-scanning/rpc-scanning.service.ts:91-94 | then every block of the batch is queued and free again, whatever the others met |
| CrawlEffects.CheckQueues | apps/explore-DataCrawler/src/rpc-scanning/rpc-scanning.service.ts:110-139 | a check queues every block from the mark, or after a start from 100 before it, up to the newest confirmed, and nothing else |
| CrawlEffects.NextRangeFollows | apps/explore-DataCrawler/src/utils/dataProcessor.ts:54-63 | once a range is written the next begins with the block after it |
| CrawlEffects.RestartGoesBack | apps/explore-DataCrawler/src/rpc-scanning/rpc-scanning.service.ts:125-129 | after a restart the last hundred blocks before the mark are queued once more |
| CrawlEffects.EmptyAnswerGoesBack | apps/explore-DataCrawler/src/rpc-scanning/rpc-scanning.service.ts:110-129 | so are they after an empty answer for the height, which leaves everything else as it is |
| CrawlEffects.FirstCheckQueues | apps/explore-DataCrawler/src/rpc-scanning/rpc-scanning.service.ts:118-129 | the first check of all queues the batch limit and a hundred blocks more, on a chain that has them |
| CrawlSafety.CoveredIff | apps/explore-DataCrawler/src/rpc-scanning/rpc-scanning.service.ts:118-139 | one event leaves no block behind if and only if it is not a fresh start, from a mark of 0, that skips a block neither queued nor done |
| CrawlSafety.YoungChainSkips | apps/explore-DataCrawler/src/rpc-scanning/rpc-scanning.service.ts:118-123 | a concrete run on a young chain whose mark becomes 0 and loses blocks |
| CrawlSafety.EveryBlockStored | apps/explore-DataCrawler/src/rpc-scanning/rpc-scanning.service.ts:48-108 | when no request fails with a truthy empty value, every such block is still queued or its transfers were stored |
| CrawlSafety.AckedIff | apps/explore-DataCrawler/src/rpc-scanning/rpc-scanning.service.ts:76-93 | a block is acknowledged if and only if its transfers were stored, or its request failed with a truthy empty value |
| CrawlSafety.WrittenOffIff | apps/explore-DataCrawler/src/rpc-scanning/rpc-scanning.service.ts:209-219 | exactly which scan makes a block acknowledged without its transfers stored |
| CrawlSafety.SilentFailureLoses | apps/explore-DataCrawler/src/rpc-scanning/rpc-scanning.service.ts:76-104 | such a scan takes the block out of LevelDB although nothing of it was stored |
| CrawlSafety.MemoryFollowsStore | apps/explore-DataCrawler/src/utils/dataProcessor.ts:117-161 | memory and LevelDB differ only by blocks done, being written, or refused by LevelDB |
| CrawlSafety.NeverStuck | apps/explore-DataCrawler/src/utils/dataProcessor.ts:102-114 | the processing set is part of the pending set, and every queued block that is not done can be picked next or is in the batch in progress |
| CrawlSafety.BatchAccounting | apps/explore-DataCrawler/src/rpc-scanning/rpc-scanning.service.ts:68-104 | a scan that reaches its end has put each block of its batch in exactly one of acks and noAcks, once |
| CrawlSafety.NextKeeps | apps/explore-DataCrawler/src/rpc-scanning/rpc-scanning.service.ts:48-143 | every event of both jobs, and a crash, keeps the crawler's invariant |
| CrawlSafety.RunKeeps | apps/explore-DataCrawler/src/rpc-scanning/rpc-scanning.service.ts:48-143 | the crawler's invariant holds in every reachable state |
| CrawlQueue.RetryBlockRequest | apps/explore-DataCrawler/src/rpc-scanning/rpc-scanning.service.ts:253-283 | a block if and only if some attempt answered with one; an error only if none did and the last attempt threw |
| CrawlService.DataProcessor.GetProcessNextBatchData | apps/explore-DataCrawler/src/utils/dataProcessor.ts:102-114 | the first idle blocks up to the batch size, in order, now marked as processed |
| CrawlService.DataProcessor.PushToMemory | apps/explore-DataCrawler/src/utils/dataProcessor.ts:117-121 | the blocks are appended unless present, and no longer processed |
| CrawlService.DataProcessor.AckInMemory | apps/explore-DataCrawler/src/utils/dataProcessor.ts:135-139 | the blocks leave both sets |
| CrawlService.DataProcessor.NoAck | apps/explore-DataCrawler/src/utils/dataProcessor.ts:164-175 | the blocks are pending and no longer processed |
| CrawlService.DataProcessor.DeleteStoreData | apps/explore-DataCrawler/src/utils/dataProcessor.ts:147-161 | the keys of the blocks are deleted |
| CrawlService.DataProcessor.ChangeMaxScanBlockNumber | apps/explore-DataCrawler/src/utils/dataProcessor.ts:66-79 | file and field get the mark |
| CrawlService.DataProcessor.Reload | apps/explore-DataCrawler/src/utils/dataProcessor.ts:40-51 | pending blocks from LevelDB, mark from the file, nothing processed |
| CrawlService.RpcScanningService.Restart | apps/explore-DataCrawler/src/utils/dataProcessor.ts:12-23 | exactly the crash event |
| CrawlService.RpcScanningService.CheckLatestHeight | apps/explore-DataCrawler/src/rpc-scanning/rpc-scanning.service.ts:110-134 | exactly the check event: initial mark, 100 blocks back after a restart, the safe range pushed to memory |
| CrawlService.RpcScanningService.PushLanded | apps/explore-DataCrawler/src/utils/dataProcessor.ts:128 | exactly what LevelDB's answer to a push does |
| CrawlService.RpcScanningService.MarkRange | apps/explore-DataCrawler/src/utils/dataProcessor.ts:60-61 | exactly the write of the mark after a push |
| CrawlService.RpcScanningService.ExecuteCrawlBlock | apps/explore-DataCrawler/src/rpc-scanning/rpc-scanning.service.ts:48-56 | exactly the start of a crawl; the invariant gives what the loop over the set relies on |
| CrawlService.RpcScanningService.ProcessBlock | apps/explore-DataCrawler/src/rpc-scanning/rpc-scanning.service.ts:208-238 | exactly what one scanned block does to acks, noAcks or the whole batch |
| CrawlService.RpcScanningService.SettleBatch | apps/explore-DataCrawler/src/rpc-scanning/rpc-scanning.service.ts:95-100 | exactly the end of a scan |
| CrawlService.RpcScanningService.AckLanded | apps/explore-DataCrawler/src/utils/dataProcessor.ts:132-134 | exactly what LevelDB's answer to a deletion does |
| CrawlService.RpcScanningService.AckDone | apps/explore-DataCrawler/src/utils/dataProcessor.ts:135-143 | exactly the last step of an acknowledgement |
| CodecRoundTrip.UnlimitedRoundTrip | libs/utils/src/lib/oldUtils.ts:151-244 | any four digits embedded in an amount of five digits or more come back, on chains with room for every digit |
| CodecRoundTrip.LimitedRoundTripIff | libs/utils/src/lib/oldUtils.ts:183-236 | on a bit-limited chain a code comes back if and only if the digits kept before it differ from the maximum's, or the code and what follows it compare with the end of the maximum as the whole amount did, or the code only repeats the digit after it |
| CodecRoundTrip.PrefixKeepsComparison | libs/utils/src/lib/oldUtils.ts:332-349 | when the digits kept before the code differ from the maximum's, embedding keeps the comparison |
| CodecRoundTrip.WindowIff | libs/utils/src/lib/oldUtils.ts:183-232 | the same for any maximum without zeros whose fifth digit from the end is 3 and fourth is larger |
| CodecRoundTrip.ShortRoundTrip | libs/utils/src/lib/oldUtils.ts:197-204 | amounts shorter than the maximum carry any code |
| CodecRoundTrip.LimitedRoundTripFails | libs/utils/src/lib/oldUtils.ts:332-349 | 343597300000000000 with 9003 on zksync: the code does not come back |
| CodecRoundTrip.FittingEnd | libs/utils/src/lib/oldUtils.ts:332-356 | the length AmountValidDigits gives is decided by comparing as many digits as the maximum has, trailing zeros aside |
| CodecRoundTrip.ClearsCode | libs/utils/src/lib/oldUtils.ts:245-288 | clearing takes off an amount exactly the code it is read to carry, at its place, on every chain |
| CodecRoundTrip.CodesAre | libs/utils/src/lib/oldUtils.ts:151-288 | where a code is put, cleared and read on every chain, and when each is refused |
| CodecRoundTrip.SidesRemoved | libs/utils/src/lib/oldUtils.ts:351-356 | removeSidesZero leaves what is between the zeros on both sides, except that a single digit between them keeps a zero behind it |
| Codec.GetRAmountFromTAmount | libs/utils/src/lib/oldUtils.ts:245-288 | the amount with the code's place zeroed, or the first error |
| SecurityCode.ParseSourceTxSecurityCode | apps/explore-DataRefinery/src/transaction/bridgeTransaction.builder.ts:20-42 | the loops over characters compute the arithmetic reading of the four places that end at the last non-zero |
| SecurityCode.PadToFour | apps/explore-DataRefinery/src/transaction/bridgeTransaction.builder.ts:29-32 | a padding loop whose bound shrinks: one digit gets two zeros, two or three get one |
| SecurityCode.SourceIdIff | apps/explore-DataRefinery/src/transaction/bridgeTransaction.builder.ts:20-42 | for ids 1 to 999 behind any text ending in a digit and before any zeros: read back if and only if the id does not end in 0 and is not 901 to 909, or is a multiple of ten but not of a hundred, below 100 or behind a 0 |
| SecurityCode.TwoDigitIdsRead | apps/explore-DataRefinery/src/transaction/bridgeTransaction.builder.ts:20-42 | every id from 1 to 99 is read back, whatever precedes and follows it |
| SecurityCode.ParseZksyncLiteSourceTxSecurityCode | apps/explore-DataRefinery/src/transaction/bridgeTransaction.builder.ts:47-61 | the code from the first nine of the last four characters, padded |
| SecurityCode.ZksyncIdIff | apps/explore-DataRefinery/src/transaction/bridgeTransaction.builder.ts:47-61 | on zksync lite an id at the end of a fraction is read back if and only if it does not end in 0, or ends in one 0 and no 9 precedes the code |
| Fees.FeesAddUp | libs/utils/src/lib/oldUtils.ts:123-150 | payout, trade fee and withholding fee add up to the user's amount exactly |
| Fees.TradeFeeBounds | libs/utils/src/lib/oldUtils.ts:136-138 | the trade fee is at least the computed fee, above it by less than one unit of the rounding digit, and has no more digits |
| Fees.TradeFeeWithin | libs/utils/src/lib/oldUtils.ts:129-148 | with 18 decimals the fee has at most 5 decimals and exceeds the exact fee by less than 10^-5, otherwise 2 and 10^-2; what the twentieth decimal of a division can lose is allowed for only when it loses anything |
| Fees.DivisionExactIff | libs/utils/src/lib/oldUtils.ts:133-135 | a quotient is exact if and only if it needs at most twenty decimals |
| Fees.DivisionError | libs/utils/src/lib/oldUtils.ts:133-135 | a quotient is off by at most half a unit of the twentieth decimal |
| Fees.GasFeeExact | libs/utils/src/lib/oldUtils.ts:129-135 | with 14 decimals in amount and withholding fee and 3 in the ratio the fee is computed exactly |
| Payout.GetAmountToSend | libs/utils/src/lib/oldUtils.ts:392-457 | clearing, fees and embedding in their order, with every refusal |
| Payout.NonceRecovered | libs/utils/src/lib/oldUtils.ts:392-457 | on a target chain with room for every digit, reading the code of a payout of five digits or more gives back the nonce, and the payout is within -9999 and +8999 units of the computed one |
| Payout.PaddedNonce | libs/utils/src/lib/oldUtils.ts:378-381 | a nonce of up to four digits is padded to a four-digit code of its value |
| Payout.FeeExactAt18 | libs/utils/src/lib/oldUtils.ts:426-432 | for tokens of 18 decimals the zeros left by the cleared code keep the fee exact |
| Payout.SentWithin18 | libs/utils/src/lib/oldUtils.ts:392-442 | for tokens of 18 decimals the payout before its nonce is the cleared amount less withholding fee and exact trade fee, and less than 10^-5 more, to the last unit |
| Payout.PaidIff | libs/utils/src/lib/oldUtils.ts:392-457 | for a token value that could be computed, a payout is made if and only if it has four digits or more and the nonce is at most 8999 |
| Payout.ElevenDigits | libs/utils/src/lib/oldUtils.ts:415-424 | for a payout on zksync an amount counts with its first eleven digits |
| Dealer.MovedCodeIff | apps/explore-open-api/src/api/v3/v3.service.ts:809-815 | on a bit-limited chain digits can follow the code, while it is read at the very end: it is read back if and only if code, following digits and withholding fee end in the code again |
| Dealer.MovedCodeLost | apps/explore-DataRefinery/src/transaction/transactionV2.service.ts:383-387 | it is lost when five zeros or more follow it and the withholding fee is a multiple of 10^5 |
| Dealer.DealerCodeIff | apps/explore-open-api/src/api/v3/v3.service.ts:775-821 | at the end of an amount, dealer, ebc and chain index are read back from the value sent if and only if the withholding fee is a multiple of 10^5 and the value has five digits |
| Dealer.LastFourIff | apps/explore-open-api/src/api/v3/v3.service.ts:526 | the last four digits of the code survive if and only if the withholding fee ends in 0000 |
| Dealer.SafeCodeIs | apps/explore-open-api/src/api/v3/v3.service.ts:800-805 | dealer, ebc and chain index make five digits of known value |
| Dealer.EmbedLargeIs | apps/explore-open-api/src/api/v3/v3.service.ts:807-821 | the amount with its code in every case, on bit-limited chains too: fewer digits than the code are cut from their end once more than they are long |
| Dealer.ChainCodeOnly | apps/explore-open-api/src/api/v3/v3.service.ts:803-804 | without an ebc the code is four digits, those of the chain plus 9000 |
| Dealer.ParsedFive | apps/explore-DataRefinery/src/transaction/transactionV2.service.ts:389-398 | five digits read give back their number in the three parts |
| Dealer.ParsedAny | apps/explore-DataRefinery/src/transaction/transactionV2.service.ts:389-398 | a code of any length is read as its first two digits, its third, and the number of the rest |
| Dealer.ResponseAddsUp | apps/explore-DataRefinery/src/transaction/transactionV2.service.ts:400-428 | the value is code, withholding fee, trade fee, response and less than 10000 units of dust, with the sign of what is left |
| Dealer.ResponseDetermines | apps/explore-DataRefinery/src/transaction/transactionV2.service.ts:411-426 | a positive response and a nonce of up to four digits are both determined by the amount sent |
| Dealer.ResponseCarriesNonce | apps/explore-DataRefinery/src/transaction/transactionV2.service.ts:422-425 | the amount sent is congruent to the nonce modulo ten to its length |
| Starknet.Cairo1RoundTrip | apps/explore-DataCrawler/src/rpc-scanning/starknet/starknet.service.ts:313-357 | decoding the encoding of any list of calls gives its known-selector calls in order with exact arguments |
| Starknet.Cairo0RoundTrip | apps/explore-DataCrawler/src/rpc-scanning/starknet/starknet.service.ts:283-312 | the same for the older encoding with running-sum offsets, subject to its argument filter; an empty list gives nothing |
| StarknetCalls.OlderDecodesKept | apps/explore-DataCrawler/src/rpc-scanning/starknet/starknet.service.ts:386-431 | a call of the older encoding is given back if and only if it is a transfer of 3 arguments, a transferERC20 of 5 to a configured source, or a pending multisig that unpacks; in order, under its place, with name and arguments |
| StarknetCalls.OlderTransferDecodes | apps/explore-DataCrawler/src/rpc-scanning/starknet/starknet.service.ts:125-128 | an ordinary transfer in the older encoding is given back |
| StarknetCalls.NewerDecodesKnown | apps/explore-DataCrawler/src/rpc-scanning/starknet/starknet.service.ts:313-385 | of the newer encoding exactly the calls with a known selector are given back, in order, numbered among themselves, with exact arguments |
| Starknet.SingleTransferDecodes | apps/explore-DataCrawler/src/rpc-scanning/starknet/starknet.service.ts:125-128 | trying the older decoder first never misreads a single transfer in the newer encoding |
| Starknet.DecodeExecuteCalldataCairo1 | apps/explore-DataCrawler/src/rpc-scanning/starknet/starknet.service.ts:313-357 | the two nested loops compute the walk, and end on every array |
| Starknet.ReadNext | apps/explore-DataCrawler/src/rpc-scanning/starknet/starknet.service.ts:327-345 | one call of the walk, reads past the end included |
| Starknet.DecodeExecuteCalldataCairo0 | apps/explore-DataCrawler/src/rpc-scanning/starknet/starknet.service.ts:283-312 | heads and arguments cut out and parsed |
| Starknet.ParseContractCallData | apps/explore-DataCrawler/src/rpc-scanning/starknet/starknet.service.ts:386-431 | the loop over the heads with its running sum |
| Starknet.ReadHead | apps/explore-DataCrawler/src/rpc-scanning/starknet/starknet.service.ts:391-402 | one head: the sum so far and what is kept of the call |
| Starknet.KeepCall | apps/explore-DataCrawler/src/rpc-scanning/starknet/starknet.service.ts:403-421 | a call is kept if it has the arguments its name asks for |
| Starknet.SplitArrayBySize | libs/utils/src/lib/core.ts:74-80 | the chunks of the array, in order |
| MatchingCache.IndexAgrees | apps/explore-DataRefinery/src/transaction/memory-matching.service.ts:20-153 | after any additions, removals and expiries each version's ids are those of the cached entries of that version, and version and id together occur once |
| MatchingCache.UnexpiredIs | apps/explore-DataRefinery/src/transaction/memory-matching.service.ts:20-41 | expiry keeps exactly what is not expired |
| MatchingCache.StaysTwentyMinutes | apps/explore-DataRefinery/src/transaction/memory-matching.service.ts:20-41 | what is at most twenty minutes old stays, and nothing else |
| MatchingCache.AddsAtEnd | apps/explore-DataRefinery/src/transaction/memory-matching.service.ts:81-131 | an entry goes to the end of its list unless one of its version and id is there |
| MatchingCache.RemovesFirst | apps/explore-DataRefinery/src/transaction/memory-matching.service.ts:132-153 | the first entry with the id is taken out, whatever its version, and the others keep their order |
| MatchingCache.UnexpiredConcat | apps/explore-DataRefinery/src/transaction/memory-matching.service.ts:20-41 | and keeps it in order, list by list |
| MatchingCache.ExpireFromAgrees | apps/explore-DataRefinery/src/transaction/memory-matching.service.ts:20-41 | the backward splices keep list and index in agreement from any point of the walk |
| MatchingCache.MemoryMatchingService.FromCacheMatch | apps/explore-DataRefinery/src/transaction/memory-matching.service.ts:20-44 | both lists are left with their unexpired entries, both indexes without the expired ids |
| MatchingCache.MemoryMatchingService.AddTransferMatchCache | apps/explore-DataRefinery/src/transaction/memory-matching.service.ts:81-103 | an entry is added if it is recent, confirmed and not there |
| MatchingCache.MemoryMatchingService.AddBridgeTransaction | apps/explore-DataRefinery/src/transaction/memory-matching.service.ts:104-131 | a row is added if it is recent, without target, of status 0, 97 or 98, and not there |
| MatchingCache.MemoryMatchingService.RemoveTransferMatchCache | apps/explore-DataRefinery/src/transaction/memory-matching.service.ts:144-153 | the first entry with the hash is cut out, and its id dropped |
| MatchingCache.MemoryMatchingService.RemoveBridgeTransaction | apps/explore-DataRefinery/src/transaction/memory-matching.service.ts:132-143 | the first row with the hash is cut out, and its id dropped |
| SettlementMatches.SettledFits | apps/explore-DataRefinery/src/transaction/transactionV1.service.ts:380-406 | in every run a settled row has, at some moment, asked for its payment: unsettled, with its symbol, address, chain and amount and its sender among the makers, or for the same up to case, no later than a minute after it and on Loopring with its nonce; or the maker's client had written the payment to it |
| SettlementMatches.MatchedFits | apps/explore-DataRefinery/src/transaction/transactionV1.service.ts:380-406 | so has the row of every match about to be saved |
| SettlementMatches.SearchReturnsIff | apps/explore-DataRefinery/src/transaction/transactionV1.service.ts:380-406 | the search returns a row that names the payment if there is one, else an unsettled row that asks for it, and gives up if and only if there is neither |
| SettlementMatches.MemoryPairsIff | apps/explore-DataRefinery/src/transaction/memory-matching.service.ts:46-79 | a payment is matched in memory if and only if a cached row resembles it, the first such goes through and the transaction does not fail; then row and transfers are paired, else nothing changes |
| SettlementMatches.SourceBeginsIff | apps/explore-DataRefinery/src/transaction/transactionV1.service.ts:180-193 | a source goes on to its transaction if and only if it is confirmed and its row, if any, has a status below 90 |
| SettlementMatches.SourceLeavesRow | apps/explore-DataRefinery/src/transaction/transactionV1.service.ts:223-276 | its transaction leaves one row that asks for what the builder made of it, or none; a recent new row is cached even if the transaction then fails |
| SettlementSafety.PairingOneToOne | apps/explore-DataRefinery/src/transaction/transactionV1.service.ts:278-455 | in every run, the maker's client writing payments too, a settled row names a payment on its target chain, and settled rows and payments are one to one unless a row is saved for a payment that another settled row names |
| SettlementSafety.OneToOneIff | apps/explore-DataRefinery/src/transaction/transactionV1.service.ts:278-417 | one event keeps settled rows and payments one to one if and only if it is not such a save: the memory match never is one |
| SettlementSafety.FreshDoubles | apps/explore-DataRefinery/src/transaction/transactionV1.service.ts:380-417 | a save whose search would still return its row is one only if the row, unsettled, names the payment already: the maker's client wrote it there |
| SettlementSafety.NamedOnceIff | apps/explore-DataRefinery/src/transaction/transactionV1.service.ts:278-417 | one event keeps every payment named by at most one row if and only if it does not give a row a payment that another row names |
| SettlementSafety.HandlersNameOnce | apps/explore-DataRefinery/src/transaction/transactionV1.service.ts:278-455 | while the maker's client writes no payment and no save comes after its search has become stale, in every run a row names a payment if and only if it is settled, and no two name the same |
| SettlementExample.LookalikesShareOnePayment | apps/maker-client/src/transfer/sequencer/transfer.service.ts:134-140 | a run in which the client pays one of two lookalike rows, the memory match settles the other with that payment, and its redelivery settles the first: two settled rows with one payment |
| SettlementSafety.SettledForEverIff | apps/explore-DataRefinery/src/transaction/transactionV1.service.ts:278-455 | a settled row keeps status and payment in everything that may follow (redeliveries, fallbacks after a rolled-back memory match, late commits of its source, payments of the maker's client) if and only if no handler in progress had found it for another payment |
| SettlementSafety.FinalIff | apps/explore-DataRefinery/src/transaction/transactionV1.service.ts:401-417 | one event takes a settled row its payment or status if and only if it is the save of such a handler |
| SettlementExample.StaleSaveOvertakes | apps/explore-DataRefinery/src/transaction/transactionV1.service.ts:401-417 | a run in which two payments find one row before either is saved: the second save takes the row over, and the first payment is closed without a row |
| SettlementSafety.NextKeeps | apps/explore-DataRefinery/src/transaction/transactionV1.service.ts:180-455 | every event keeps the settlement invariant |
| SettlementSafety.RunKeeps | apps/explore-DataRefinery/src/transaction/transactionV1.service.ts:180-455 | the settlement invariant holds in every reachable state |
| SettlementSafety.FoundChain | apps/explore-DataRefinery/src/transaction/transactionV1.service.ts:380-406 | a row the database search returns is on the payment's chain |
| SettlementSafety.SettledIsFound | apps/explore-DataRefinery/src/transaction/transactionV1.service.ts:380-387 | a payment that a settled row names finds a row by its name |
| SettlementSafety.CrashedPaymentReopens | apps/explore-DataRefinery/src/transaction/transactionV1.service.ts:407-417 | a redelivered payment reopens its settled row if and only if its status is 3, and then any payment that fits can take it |
| SettlementService.TransactionV1Service.StartSource | apps/explore-DataRefinery/src/transaction/transactionV1.service.ts:180-193 | exactly the source handler's lookup |
| SettlementService.TransactionV1Service.FinishSource | apps/explore-DataRefinery/src/transaction/transactionV1.service.ts:223-276 | exactly the source handler's transaction, its late failures included, for whatever target of the same chain the builder makes this time |
| SettlementService.TransactionV1Service.InsertRow | apps/explore-DataRefinery/src/transaction/transactionV1.service.ts:233-254 | the row is there if the transaction commits; the cache keeps it even if it does not |
| SettlementService.TransactionV1Service.MatchCache | apps/explore-DataRefinery/src/transaction/memory-matching.service.ts:46-79 | the first cached row that fits |
| SettlementService.TransactionV1Service.UpdateRow | apps/explore-DataRefinery/src/transaction/transactionV1.service.ts:298-320 | one row changes if it is unsettled and its time fits, else none |
| SettlementService.TransactionV1Service.CloseTransfers | apps/explore-DataRefinery/src/transaction/transactionV1.service.ts:327-340 | both transfers closed, and how many were open |
| SettlementService.TransactionV1Service.MatchFromMemory | apps/explore-DataRefinery/src/transaction/transactionV1.service.ts:292-370 | everything written, or nothing: committed only if one row and two transfers changed |
| SettlementService.TransactionV1Service.HandleTransferByDestTx | apps/explore-DataRefinery/src/transaction/transactionV1.service.ts:278-370 | exactly the payment handler up to the database search |
| SettlementService.TransactionV1Service.SearchMatch | apps/explore-DataRefinery/src/transaction/transactionV1.service.ts:378-406 | exactly the searches of the second transaction |
| SettlementService.TransactionV1Service.SaveMatch | apps/explore-DataRefinery/src/transaction/transactionV1.service.ts:407-455 | exactly its save by the row's id and its commit, or its rollback |

## Left out

- Ledger, what a hash names: transfers are keyed by hash, taken as unique across chains, and stored with addresses in lower case; storing one again does not reset its opStatus.
- Ledger, one process: the mutexes of the bookkeepers are in-process, and two processes on one database are not modelled.
- Ledger, the cache of claim rows that mints search first is whatever that search returns: a row made of its source, stale or rolled back, under an id used for no other.
- Ledger and settlement, maker clients: one writes 96, 97 or 98, and a payment or none, only to a row that is unsettled and names no payment, since it locks and checks the row first; its batch paths check that the status is 0, and a row of status 0 names no payment. Other writers of these tables are not modelled.
- Ledger, the amounts of claims and crosses are exact decimals; amounts too long for a finite double do not fit their column and are left out.
- Ledger, an empty and an absent field of the calldata are the same; the database refuses a query with an absent tick.
- Ledger, the unique index on transactionId, column widths and lost connections are among the ways a transaction may fail.
- Crawler, boot: reloading LevelDB and the file is one step, and the file is durable.
- Crawler, blocks that a broken scan still stores in the background are not recorded as stored.
- Crawler, reading the transfers of a block (`handleBlock`) and storing them are outcomes, not modelled further; of a missing block it fails.
- Codec, amounts are digit strings in the smallest unit; text with a sign, a point or an exponent is not modelled.
- SecurityCode, texts have at most one point, with a digit before it; numbers printed with an exponent are not modelled.
- Payout.GetAmountToSend: does not model the last adjustment of zksync payouts (closestPackableTransactionAmount) and of Immutable X payouts (floats), because both are foreign or floating-point code.
- Payout, exact powers of ten: token decimals up to 22, beyond which the double 10^n is not exact.
- Dealer, `calculateRebateAmount` and `calculateAmountByLarge` beyond the code and the response: choosing a direction and dividing by the decimals adds only easy members.
- Starknet, felts are numbers rather than hexadecimal text, and calldata arrays are shorter than 2^53.
- Starknet, what `handleTransaction` makes of the decoded calls: receipts and events of the node.
- MatchingCache, the clock is read once for a whole expiry pass.
- Settlement, `transactionV2.service.ts` shares the payment handler but its source handler writes status 0 over a row it read earlier, and can reopen a settled row; only version 1 sources are modelled.
- Settlement, `handleTransferMatchTx` and `fuzzyMatching` also write targetId, by hand, and are not modelled.
- SettlementService.TransactionV1Service.FinishSource: a source names the same target chain each time it is delivered, since the code in its amount does; the rest of its target may differ.
- The other copies of `oldUtils.ts`, `inscription-memory-matching.service.ts`, synchronisation, refunds, arbitration, REST controllers, queues, accounts and signers: plumbing, or the same structure again.
