# A verified model of the TON payment processor

The processor keeps a ledger in Postgres, pays users from a hot wallet, collects what users pay into deposit
wallets, and learns what really happened by following the blocks of one shard. This project models that machinery in
Dafny 4.11 and proves that it pays each request at most once, processes each block exactly once and accounts for
every coin. `dafny verify dfyconfig.toml` verifies all of it.

## Modules

- `Types`, `Ledger`: the tables as values, each SQL statement as a function on them, and the connection object whose
  methods change the tables in place and are proved against those functions, rollback included.
- `Statements`: the same statements column by column.
- `BlockCommit`, `BlockScanner`: grouping a block by wallets and committing it do not depend on the order in which
  Go's maps are visited.
- `Protocol`, `ProtocolInvariant`, `Guarantees`, `RequestStatus`: batching, message loss, scanning, expiry, crash and
  restart as one step system; its invariant; payment at most once, no false expiry, truthful final answers, totals.
- `Strangers`: what transfer requests that anybody sends to a jetton deposit wallet do to the commit of a block.
- `SweepExpiry`: a run in which a sweep of a TON deposit meets a row that expired.
- `ClockSkew`: what becomes of these guarantees when the synchronisation test and the expiry statement read the clock
  at different moments.
- `InternalWithdrawals`: collecting from deposits, and what the nested join queries mean.
- `Projection`: the protocol and the collecting side by side on one table of internal withdrawals.
- `ShardPrefix`, `ShardChain`, `ShardTracking`: the shard test on bits, all histories of splits and merges, and the
  follower that walks back, buffers, hands out and resumes after a restart.
- `Messages`, `BatchBuilder`, `HotWalletScanner`: the batch builder and its inverse in the scanner.
- `Payments`: what the messages of a batch pay, collect and spend.
- `DepositReport`: the withdrawals of a block as the transactions of deposit wallets tell them.
- `JettonIncome`: incomes of jetton deposits against balance differences.
- `Utf8Filter`: the in-place filter against section 4 of RFC 3629.
- `AddressBook`: the address book in memory, the tables it mirrors, the allocator of deposit addresses.
- `ColdWallet`: sweeps to the cold wallet.

How they meet: `HotWalletScanner.ReportOfBatch` and `HotWalletScanner.ReportOfBlock` prove, for what `BatchBuilder`
builds, the two predicates that the commit step of `Protocol` requires of the scanner's report;
`DepositReport.ReportOfDeposits` proves the third, and `DepositReport.ReportIsAStep` puts them together;
`Strangers.AnyTextIsReported` ties the stray requests of the chain to `JettonIncome`;
`HotWalletScanner.BuiltBatchIsPending` does so for the step that starts a batch, and `Payments.PaymentIsAsAsked` says
that its messages pay what was asked; `Projection.RunProjects` maps every joint run to a run of `Protocol` and a run
of `InternalWithdrawals`, so that the results of both hold of one table; `AddressBook.FeedsTheBuilder` gives the
builder its precondition; the follower commits through the connection of `Ledger`; `ColdWallet` keeps the clause of
the protocol invariant about sweeps.

## Assumptions about the environment

They are guards of steps or preconditions of lemmas, never hidden in a body:

- The chain runs each external message at most once and only in a block whose generation time is at most the lifetime
  of the message; generation times do not decrease and seqnos increase along the blocks (`Protocol.EnabledBlock`,
  `Protocol.Follows`; for the blocks of one address byte proved from the split and merge history in `ShardChain`).
- A transfer that the service starts from a deposit settles at most once, after its message was sent
  (`Protocol.EnabledBlock`), and a finish is received at a logical time after the income that caused it
  (`InternalWithdrawals.Plausible`). Nothing is assumed of the transfer requests that others send to a jetton deposit
  wallet: a block may hold any number of them, with any text (`Protocol.Chain`), and they may name any memo.
- Message uuids and memos are fresh when created (`Protocol.EnabledBatch`, `Protocol.Enabled`); an internal income has
  a memo and logical time of its own (`Protocol.FreshIncomes`).
- The synchronisation test and the expiry statement use one clock reading. In the code they are two;
  `ClockSkew.SafeReading` gives the exact distance that is harmless, `ClockSkew.LateReadingPaysTwice` a run beyond it.
- No new deposit address equals an outstanding destination (`HotWalletScanner.StillOutside`), as the threat model of
  the program accepts.
- Each transaction of the scanner is atomic, and so is every other database transaction.
- Address derivation is injective (`AddressBook.Injective`), and a jetton deposit wallet keeps the transfer and
  internal message rules of TEP-74 (`JettonIncome.Conforms`).
- The residual balance is at most the maximum balance (`ColdWallet.Sensible`).

Times are integers in one unit, coin amounts are integers as in `big.Int`, logical times and ids are naturals; the
subwallet id is held to 32 bits and the shard prefix to 64 bits explicitly. An external message that the network drops
is one the chain never runs. A history of shards is taken as a whole and the follower reads any of its masterchain
blocks in any order, which covers a chain that grows while it is read.

## Findings

- Reading the clock again after the synchronisation test can expire a message that may still run, and then one
  request is paid twice, or the block that reports a jetton withdrawal is rejected; this needs a delay that lets the
  newest saved block age beyond the allowed lag (`ClockSkew`).
- Burning jettons on a deposit wallet breaks the income law by exactly the burnt amount that silent incomes of the
  block do not cover (`JettonIncome.BlockReconciles`).
- A transfer request that anybody sends to a jetton deposit wallet is rejected by the wallet, yet the scanner reads its
  comment as the memo of a failed withdrawal (core/block_scanner.go:1027-1036), without looking at the sender.
  - A comment that is no uuid, the memo of an unknown or unsent withdrawal, or that of a failed one makes the commit
    fail, and the block is read again for ever (`Strangers.StrayAlone`, `Strangers.StuckForever`). A block is accepted
    if and only if no sweep of a TON deposit meets a failed row and its stray requests do no harm
    (`ProtocolInvariant.CommitOutcome`). Payments stay safe: everything in `Guarantees` and `RequestStatus` holds over
    runs with such requests.
  - The memo of a finished withdrawal fails it. Nothing else does (`Projection.OnlyStraysStrike`), and a failed
    withdrawal is never finished in a run if and only if no event of the run failed a finished one
    (`InternalWithdrawals.FailedUnfinishedIff`). Afterwards the join queries may select a deposit that is not due; they
    follow the rule if and only if `InternalWithdrawals.JoinMeansRule` holds of the tables. Two withdrawals may be on
    their way (`InternalWithdrawals.StrikingBreaksIt`): a second one can set out if and only if the newest one is on
    its way beside a failed, finished one of the same since_lt (`InternalWithdrawals.SecondSetsOutIff`). That valid
    withdrawals of a deposit start ever later holds all the same (`InternalWithdrawals.SinceGrows`).
  - Beside the finish it names, the outcome of the block depends on the order of a map (`Strangers.StrayOrderDecides`);
    `BlockCommit.CommitIgnoresWalletOrder` therefore asks that no wallet reports the finish of a memo that another
    wallet reports too. Two failures of one memo do not disturb each other (`BlockCommit.FailTwice`).
- A sweep of a TON deposit may meet a row that expired, since its expiry time only approximates the lifetime of its
  message; such a block is rejected (`ProtocolInvariant.UndisturbedOutcome` gives the exact condition,
  `SweepExpiry.SweepMeetsExpiredRow` a run).
- README.md asks for a maximum above the residual; a residual equal to the maximum is harmless too
  (`ColdWallet.PositiveIff`).

## Model

| member | source | states |
|---|---|---|
| Ledger.Connection.SaveWithdrawalRequest | db/db.go:402-432 | a request gets the next id with both flags clear, unless its user, query id and kind are taken; then nothing changes |
| Ledger.Connection.GetExternalWithdrawalTasks | db/db.go:492-523 | the oldest pending request of each destination, column by column as the request has it, destinations ascending, none skipped below the limit, all of them when the limit is not reached |
| Ledger.Connection.CreateExternalWithdrawals | db/db.go:921-957 | every task gets a row under the message uuid and its request is marked, or a duplicate key undoes all of it |
| Ledger.Connection.SaveInternalWithdrawalTask | db/db.go:658-678 | a new unsent row under a fresh memo, or a violation and no change |
| Ledger.Connection.SetExpired | db/db.go:1000-1057 | unsent internal rows and undecided external rows past the bound fail; exactly the requests of the latter are released |
| Ledger.Connection.ExpirationRound | core/withdrawal_processor.go:451-468 | rows expire if and only if one of the polls before found the saved blocks recent enough, and at a clock reading of its own |
| Ledger.Connection.Release | db/db.go:1042-1053 | the loop over returned query ids, in any order, clears the processing flag of exactly those requests |
| Ledger.Connection.ApplySendingConfirmation | db/db.go:897-919 | sending lt set, or one of three errors: bad memo, no row, failed row |
| Ledger.Connection.UpdateInternalWithdrawal | db/db.go:609-656 | finish or failure of an open, sent row; a failed row and an unsent one are different errors |
| Ledger.Connection.UpdateExternalWithdrawal | db/db.go:836-895 | the row is decided by success or failure and its request processed; a row already failed is an error |
| Ledger.Connection.SaveInternalIncomeRow | db/db.go:362-400 | one income per memo and lt; a memo that is not a uuid is an error |
| Ledger.Connection.SaveParsedBlockData | db/db.go:680-728 | the whole block in the order of the six kinds, then its header, or nothing at all |
| Ledger.Connection.GetExternalWithdrawalStatus | db/db.go:1107-1157 | each answer holds exactly under its flags, with the ids of the user's own request; a final answer is what some decisive row says |
| Ledger.Connection.GetTotalWithdrawalAmounts | db/db.go:1336-1377 | the amounts of the requests of the currency that a batch took and nothing decided yet, and of those no batch has taken |
| Ledger.TotalIsTheSum | db/db.go:1336-1377 | the sum by flags that the conservation laws count with is the amount of exactly the requests with these flags |
| Ledger.LastBlockIsNewest | db/db.go:972-997 | the row returned has the greatest seqno of all saved blocks |
| Ledger.ApplyAllInOrder | db/db.go:680-728 | one block is its six kinds of statements one kind after the other |
| Statements.RequestColumns | db/db.go:402-432 | which columns a new request gets, and that only a request of the same user, query id and kind prevents it |
| Statements.TaskColumns | db/db.go:658-678 | the row of a withdrawal task, column by column, or its memo is taken |
| Statements.SendingColumns | db/db.go:897-919 | a sending sets the lt of one open row and no other column; each error exactly under its condition |
| Statements.WithdrawalColumns | db/db.go:609-656 | a finish sets finish lt and adds the amount, a failure sets the flag, on one open, sent row; each error exactly under its condition |
| Statements.PaymentColumns | db/db.go:836-895 | a report sets failure or processed lt, and the hash, of one open row and marks one request; each error exactly under its condition |
| Statements.IncomeColumns | db/db.go:362-400 | an internal income is one new row under its memo and lt with its deposit, amount and time; each error exactly under its condition |
| Statements.BatchRowColumns | db/db.go:921-957 | the row of one payment of a batch, column by column, and the mark of exactly its request, or its key is taken |
| Statements.HeaderColumns | db/db.go:590-607 | a header is appended as it is, unless a block of the same shard and seqno is saved |
| Statements.ExpiryColumns | db/db.go:1000-1057 | an expiry fails exactly the open rows past the bound without sending, or without a decision, and lets exactly the requests of the latter go |
| BlockCommit.Commute | db/db.go:609-656 | two statements of one kind about different rows have the same outcome in either order |
| BlockCommit.SwapLists | db/db.go:686-721 | two lists of mutually independent statements may change places |
| BlockCommit.SwapWallets | core/block_scanner.go:247-279 | two neighbouring wallets of a block may change places |
| BlockCommit.CommitIgnoresWalletOrder | core/block_scanner.go:198-279 | a block has the same outcome, accepted with the same tables or rejected, for every order in which its wallets are visited, unless one wallet reports the finish of a memo that another reports too |
| BlockCommit.CommitIgnoresWithdrawalOrder | core/block_scanner.go:590-603 | the same for every order of the external withdrawals of a batch |
| BlockCommit.ConfirmationsApply | db/db.go:822-834 | confirmations of a block confirm exactly the processed rows of the listed requests |
| BlockCommit.SendingAndFinishInOneBlock | core/block_scanner.go:820-864 | a sending and its finish in one block apply without the event-order error |
| BlockScanner.FilterTXs | core/block_scanner.go:198-226 | one group for each wallet of the book that has transactions, each with its transactions in block order, the groups in any order |
| BlockScanner.GroupKeepsAll | core/block_scanner.go:198-226 | the group of an account holds its transactions, each as often as the block has it and in the order of the block |
| BlockScanner.ProcessTXs | core/block_scanner.go:247-279 | stops exactly when a hot wallet or a deposit does not parse; otherwise the events of these wallets, visited in this order, appended, and nothing of others |
| BlockScanner.SameGroups | core/block_scanner.go:220-225 | two visits of one block see the same groups |
| BlockScanner.ScanIgnoresMapOrder | core/block_scanner.go:198-279 | whatever the order of the map, two scans of a block stop both or commit with the same outcome, under the same condition on the events |
| ProtocolInvariant.BatchKeepsInv | core/withdrawal_processor.go:74-127 | committing a batch keeps the invariant: one live row per request, rows owned by requests, lifetimes as in the message |
| ProtocolInvariant.BatchIsAdded | db/db.go:921-957 | the insertion loop adds exactly one row per destination of the batch and marks exactly its requests |
| ProtocolInvariant.ProduceKeepsInv | core/withdrawal_processor.go:74-127 | a block that runs any subset of the sent messages within their lifetimes keeps the invariant |
| ProtocolInvariant.SyncedBound | db/db.go:1059-1075 | when the newest saved block is younger than the lag, the bound of an expiry at the same clock reading lies below the newest saved block, whatever the skew |
| ProtocolInvariant.ExpireInternalsKeepsInv | db/db.go:1000-1009 | expiring internal rows keeps the invariant |
| ProtocolInvariant.ExpireExternalsKeepsInv | db/db.go:1011-1057 | expiring external rows and releasing their requests keeps the invariant |
| ProtocolInvariant.ExpiryKeepsStatusOf | db/db.go:1018-1053 | a released request is one whose live row expired, and no decided row expires |
| ProtocolInvariant.ReportedRowsAreOpen | db/db.go:836-849 | the rows the scanner reports as decided are never expired ones |
| ProtocolInvariant.SentRowIsOpen | db/db.go:897-919 | the row of a jetton withdrawal whose message ran is never an expired one |
| ProtocolInvariant.InternalsSucceed | db/db.go:609-656 | the withdrawals of a block are accepted exactly when each finds its row known, open and sent and none follows a failure of its memo |
| ProtocolInvariant.OpenIffHarmless | core/block_scanner.go:1027-1036 | in a scanned block that is so exactly when the stray requests name open, sent rows, nothing follows a failure, and no transfer settles that was struck before |
| ProtocolInvariant.CommitOutcome | db/db.go:680-728 | a scanned block is accepted if and only if no sweep of a TON deposit meets a failed row and its stray requests do no harm |
| ProtocolInvariant.UndisturbedOutcome | db/db.go:680-728 | while nobody else has sent a transfer request, it is rejected exactly when a sweep of a TON deposit meets a failed row |
| ProtocolInvariant.CommitKeepsInv | db/db.go:680-728 | committing or rejecting a block keeps the invariant |
| ProtocolInvariant.StepKeepsInv | core/withdrawal_processor.go:74-127 | every step of the protocol keeps the invariant |
| ProtocolInvariant.ReachableInv | core/withdrawal_processor.go:63-127 | the invariant holds in every reachable state |
| Guarantees.PaidAtMostOnce | db/db.go:921-957 | in every reachable state two payments of one request are the same payment |
| Guarantees.PaidToDestination | db/db.go:492-523 | a payment goes to the destination its request named |
| Guarantees.GivenUpIsDead | db/db.go:1000-1057 | an expired external row has the lifetime of its message, which ended before the newest saved block, and the message has not run |
| Guarantees.DeadForever | core/withdrawal_processor.go:451-468 | no continuation of the run executes such a message |
| Guarantees.RetryIsSafe | db/db.go:492-523 | a request waiting for a batch has only rows given up, none of whose messages runs in any continuation |
| Guarantees.ExpiredCarrierNeverSends | core/withdrawal_processor.go:110-120 | once the row of a jetton withdrawal from a deposit expired, no continuation sends its message to the proxy |
| Strangers.StrayAlone | db/db.go:609-656 | a block with one stray request: which of the three errors it meets, or the row it fails, on every table |
| Strangers.StrayOrderDecides | core/block_scanner.go:220-225 | beside the finish it names, visited in the other order, the stray request fails the finished row or rejects the block |
| Strangers.StuckForever | core/block_scanner.go:87-106 | once the next block holds a request whose comment is no uuid, no continuation commits another block |
| Strangers.OneRequestStopsIt | core/block_scanner.go:1027-1036 | from every reachable state that caught up with the chain one such request is enough |
| Strangers.EmptyCommentRejects | core/block_scanner.go:1027-1036 | a first block with one empty comment is completely reported and rejected for its memo |
| SweepExpiry.SweepMeetsExpiredRow | core/withdrawal_processor.go:528-535 | a reachable state without any stray request whose next block reports a sweep of a TON deposit completely and is rejected because its row expired |
| ClockSkew.SafeReading | core/withdrawal_processor.go:451-468 | a second clock reading calls no lifetime over too early if and only if the newest saved block is at most the lag older than it |
| ClockSkew.SafeReadingKeepsInv | db/db.go:1018-1022 | under that condition the late reading keeps the invariant |
| ClockSkew.SafeInternalReadingKeepsInv | db/db.go:1001-1006 | the same for the reading of the internal statement |
| ClockSkew.LateReadingRejectsBlock | db/db.go:1001-1006 | beyond it a reachable state and a run in which a jetton withdrawal expires, its message runs, and the block that reports it is rejected |
| ClockSkew.LateReadingPaysTwice | core/withdrawal_processor.go:451-468 | beyond it a reachable state and a run in which one request is paid twice |
| RequestStatus.NoBadStatus | db/db.go:1107-1157 | a processed request is being processed: the bad status is unreachable |
| RequestStatus.OneDecisiveRow | db/db.go:1126-1135 | a request is processed exactly when it has a decisive row, and it has at most one |
| RequestStatus.FinalAnswerIsTrue | db/db.go:1126-1149 | processed means that the chain paid the request, failed that it did not |
| RequestStatus.ConfirmedIsPaid | db/db.go:822-834 | only payments the chain made are ever confirmed |
| RequestStatus.AnswerStands | db/db.go:1107-1157 | a final answer never changes later |
| RequestStatus.FailedIsNeverPaid | db/db.go:836-877 | a request reported as failed is paid in no continuation |
| RequestStatus.StepConserves | db/db.go:1336-1377 | a step changes the requested total of a currency by exactly what it accepts |
| RequestStatus.TotalsAddUp | db/db.go:1336-1377 | in every run pending, processing and processed amounts add up to what was accepted |
| RequestStatus.OneSweepInProgress | db/db.go:1077-1105 | at most one unprocessed internal request per destination and currency in any reachable state |
| InternalWithdrawals.SelectionIsTheRuleIff | db/db.go:730-820 | on every table, whatever happened to it, the nested joins select what is due for all incomes if and only if the finished rows of the derived table open as the newest withdrawal does |
| InternalWithdrawals.SelectionIsTheRule | db/db.go:730-820 | the same in every reachable state, events that fail finished withdrawals included |
| InternalWithdrawals.PassesWhen | db/db.go:734-752 | on every table an income passes the left join exactly when its deposit has no valid withdrawal or a finished row of the derived table opens for it |
| InternalWithdrawals.StruckApartMeansRule | db/db.go:736-745 | on every table where valid withdrawals start ever later, so in every reachable state, a finished withdrawal that failed does no harm while no valid one shares its since_lt |
| InternalWithdrawals.UpdateKeepsRuleIff | db/db.go:609-656 | one event keeps the rule that a failed withdrawal is not finished exactly when it does not fail a finished one |
| InternalWithdrawals.FailedUnfinishedIff | db/db.go:609-656 | in every run the rule holds at the end if and only if no event of the run failed a finished withdrawal |
| InternalWithdrawals.UnstruckSelection | technical_notes.md:111-121 | after every run without such an event the selection is the rule |
| InternalWithdrawals.DueTaskOk | technical_notes.md:111-121 | a deposit that is due has nothing on its way and only older withdrawals |
| InternalWithdrawals.StepKeepsInv | core/withdrawal_processor.go:470-542 | selection of deposits that are not shadowed, insertion, any block event, expiry and crash keep the invariant: at most the last valid withdrawal of a deposit is unfinished |
| InternalWithdrawals.UnstruckInv | core/withdrawal_processor.go:470-542 | a run without such an event selects no shadowed deposit and keeps the invariant |
| InternalWithdrawals.OneOnItsWay | db/db.go:730-820 | over runs that select no shadowed deposit none has two withdrawals on their way |
| InternalWithdrawals.SinceGrows | db/db.go:658-678 | in every reachable state, strikes included, the withdrawals of a deposit that did not fail start ever later |
| InternalWithdrawals.ShadowBreaks | db/db.go:730-820 | from every reachable state with a shadowed withdrawal, on its way beside a failed, finished one of the same since_lt, four more steps put two on their way |
| InternalWithdrawals.EachAfterTheLast | db/db.go:658-678 | over runs that select no shadowed deposit each of them finished before the next started |
| InternalWithdrawals.UnshadowedIsSafe | db/db.go:730-820 | from a state with the invariant and no shadowed withdrawal no restart, income, selection and insertion puts two on their way |
| InternalWithdrawals.SecondSetsOutIff | db/db.go:730-820 | the exact condition: from a state with the invariant some income lets a second withdrawal set out if and only if a withdrawal of the deposit is shadowed |
| InternalWithdrawals.StruckAlone | db/db.go:736-745 | failing a finished withdrawal breaks the rule at once, yet the selection follows it until a later withdrawal shares the since_lt |
| InternalWithdrawals.StrikingBreaksIt | core/block_scanner.go:1027-1036 | a run, for TON and for jettons, in which a request with the memo of a finished withdrawal breaks rule, selection and one on its way |
| Projection.StepProjects | core/withdrawal_processor.go:63-127 | each step of the protocol, a rejected block too, is some steps of the collecting on the same two tables, none of them a selection |
| Projection.CommitProjects | db/db.go:680-728 | an accepted block is its incomes, sendings and withdrawals as single statements |
| Projection.RunProjects | core/withdrawal_processor.go:470-542 | every joint run is a run of the protocol and a run of the collecting, and the two tables agree at its end |
| Projection.BothReachable | core/withdrawal_processor.go:63-127 | so what holds of the reachable states of either holds of the shared tables |
| Projection.OnlyStraysStrike | core/block_scanner.go:1027-1036 | in every reachable state of the protocol a withdrawal that failed is finished only if a stray request of a saved block named it |
| Projection.ProtocolSinceGrows | db/db.go:658-678 | in every joint run, stray requests or not, valid withdrawals of a deposit start ever later on the table of the protocol |
| Projection.ProtocolOneOnItsWay | db/db.go:730-820 | in every joint run that selects no shadowed deposit none has two withdrawals on their way there |
| Projection.UndisturbedCollecting | technical_notes.md:111-121 | until a saved block holds a stray request that names a memo, whatever is lost, expires or crashes, the selections follow the rule and no deposit has two withdrawals on their way |
| ShardPrefix.InShardIsPrefixEquality | blockchain/shard_tracker.go:181-192 | the exclusive-or and leading-zeros test is equality of the prefix with the first bits of the byte |
| ShardPrefix.CodeMeans | technical_notes.md:257-284 | for every shard down to eight bits the test on its prefix says whether the shard has the byte |
| ShardPrefix.HalvesPartition | technical_notes.md:257-284 | a byte of a shard is in exactly one of its halves |
| ShardChain.FilterFindsOwner | blockchain/shard_tracker.go:194-202 | of a list of current shards in any order the filter finds the one that has the byte |
| ShardChain.NextFollows | blockchain/shard_tracker.go:204-218 | through a new block, a split, a merge or a masterchain block the line of the byte goes on, linked by the chosen parents |
| ShardChain.EveryByteHasItsLine | blockchain/shard_tracker.go:181-218 | in every history exactly one shard has a byte, its blocks form one parent-linked line, and every masterchain block names a block of it |
| ShardChain.ParentsAreOlder | blockchain/shard_tracker.go:204-218 | parents have smaller seqnos, so the walk has a measure |
| ShardTracking.ShardTracker.GetShardBlocksRecursively | blockchain/shard_tracker.go:139-179 | terminates; gives the reversed segment from the last known block to the tip, or nothing for an older tip |
| ShardTracking.ShardTracker.LoadShardBlocksBatch | blockchain/shard_tracker.go:104-137 | buffer and last known block grow by exactly that segment in order; a stale tip, a stop or a timeout leaves them |
| ShardTracking.ShardTracker.GetNextMasterBlockID | blockchain/shard_tracker.go:84-102 | the first answer that differs from the last masterchain block, all before it being that block again, or a timeout |
| ShardTracking.ShardTracker.NextBlock | blockchain/shard_tracker.go:44-68 | hands out the block right after the one handed out before |
| ShardTracking.LastSavedIsLast | db/db.go:972-997 | the saved block with the greatest seqno is the one saved last |
| ShardTracking.ScanBlock | core/block_scanner.go:112-132 | the next block of the line is parsed and committed with its own events and its own header, and the tracker stays in step; or no table changes |
| ShardTracking.ScanBlocks | cmd/processor/main.go:84-92 | one life of the service, resumed from the newest saved block, prolongs the saved segment, and the tables are what the commits of these blocks, each with its own events, make of them |
| ShardTracking.RunService | cmd/processor/main.go:84-92 | over any lives, stale tips, stops, timeouts, blocks that do not parse and rejected commits, through splits and merges, the saved blocks are contiguous, parent-linked, saved once each with the time of their header, and the tables are what their events make of them in that order |
| ShardTracking.EveryIncomeOnce | core/block_scanner.go:112-132 | after any sequence of saved blocks every external income that a block tells is in the table once, and no other |
| BatchBuilder.HotBalances.Decrease | core/withdrawal_processor.go:239-254 | short exactly when the amount or the fee is not covered; otherwise both are taken |
| BatchBuilder.Reserve | core/withdrawal_processor.go:141-144 | a reserved fee keeps the budget balanced |
| BatchBuilder.Pay | core/withdrawal_processor.go:196-217 | a payment is made exactly when the balances cover it, takes its amount and, for jettons, the fee; the budget stays balanced |
| BatchBuilder.Collect | core/withdrawal_processor.go:176-192 | a jetton withdrawal is built exactly when its fee is covered and its balance above the cutoff; otherwise the fee, if covered, is lost |
| BatchBuilder.SelectionIsSound | db/db.go:772-820 | the selection addresses no proxy twice, none that the batch addresses already, and has at most 250 tasks |
| BatchBuilder.SelectionIsTheFirstFree | db/db.go:772-820 | it is the first 250 of the due deposits whose proxy is free, all of them if there are fewer, in their order |
| BatchBuilder.TakenOfCandidates | core/withdrawal_processor.go:166-194 | so of the due deposits exactly those are collected that are above the cutoff, have a free proxy and stand among the first 250 of these |
| BatchBuilder.AddService | core/withdrawal_processor.go:137-164 | every task that is not rejected gets its message, keyed by its address, as long as the rest still covers a fee; the budget stays balanced; it stops only on a task that cannot be served |
| BatchBuilder.AddInternal | core/withdrawal_processor.go:166-194 | messages to distinct proxies, for exactly the deposits above the cutoff unless the batch is full or the rest does not cover a fee |
| BatchBuilder.AddExternal | core/withdrawal_processor.go:196-217 | payments to distinct addresses outside the book; one left out is not covered even by what is left, or the batch is full; it stops only on an unknown currency |
| BatchBuilder.BuildWithdrawalMessages | core/withdrawal_processor.go:129-219 | every batch is well built, has at most 251 messages and a balanced budget; if it is not full and the rest covers a fee, it serves every task not rejected, collects exactly the due deposits above the cutoff among the first 250 with a free proxy, and makes every payment the rest still covers; it fails only on a task that cannot be served |
| BatchBuilder.KeysAreDistinct | core/withdrawal_processor.go:150-170 | the destination keys of a batch are pairwise distinct across all three kinds |
| Payments.PaymentMessage | core/wallets.go:344-396 | each payment message has destination, amount, bounce flag and comment of its task; in jettons it orders the hot wallet of the currency to transfer exactly the amount |
| Payments.PaymentIsAsAsked | core/withdrawal_processor.go:196-217 | so a batch pays for a request what was asked, to whom it was asked, and once |
| Payments.CollectingMessage | core/withdrawal_processor.go:256-289 | a collecting message orders the deposit, through its proxy, to send its whole balance to the hot wallet under its memo |
| Payments.ServiceMessage | core/withdrawal_processor.go:291-441 | a service message fills the deposit, or sends the TON of the proxy, or all jettons of a wallet outside the book, to the hot wallet under its memo |
| Payments.ServiceOutcomes | core/withdrawal_processor.go:291-441 | a service task is rejected exactly when there is nothing to move or the wallet is one of the book, and stops the builder exactly when its address cannot be served |
| Payments.MessagesSpendTheBalance | core/withdrawal_processor.go:129-254 | per currency what the balance loses is what the messages order to transfer; of TON what they carry and one fee per dropped task |
| HotWalletScanner.ParseExternalMessage | core/block_scanner.go:540-588 | valid exactly when every message has a key and no two the same; then the keys are those of all messages |
| HotWalletScanner.FailedWithdrawals | core/block_scanner.go:590-603 | one failure for exactly the named outside addresses nothing left for, in any order |
| HotWalletScanner.ProcessOutMsg | core/block_scanner.go:656-714 | accepted exactly when well formed; a success, a sending or neither according to its destination |
| HotWalletScanner.ProcessTonHotWalletExternalInMsg | core/block_scanner.go:630-717 | accepted exactly when both sides are well formed; the report is the successes, the failures and the sendings |
| HotWalletScanner.MessageOut | core/wallets.go:344-472 | a message of any built batch has the same key on both sides; only a payment is a withdrawal, only a deposit message a sending |
| HotWalletScanner.SuccessesOfOuts | core/block_scanner.go:648-714 | each success comes from one message that left, each such payment is reported, and no key twice |
| HotWalletScanner.ReportIsTrue | core/block_scanner.go:630-717 | a reported payment is in the batch, and is a failure exactly when it did not leave |
| HotWalletScanner.EveryPaymentReported | core/block_scanner.go:630-717 | every payment of the batch is reported |
| HotWalletScanner.ReportOfBatch | core/block_scanner.go:540-717 | for every built batch and every subset that leaves: one event per payment, success exactly if it left, sendings for exactly the deposits that left, as the protocol step assumes |
| HotWalletScanner.BatchReportIsSound | core/block_scanner.go:630-717 | the report of each such transaction is complete and true |
| HotWalletScanner.ReportOfBlock | core/block_scanner.go:281-311 | any number of them in one block: together what the protocol assumes of the report, for the real chain, batches and carriers |
| HotWalletScanner.BuiltBatchIsPending | db/db.go:492-523 | what the selection and the builder produce is a batch the protocol can start, each payment with destination, currency and amount of its request |
| JettonIncome.ProcessJettonDepositOutMsgs | core/block_scanner.go:906-991 | one row, with lt, time and hash, for exactly the notifications of foreign senders to the owner; flags unrecognised messages; the error cases |
| JettonIncome.RowOfMessage | core/block_scanner.go:906-991 | which messages leave a row, with which columns, which are unrecognised and which stop the scanner |
| JettonIncome.KnownRowsAreNotifications | core/block_scanner.go:364-411 | the known rows of a block are those of its notifications, each with the hash of its own transaction |
| JettonIncome.UnknownTxsAre | core/block_scanner.go:364-411 | the unknown transactions of a block are exactly those without a transfer request or with an unrecognised message, in the order of the block |
| JettonIncome.ProcessJettonDepositInMsg | core/block_scanner.go:993-1064 | a transfer request that failed or went to the hot wallet is told once, with its memo, lt and amount, as failed exactly when it failed; nothing else is; what it took and whether the message is unknown |
| JettonIncome.ConvertUnknownJettonTxs | core/block_scanner.go:442-464 | one row of amount zero per transaction, then a row of the whole amount at the first, each with lt, time and hash of its transaction |
| JettonIncome.UnknownRowsAddUp | core/block_scanner.go:442-464 | these rows add up to the whole amount whenever there is such a transaction |
| JettonIncome.ProcessJettonDepositWalletTXs | core/block_scanner.go:364-411 | the rows of a block are those of its notifications and, if something came in unsaid, those of its unknown transactions; the withdrawals as well |
| JettonIncome.BlockRowsAddUp | core/block_scanner.go:364-411 | they add up to the known amount and, if positive and some transaction is unknown, the rest |
| JettonIncome.ConformingTx | core/block_scanner.go:906-1064 | a conforming transaction is accepted, tells at most what it received, and is unknown whenever it received |
| JettonIncome.BlockReconciles | core/block_scanner.go:413-440 | recorded = difference of balances + withdrawn + the burnt amount that silent incomes do not cover; equality exactly when they cover it |
| JettonIncome.RunReconciles | core/block_scanner.go:364-464 | over any run of blocks of a conforming wallet: recorded = final - initial balance + all successful transfers |
| JettonIncome.BurningBreaksIt | core/block_scanner.go:396-408 | a block whose only transaction burns records the wrong amount |
| DepositReport.WalletEvents | core/block_scanner.go:364-411 | a deposit wallet adds to the report what its transactions tell, in their order |
| DepositReport.ReportOfDeposits | core/block_scanner.go:993-1064 | whatever the order of the visits, the withdrawals read from the transfers that settle in a block, the sweeps and the requests of strangers are what the protocol assumes of the report |
| DepositReport.ReportIsAStep | core/block_scanner.go:112-132 | and with the transactions of the hot wallet the whole report of a block is a step of the protocol |
| Utf8Filter.AcceptsTheGrammar | db/db.go:323-334 | the test of the loop accepts exactly the characters of section 4 of RFC 3629 |
| Utf8Filter.StripInvalidUtf8 | db/db.go:323-334 | the in-place loop computes the functional filter |
| Utf8Filter.MoveDown | db/db.go:329-330 | appending to the same buffer moves bytes down without touching what is still to be read |
| Utf8Filter.KeepsCharacters | db/db.go:323-334 | a character in front is kept whole, and an octet that starts none is dropped alone |
| Utf8Filter.DropsOnlyNul | db/db.go:323-334 | of what is kept exactly the NULs go |
| Utf8Filter.StripsExactly | db/db.go:323-334 | output valid and free of NUL, a subsequence, the input itself exactly when that was valid and free of NUL, idempotent |
| AddressBook.Wallets.LoadAddressBook | db/db.go:271-321 | rebuilds, in any row order, the one book that mirrors the tables: the very book kept in memory before a restart |
| AddressBook.Wallets.SaveTonWallet | db/db.go:96-115 | a used id is refused without change; otherwise row and entry are added and the book still mirrors the tables |
| AddressBook.Wallets.SaveJettonWallet | db/db.go:135-198 | owner and wallet are both added or neither; the book still mirrors the tables |
| AddressBook.Wallets.GetLastSubwalletID | db/db.go:84-94 | the greatest id in use, or that of the hot wallet |
| AddressBook.Wallets.GenerateAddress | api/handlers.go:559-633 | the new id is above all used ones, within 32 bits, first in the shard after the last, and exactly the rows of the new address are added; it fails only when none is left |
| AddressBook.GenerateSubWallet | blockchain/blockchain.go:173-193 | the least id from the start whose wallet is in the shard, or proof that none is left |
| AddressBook.GenerateDepositJettonWalletForProxy | blockchain/blockchain.go:291-326 | the same for the jetton wallet of the proxy |
| AddressBook.NextIdFits | api/handlers.go:571-581 | adding one to the last id never wraps |
| AddressBook.MirrorIsUnique | db/db.go:271-321 | only one book mirrors given tables |
| AddressBook.MirrorSays | db/db.go:271-321 | it says of each wallet the type and the user of its row, and of a jetton wallet the address of the wallet with its id |
| AddressBook.DepositsHaveTheirOwners | db/db.go:66-74 | every jetton deposit in the book has an owner in the book, and no two share one |
| AddressBook.FeedsTheBuilder | db/db.go:772-820 | service rows, deposit rows and book meet what the batch builder relies on |
| ColdWallet.PositiveIff | core/withdrawal_processor.go:626-634 | every sweep is positive exactly when the residual is at most the maximum |
| ColdWallet.SaveSweep | core/withdrawal_processor.go:636-648 | one new request in a currency that had none, so still at most one per currency |
| ColdWallet.SweepJettons | core/withdrawal_processor.go:614-650 | in any map order a sweep for exactly the due currencies, each leaving the residual, one fee set aside for each |
| ColdWallet.MakeColdWalletWithdrawals | core/withdrawal_processor.go:603-684 | the whole round: jetton sweeps leave the residual, the TON sweep the residual and one fee per jetton sweep; all positive, without comment, each with its own id and bounce flag; one unprocessed request per currency |

## Left out

- Ledger.Connection.SaveInternalIncomeRow: the deposit address is taken as given; the lookup of the jetton wallet behind a proxy is not modelled.
- ProtocolInvariant.CommitOutcome: sweeps of TON deposits have a row lifetime that only approximates that of their message, so their rejection is characterised, not excluded; errors the scanner meets before the commit are not part of it.
- InternalWithdrawals.SelectionIsTheRule: the order of the result and its limit are not modelled; a step may select any of the deposits, which covers both.
- InternalWithdrawals.OneOnItsWay: not promised for runs that select a shadowed deposit, where it fails: `InternalWithdrawals.SecondSetsOutIff` is the exact condition.
- InternalWithdrawals.EachAfterTheLast: not promised for those runs, for the same reason; that since_lt grows is promised for all runs (`InternalWithdrawals.SinceGrows`).
- Projection.ProtocolOneOnItsWay: not promised for those runs either.
- BlockCommit.CommitIgnoresWalletOrder: asks that no wallet reports the finish of a memo that another wallet reports too, which a stray request can break; there the order decides (`Strangers.StrayOrderDecides`).
- BlockScanner.ScanIgnoresMapOrder: asks the same.
- HotWalletScanner.ProcessTonHotWalletExternalInMsg: cells that do not decode are one kind of message body; decoding errors of the dictionary of messages are not modelled.
- BatchBuilder.BuildWithdrawalMessages: the update of service requests, the decoding of binary comments (invalid ones stop the program) and errors of chain reads are not modelled.
- ShardTracking.ScanBlock: parsing is a parameter, what a block gives in one life of the service; the tables change only by the scanner while it runs, the other processes are steps of `Protocol`.
- Payments.PaymentMessage: the address for excess coins, the coins forwarded with a jetton transfer, send modes and state inits are not part of a message.
- ShardTracking.ShardTracker.GetShardBlocksRecursively: progress logging is not modelled; a read that times out is a parameter.
- AddressBook.Wallets.GenerateAddress: the mutex of the handler is taken as one call at a time; the first byte of an address is a function of the derivation.
- ColdWallet.MakeColdWalletWithdrawals: balances are parameters of one round.
- Hot wallet transactions started by internal messages and TON deposit transactions: their events enter the protocol as reports, without the decoding or its errors.
- HTTP handlers, authentication, webhooks, queues, metrics, audit log, notifications: input and output without state to protect.
- Liteserver client, proofs, DNS, emulation of contracts, cell encoding, signing: library code; a message is its destination, amount and kind of body.
- Liveness: an internal withdrawal that was sent can stay unfinished, and limits can starve a request; only safety is proved.
- SQL text and isolation levels: a query is a function or relation over rows, a transaction one step.
- Parsing of the configuration.
