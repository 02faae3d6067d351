# Wagering ledger, verified

A Dafny model of a wagering ledger: HTTP handlers, queue consumers, pending-reference workers and outbox
publishers share one PostgreSQL database and move the balances of wallets. The project proves what the
ledger promises about money, idempotency and delivery, for every input and every run.

`dafny verify dfyconfig.toml` checks the whole project.

## How the model is organised

**Domain.** `Money.dfy` and `MoneyText.dfy` are amounts and their decimal texts; `Wallet.dfy` and
`Wagering.dfy` hold the two aggregates, each as functions on a state and as a class that updates its fields
in place and is proved against them; `Events.dfy` builds the integration events; `Backoff.dfy` is the capped
doubling of the three retry loops with Go's wrap-around; `PayloadHash.dfy` is the canonical JSON whose
SHA-256 is stored; `Requests.dfy` writes out which requests are accepted.

**Database.** `Database.dfy` has the tables, the statements that write them and, for each statement, the
constraint it violates, if any: CHECKs, foreign keys, partial unique indexes, the guard trigger.
`Schema.dfy` is what those constraints guarantee whatever program runs.
`Rules.dfy` is what one operation makes of its wallet and reference, and `Outcomes.dfy` the table of its
outcomes, in fields and kinds. `Invariants.dfy` says what every committed state satisfies; `Commit.dfy`, `Statements.dfy` and
`Opening.dfy` prove that one operation's statements keep it and cannot be refused.

**Use cases, step by step.** `Store.dfy` is the repositories over one set of tables; `Service.dfy`,
`WalletService.dfy` and `Consumer.dfy` are the use cases as the program runs them, with loops, in-place
updates and rollback, proved against `UseCases.dfy`. `Worker.dfy` measures the pending-reference loop,
`Sequential.dfy` proves that a use case on good tables leaves good tables and which answer it gives when, and
`Lookups.dfy` what its queries find.

**Concurrency.** `Engine.dfy` interleaves any number of those use cases statement by statement under READ
COMMITTED: row locks, SKIP LOCKED, unique-index entries held until commit, crashes anywhere.
`Processes.dfy`, `Worlds.dfy`, `Steps.dfy`, `Commits.dfy` and `Reach.dfy` prove one inductive invariant of all
runs. On it rest `Serial.dfy` (commit order is a serial order per wallet), `Deadlock.dfy`, `History.dfy`
(what is never undone), `Replays.dfy` (idempotency), `Inbound.dfy` (no message is lost), `Waiting.dfy`
(parked operations end), `Audit.dfy` and `Conservation.dfy` (ledger, events and reversals explain every
balance), `Paging.dfy` with `Cursor.dfy` (reading the ledger while it grows), and `Guarantees.dfy`, which says
them of every moment of every run. `Stuck.dfy` is about waiting credits that can never be paid. `Scenarios.dfy`
gives complete runs, put together with `RunBuilder.dfy`, that show where some of these promises end.

**Outbox.** `Outbox.dfy` is the outbox table and its leases, `OutboxRuns.dfy` any number of publishers over
it, `Publisher.dfy` one tick of a publisher with its batch call, whose steps `PublisherSteps.dfy` ties to the actions of
`OutboxRuns.dfy`, and `System.dfy` ledger and publishers in one run.

## Where the code differs from its documentation

The model follows the code.

- ARCHITECTURE.md line 88 gives the delay as base times 2^(n-1) limited to a maximum. The doubling is done in
  int64 before the comparison, so a maximum over 2^62 can wrap to a negative delay
  (`Backoff.LargeCapCanWrap`); `Backoff.DelayIsCappedExponential` and `Backoff.NeverWrapsWhenCapped` give the
  exact settings for which the documentation is right.
- ARCHITECTURE.md line 52 says a replay returns the balance seen originally. Only the minor units are stored
  and they are read back in the transaction's currency, so for an operation rejected because its currency is
  not the wallet's the replay names another currency; `Replays.ReplayIsFaithful` gives the exact condition,
  `Replays.DollarsForReais` an input and `Scenarios.ReplayNamesAnotherCurrency` a complete run.
- ARCHITECTURE.md line 88 says a waiting operation is finalised once its attempts are used up. An attempt that ends in
  a credit beyond int64 is rolled back and uses up none, so the operation stays first in line and ends the worker's
  sweep before later ones are reached, until the wallet moves (`Stuck.RoundFailsExactly`, `Stuck.ComesFirstAgain`,
  `Stuck.StuckWhileWalletStands`; `Scenarios.RefundCanBeStuck` is a complete run).
- Reconciliation sums a wallet's lifetime credits and debits into BIGINT, so it can fail for a wallet whose balance is
  in range (`Scenarios.ReconciliationCanFail`); `Audit.ReconcileIsConsistent` says that it fails exactly then.
- ARCHITECTURE.md line 36 expects a lost race that persists after the retry. `Replays.RetriesAlwaysSettle`
  shows it cannot: the conflict is committed, so the second attempt replays or reports a conflict.
- internal/adapters/postgres/outbox_inbox_repo.go line 31 says concurrent publishers never pick the same
  event. `Reschedule` does not ask who holds the lease, so a publisher past its own lease can end another's
  (`OutboxRuns.LeaseCanBeEndedByOthers`). It does so exactly when the attempt number it claimed the event under is
  behind the row's (`OutboxRuns.RescheduleEndsLeaseOf`), a guard the caller has in `rec.Attempts`. A lease excludes
  exactly as long as the event is not rescheduled (`OutboxRuns.LeaseExcludesUnlessReleased`), and where no
  rescheduling is stale only its holder ends it (`OutboxRuns.OnlyTheHolderEndsALease`).
- Commit order is a serial order for each wallet, not for all of them together: an operation holds no lock on
  a reference in another wallet (`Scenarios.OvertakenRollbackWaits`); `Serial.CommitEqualsAtOnce` says exactly when
  an outcome differs, and that money never does.

## Model

| member | source | states |
|---|---|---|
| Moneys.MoneyValue.Add | internal/domain/money/money.go:194-202 | fails exactly when the true sum leaves int64, and no intermediate value does |
| Moneys.MoneyValue.Sub | internal/domain/money/money.go:205-213 | fails exactly when the true difference leaves int64, and no intermediate value does |
| Moneys.MoneyValue.Negate | internal/domain/money/money.go:216-224 | fails exactly when the true negation leaves int64 |
| Moneys.SubUndoesAdd | internal/domain/money/money.go:194-213 | whenever an addition succeeds, subtracting the same amount gives the first operand back, and addition is symmetric |
| MoneyText.ParseMinor | internal/domain/money/money.go:114-146 | the parser with its padding loop computes the specified parse |
| MoneyText.ParseIsExact | internal/domain/money/money.go:88-146 | a text is accepted exactly when it matches the amount pattern and its value in hundredths fits int64, with that value; otherwise overflow, a negative amount, or an invalid amount |
| MoneyText.AmountTextsExactly | internal/domain/money/money.go:33-36 | a text matches the amount pattern exactly when it is digits, alone or with a point and one or two more digits, and is worth its whole part with its tenths and hundredths |
| MoneyText.AmountRoundTrip | internal/domain/money/money.go:88-175 | parsing the printed amount gives the amount back, for every non-negative value with Parse and every int64 but the least with ParseSigned |
| MoneyText.AmountIsInjective | internal/domain/money/money.go:159-175 | different amounts print differently |
| MoneyText.EquivalentTextsPrintAlike | internal/domain/money/money.go:114-175 | texts of equal value parse to one amount and print alike |
| Wallets.NewLedgerEntry | internal/domain/wallet/wallet.go:186-222 | an entry exists exactly when ids, currencies, signs and the balance arithmetic are right |
| Wallets.DebitOutcome | internal/domain/wallet/wallet.go:101-118 | a positive debit in the wallet's currency succeeds exactly when the balance covers it, and otherwise reports insufficient funds |
| Wallets.CreditOutcome | internal/domain/wallet/wallet.go:121-135 | a positive credit succeeds exactly when the new balance fits int64, and otherwise reports overflow |
| Wallets.MovementsExplainTheBalance | internal/domain/wallet/wallet.go:101-153 | a movement leaves a valid wallet one version further and an entry that takes over the old balance and ends at the new one |
| Wallets.DebitUndoesCredit | internal/domain/wallet/wallet.go:101-135 | debiting what was credited succeeds and restores the balance, two versions later |
| Wallets.Wallet.DebitAmount | internal/domain/wallet/wallet.go:101-118 | the in-place debit changes balance and version as specified, or nothing |
| Wallets.Wallet.CreditAmount | internal/domain/wallet/wallet.go:121-135 | the in-place credit changes balance and version as specified, or nothing |
| Wallets.Wallet.CanDebit | internal/domain/wallet/wallet.go:138-147 | agrees with whether a debit of the amount would succeed |
| Wagering.FireKeepsCoherence | internal/domain/wagering/transaction.go:348-443 | every transition keeps identity and leads to a coherent state, and none leaves a terminal state |
| Wagering.FiresExactly | internal/domain/wagering/transaction.go:348-443 | only pending and waiting transactions move, and each transition succeeds exactly on the balance, code, kind, reference or id that it needs |
| Wagering.TerminalIsForever | internal/domain/wagering/transaction.go:348-443 | under any sequence of calls identity never changes, every state reached is coherent, and once terminal nothing changes |
| Wagering.Transaction.Process | internal/domain/wagering/transaction.go:357-372 | the in-place transition reaches the specified state or refuses and changes nothing |
| Wagering.Transaction.Reject | internal/domain/wagering/transaction.go:376-394 | the in-place transition reaches the specified state or refuses and changes nothing |
| Wagering.Transaction.Fail | internal/domain/wagering/transaction.go:397-411 | the in-place transition reaches the specified state or refuses and changes nothing |
| Wagering.Transaction.Await | internal/domain/wagering/transaction.go:415-431 | the in-place transition reaches the specified state or refuses and changes nothing |
| Wagering.Transaction.Resolve | internal/domain/wagering/transaction.go:434-443 | the in-place transition reaches the specified state or refuses and changes nothing |
| Backoff.Compute | internal/app/service.go:81-90 | the doubling loop of the service and of the outbox publisher computes the specified delay, wrap-around included |
| Backoff.Visibility | internal/adapters/sqs/consumer.go:273-282 | the visibility backoff stays between two seconds and five minutes and is the specified delay |
| Backoff.VisibilityExactly | internal/adapters/sqs/consumer.go:273-282 | redelivery is asked for after 2, 4, 8, 16, 32, 64, 128 and 256 seconds, and after 300 from the ninth delivery on |
| Backoff.DelayIsCappedExponential | internal/app/service.go:81-90 | every delay is base times 2^(n-1) limited to the maximum exactly when no doubling below the maximum leaves int64 |
| Backoff.NeverWrapsWhenCapped | internal/app/service.go:81-90 | no doubling wraps exactly when the maximum is at most the first doubling of the base that reaches 2^62 |
| Backoff.DelayBounds | internal/workers/outbox.go:206-215 | delays are positive, at most the maximum, and grow with the attempt |
| Backoff.SmallCapNeverWraps | internal/workers/outbox.go:206-215 | with a maximum of at most 2^62 every delay of every base is the documented one |
| Backoff.LargeCapCanWrap | internal/app/service.go:81-90 | a concrete base and maximum whose second delay is negative |
| PayloadHash.PreimageIsInjective | internal/app/hash.go:16-40 | two requests have one canonical encoding exactly when all business fields agree, money by value |
| PayloadHash.InboxPreimageIsInjective | internal/adapters/sqs/consumer.go:204-208 | two messages have one inbox encoding exactly when request and idempotency key agree |
| Requests.IdentifiersExactly | internal/domain/wagering/transaction.go:113-121 | an identifier is accepted exactly when it is not empty, begins and ends with no Unicode space, and has at most 256 bytes in UTF-8 |
| Requests.RequestsExactly | internal/domain/wagering/transaction.go:126-178 | a request is accepted exactly when identifiers, owner and wallet are given, the kind is not OPENING, the amount is zero for LOSS and else positive, and the reference is absent for BET and LOSS, optional for WIN, required for REFUND and ROLLBACK, and never the operation itself |
| Requests.AcceptedExactly | internal/domain/wagering/transaction.go:208-232 | a transaction is made exactly of an accepted request with an id, a payload hash and an acceptable key, and any refusal is a validation error |
| Database.RowRoundTrip | internal/adapters/postgres/transaction_repo.go:37-141 | storing and reading back is the identity exactly when the result balance is in the transaction's currency |
| Schema.StatementsKeepSchema | migrations/000001_init.up.sql:4-158 | on any tables any statement that is not refused keeps the shapes of rows and entries, one opening to a wallet, one processed reversal to a transaction and one entry to a transaction of a wallet, changes no finished transaction and no identity, and otherwise only adds |
| Schema.StaleUpdatesAreRefused | internal/adapters/postgres/wallet_repo.go:61-71 | an update of a wallet is a concurrent modification exactly when its stored version is not the expected one |
| Rules.DecideIsSound | internal/app/process.go:144-271 | the rules fail only on a credit that overflows; otherwise identity is kept, the result is the wallet's balance, money moves exactly for processed operations other than LOSS, by the amount and in the direction of the kind, and a processed operation fits its wallet and an allowed, matching, unreversed reference |
| Outcomes.OutcomesAreTabulated | ARCHITECTURE.md:70-84 | every operation is processed, waits, fails or is rejected, with its code, and moves its amount in its direction or nothing, exactly as a table in fields and kinds says |
| Outcomes.ResolveIsTabulated | internal/app/process.go:210-251 | a reference is accepted exactly when nothing is wrong with it, and otherwise the first fault in the order of the checks is the rejection code, on a table in fields and kinds |
| Outcomes.ResolvesExactly | internal/app/process.go:210-261 | a settled reference resolves exactly when it is processed, a BET for WIN and REFUND or a BET, WIN or REFUND for ROLLBACK, of the same player, wallet, round and currency, and for REFUND and ROLLBACK of the same amount and not reversed |
| Outcomes.WinOnItsBet | internal/app/process.go:170-199 | a WIN that names a processed BET of its round is processed with a credit of its amount exactly when the new balance fits int64, and otherwise fails |
| Commit.CommitKeepsInvariant | internal/app/process.go:89-97 | committing a decided operation keeps every invariant of tables, ledger, events and inbox |
| Statements.BodyNeverFails | internal/app/process.go:89-97 | after the key and external id are reserved none of the operation's statements violates any constraint |
| Statements.BodyAmountsTo | internal/app/process.go:275-320 | the statements of an operation, run one after another, amount to the committed change the invariant proofs are about |
| Opening.OpeningKeepsInvariant | internal/app/wallets.go:27-80 | committing a wallet with or without money keeps every invariant |
| Opening.OpeningNeverFails | internal/app/wallets.go:33-72 | after the owner is reserved none of the opening's statements violates any constraint |
| Worlds.WriterNeverFails | internal/adapters/postgres/wallet_repo.go:61-71 | in every state with the invariant, a writing process past its reservations has no statement refused, the version check included |
| Processes.ProcStays | internal/app/process.go:71-103 | what a process knows at each of its statements survives every commit of the others, because its locks cover it |
| Commits.BodyCommitKeeps | internal/app/process.go:92-97 | the commit of an operation by one process keeps the invariant of the whole system |
| Reach.ActionKeeps | internal/app/process.go:38-104 | every statement, arrival, crash or message operation keeps the invariant of the whole system |
| Reach.RunsAreSafe | internal/app/process.go:38-104 | every state of every run satisfies the invariant |
| Reach.OnlyLostRacesAreRefused | internal/adapters/postgres/transaction_repo.go:37-57 | over every run the only statement of an operation that is ever refused is the reservation of its key or external id, and then the conflicting transaction is already committed |
| Reach.OnlySecondWalletsAreRefused | internal/adapters/postgres/wallet_repo.go:21-31 | over every run a wallet opening is refused exactly when the player has a wallet in the currency |
| Reach.TablesAreAlwaysRight | migrations/000001_init.up.sql:3-87 | over every run the committed tables satisfy the database invariant |
| Serial.CommitEqualsAtOnce | internal/app/process.go:210-251 | an operation that commits moves the money it would move if it ran now from start to end, and its whole outcome is that one exactly when no open reference of another wallet was decided meanwhile |
| Serial.RunsAreSerial | internal/app/process.go:71-103 | over every run each commit is a whole use case run at once on the committed tables, which succeeds from its lookups to its last statement: its money and inbox row always, all its tables exactly when no reference was overtaken; a committing replay is what a lookup at that moment returns, exactly unless its transaction was still waiting when read and has moved on; nothing else but openings changes the tables |
| Scenarios.OvertakenRollbackWaits | internal/app/process.go:212-231 | whatever the settings, a complete run in which a rollback looks for a win of another wallet just before the win commits and is left waiting by its own commit, although run at once then it would be refused |
| Scenarios.ReplayNamesAnotherCurrency | internal/adapters/postgres/transaction_repo.go:126-140 | whatever the settings, a complete run in which one request is answered first with the balance in reais and then, replayed, with the same amount in dollars |
| Deadlock.LocksAreTakenInOrder | internal/adapters/sqs/consumer.go:212-226 | what a process waits for ranks above everything it holds |
| Deadlock.WaitingNeverCloses | internal/app/process.go:333-345 | a chain of processes each waiting for the next never returns to a member and has at most seven |
| Deadlock.NoDeadlock | internal/app/process.go:325-372 | as long as anything runs some process waits for nobody |
| Deadlock.SomethingCanHappen | internal/adapters/postgres/transaction_repo.go:103-107 | as long as anything runs and identifiers can be drawn some process can take its next statement, at any instant; a claim always has an earliest free row or none to return |
| Deadlock.ReferencedRowsAreFree | migrations/000001_init.up.sql:31 | the row a resolved reference points to is processed and never held by a worker, so its foreign key never waits |
| History.FinishedRowsAreFrozen | migrations/000001_init.up.sql:94-126 | over every run no row disappears, no finished transaction changes, and ledger, outbox and inbox only grow |
| Audit.LedgerExplainsWallet | internal/app/process.go:275-297 | a wallet's entries start from zero, each takes over where the previous stopped, they end at the stored non-negative balance, and the version counts the entries that are not the opening |
| Audit.ReconcileIsConsistent | internal/app/wallets.go:182-220 | reconciliation is consistent with zero difference and counts every entry exactly when the lifetime totals fit int64, and otherwise fails |
| Audit.ComparesExactly | internal/app/wallets.go:193-215 | on any wallet and totals the comparison reports calculated balance and difference, and consistency exactly when credits minus debits is the stored balance |
| Scenarios.ReconciliationCanFail | internal/adapters/postgres/ledger_repo.go:60-70 | whatever the settings, a complete run after which a wallet holds 0.01 and its reconciliation fails, as its lifetime credits are 2^63 cents |
| Audit.ChangesRebuildWallet | internal/domain/events/events.go:148-158 | the announced balance changes of a wallet correspond one to one to its entries, with contiguous versions, and following them from nothing rebuilds balance and version |
| Audit.FinalEventsAreUnique | internal/app/process.go:299-318 | a finished transaction has exactly one final event that says what its row says, an unfinished one has none, and one that ever waited has exactly one parking event |
| Sums.SumAlongMap | internal/app/process.go:144-199 | summing over a finite set or over its one-to-one image gives the same total, the step that pairs reversals with what they reverse |
| Conservation.ReferencesAreWellFounded | internal/app/process.go:210-251 | following resolved references never comes back and ends within the number of entries |
| Conservation.ChainNets | internal/app/process.go:144-261 | a processed bet and everything that transitively reverses it nets to minus its stake, or to nothing exactly when a reversal stands; a win to its prize, or to nothing exactly when rolled back |
| Conservation.BalanceIsSumOfChains | internal/app/process.go:144-261 | a balance is the opening amount plus the net of every chain of the wallet |
| Replays.MoneyMovesExactlyOnce | internal/app/process.go:66-97 | a transaction has exactly one ledger entry when processed and not a LOSS and none otherwise, and is alone with its key and its external id |
| Replays.OneAnswerPerKey | internal/app/process.go:108-131 | over every run all successful answers to one provider key are about one transaction with one payload, and final ones agree in everything stored |
| Replays.FinishedRowsAreReplayed | internal/app/process.go:108-131 | a lookup that finds its key replays the stored row when the payload agrees and conflicts when it does not |
| Replays.ExternalIdsAreTakenOnce | internal/app/process.go:122-135 | with others about, a lookup that finds its external id conflicts under another key, replays under the same key and payload, and conflicts on another payload |
| Replays.NewOperationsGoOn | internal/app/process.go:58-97 | with others about, an operation whose key and external id are unused locks its wallet, or finds none, and is then decided exactly if it is well-formed |
| Replays.LostRacesStartOver | internal/app/process.go:38-53 | a request from HTTP whose reservation lost its race starts over once from its lookups, and any other failure is answered with its error |
| Replays.ReplayIsFaithful | internal/domain/wagering/transaction.go:376-394 | a replay returns what the first answer returned exactly when wallet and transaction currencies agree |
| Replays.OtherCurrencyIsRefused | internal/app/process.go:144-151 | every operation whose currency is not its wallet's is refused with the balance in the wallet's currency and replayed with the same amount in its own |
| Replays.DollarsForReais | internal/adapters/postgres/transaction_repo.go:126-140 | a valid bet of 5.00 USD on a wallet of 7.00 BRL is answered with 7.00 BRL and read back with 7.00 USD |
| Replays.ResultIsEntryBalance | internal/app/process.go:281-299 | the stored result of a transaction is the balance its own entry left |
| Replays.ResultIsBalanceUnderLock | internal/domain/wagering/transaction.go:357-394 | a transaction that becomes final records the balance its wallet has in that commit |
| Replays.RetriesAlwaysSettle | internal/app/process.go:38-53 | over every run a retried request is answered with the replay or a conflict, never with another lost race, and none of its statements changes the tables |
| Inbound.AbsorbedIsRecorded | internal/adapters/sqs/consumer.go:212-226 | an inbox row with a message's hash comes with a committed transaction of exactly that request and key |
| Inbound.NoMessageIsLost | internal/adapters/sqs/consumer.go:179-313 | over every run with crashes and redeliveries a message once sent is in the queue, in the dead-letter queue, or committed under its key |
| Inbound.RedeliveryChangesNothing | internal/adapters/sqs/consumer.go:217-239 | over every run, with others in between, every step of a process that gets an absorbed message again leaves tables, replies and dead-letter queue as they are, and its last deletes the message |
| Inbound.ReusedMessageIdIsPutAside | internal/adapters/sqs/consumer.go:217-221 | a message id that comes back with other content goes to the dead-letter queue without touching the tables |
| Inbound.FailuresExactly | internal/adapters/sqs/consumer.go:259-271 | an operation from the queue that fails is put aside exactly on a validation error, a conflict or an unknown wallet, and otherwise left in the queue |
| Waiting.WaitingEnds | internal/app/process.go:265-271 | over every run the committed attempts at a waiting transaction are bounded by what remained, after which it is final, whatever it waits for |
| Waiting.ParkedTransactionsEnd | internal/app/process.go:265-271 | over every run a transaction parked for the first time takes at most the configured number of committed attempts and after that many is final |
| Stuck.RoundFailsExactly | internal/app/process.go:333-366 | a round of the worker fails exactly when the earliest due transaction is a credit, with everything else as the rules demand, that takes its wallet's balance beyond int64 |
| Stuck.ComesFirstAgain | internal/adapters/postgres/transaction_repo.go:103-107 | on the same tables that transaction is first in line at every later instant and fails again, whatever the next attempt draws |
| Waiting.ClaimsExactly | internal/adapters/postgres/transaction_repo.go:103-107 | with others about, a worker gets nothing exactly when every waiting transaction has its next retry ahead or is locked, and otherwise the free due one with the earliest retry time |
| Stuck.StuckWhileWalletStands | internal/app/process.go:325-372 | over every run, whatever any number of workers do, such a transaction stays as it is and none of its attempts commits as long as its wallet has not moved |
| Scenarios.RefundCanBeStuck | internal/domain/wallet/wallet.go:121-135 | whatever the settings, a complete run after which a waiting refund is stuck and first in line |
| Guarantees.LedgersAlwaysExplainWallets | internal/app/process.go:275-297 | at every moment of every run a wallet's entries chain from zero to its stored non-negative balance and count its version |
| Guarantees.ReconciliationNeverDiverges | internal/app/wallets.go:182-220 | at every moment of every run reconciliation is consistent, or fails exactly because a lifetime total left int64 |
| Guarantees.ChangesAlwaysRebuildWallets | internal/domain/events/events.go:148-158 | at every moment of every run the announced changes rebuild balance and version of every wallet |
| Guarantees.EventsAreAlwaysUnique | internal/app/process.go:299-318 | at every moment of every run a finished transaction has one final event and one that ever waited one parking event |
| Guarantees.MoneyAlwaysMovesOnce | internal/app/process.go:66-97 | at every moment of every run money has moved exactly once per processed transaction other than LOSS, and keys and external ids are unique |
| Guarantees.ChainsAlwaysNet | internal/app/process.go:144-261 | at every moment of every run bets and wins with all their reversals net to their amount or to nothing, and references form no cycle |
| Guarantees.BalancesAreAlwaysSums | internal/app/process.go:144-261 | at every moment of every run a balance is the sum of the nets of the wallet's chains |
| Guarantees.FinishedIsReplayedForever | internal/app/process.go:108-131 | once a transaction is finished, every later lookup of its key replays the row of that moment, or conflicts on another payload |
| Guarantees.ResultsAreAlwaysEntryBalances | internal/domain/wagering/transaction.go:357-372 | at every moment of every run a recorded result is the balance the transaction's own entry left |
| Cursor.Base64RoundTrip | internal/app/wallets.go:151-168 | decoding undoes the unpadded URL-safe base64 encoding of any bytes |
| Cursor.CursorRoundTrip | internal/app/wallets.go:151-168 | every cursor reads back as the position it was made for |
| Paging.PageIsNextRows | internal/app/wallets.go:122-149 | a page that starts after n rows holds the next rows and its cursor names the last of them when more follow |
| Paging.PagesAreAsLongAsAsked | internal/app/wallets.go:122-149 | after n rows a page has the next rows, as many as asked for between 1 and 200 and otherwise 50 or all that are left, and no cursor exactly when nothing is left |
| Paging.PagesReadEverythingOnce | internal/adapters/postgres/ledger_repo.go:31-33 | over every run whoever follows cursors from the beginning with any limits reads the wallet's entries in order without gap or repetition, and all of them when no cursor is left |
| Sequential.AttemptIsClean | internal/app/process.go:58-104 | an operation run at once on good tables replays without writing or commits and keeps the tables good, or gets an error, each in exactly its case: validation for an empty key or a new operation on a known wallet that is malformed, a key conflict for another payload under the key, an external id conflict for a recorded external id under an unused key, an unknown wallet, or a credit that does not fit |
| Lookups.LooksUpExactly | internal/app/process.go:108-138 | a replay is of the provider's transaction with this key and payload, a key conflict is another payload under the key, an external id conflict is a used external id under an unused key, and nothing is found exactly when both are unused |
| Lookups.ReadsExactly | internal/adapters/postgres/transaction_repo.go:90-101 | the reference read is the provider's transaction with that external id, and reversed means a processed REFUND or ROLLBACK that refers to it |
| Sequential.RetryIsClean | internal/app/process.go:333-366 | an attempt at a waiting transaction on good tables commits and keeps them good, unless it is a credit that its wallet cannot take, on which, and on nothing else, it fails |
| Stores.Store.Rollback | internal/adapters/postgres/uow.go:44-49 | the rows are as when the transaction began, while drawn sequence numbers stay drawn |
| Stores.Store.CreateWallet | internal/adapters/postgres/wallet_repo.go:21-31 | inserts the wallet or reports the first violated constraint and changes nothing |
| Stores.Store.UpdateWallet | internal/adapters/postgres/wallet_repo.go:61-71 | updates balance and version exactly when the expected version is stored |
| Stores.WalletReadsBack | internal/adapters/postgres/wallet_repo.go:44-59 | scanning a stored wallet gives it back exactly when it is a valid wallet |
| Stores.Store.FindByKey | internal/adapters/postgres/transaction_repo.go:86-88 | returns the transaction of the key exactly when there is one |
| Stores.Store.FindByExternalId | internal/adapters/postgres/transaction_repo.go:90-92 | returns the transaction of the external id exactly when there is one |
| Stores.Store.HasProcessedReversal | internal/adapters/postgres/transaction_repo.go:94-101 | true exactly when a processed reversal refers to the transaction |
| Stores.Store.OpeningClashes | migrations/000001_init.up.sql:81-83 | true exactly when another opening of the wallet exists |
| Stores.Store.ReversalClashes | migrations/000001_init.up.sql:84-87 | true exactly when the row would be a second processed reversal of its reference |
| Stores.Store.Insert | internal/adapters/postgres/transaction_repo.go:37-57 | inserts the row or reports the first violated constraint and changes nothing |
| Stores.Store.Update | internal/adapters/postgres/transaction_repo.go:59-80 | updates the row or reports the first violated constraint, the guard trigger included, and changes nothing |
| Stores.Store.ClaimDuePendingReference | internal/adapters/postgres/transaction_repo.go:103-107 | returns the waiting transaction with the earliest retry time that has come, or nothing exactly when every waiting one has its next retry ahead |
| Stores.Store.Append | internal/adapters/postgres/ledger_repo.go:18-29 | appends the entry under the next sequence number or reports the violated constraint |
| Stores.Store.Add | internal/adapters/postgres/outbox_inbox_repo.go:17-29 | appends the event or reports the refused event or duplicate id |
| Stores.Store.Record | internal/adapters/postgres/outbox_inbox_repo.go:102-116 | inserts the inbox row or returns the stored hash and changes nothing |
| Stores.Store.List | internal/adapters/postgres/ledger_repo.go:31-58 | returns the wallet's rows after the cursor, in order, up to the limit |
| Stores.Store.Totals | internal/adapters/postgres/ledger_repo.go:60-70 | returns the sums and the count of the wallet's entries, failing when a sum leaves BIGINT |
| Services.Service.constructor | internal/app/service.go:37-57 | positive settings are kept and others become one second, one minute and ten attempts |
| Services.Service.Park | internal/app/process.go:265-271 | parks for the backoff of the next attempt or rejects when attempts are exhausted, as specified |
| Services.Service.ResolveReferenceTx | internal/app/process.go:210-251 | parks, rejects or resolves against the transaction found in the tables, as specified |
| Services.Service.Apply | internal/app/process.go:144-199 | leaves transaction and wallet in the decided states and returns the decided entry |
| Services.Service.PersistOutcome | internal/app/process.go:275-320 | leaves the tables the specified statements leave, or the first error |
| Services.Service.LookUpExisting | internal/app/process.go:108-138 | finds the replay, nothing, or the conflict |
| Services.Service.ProcessIn | internal/app/process.go:58-104 | answers and writes what the specified attempt does |
| Services.Service.Process | internal/app/process.go:38-53 | answers and commits the attempt, retries once after a lost race, and leaves the tables untouched on error |
| Services.Service.RetryOne | internal/app/process.go:331-364 | commits one attempt at the earliest due transaction, or finds every waiting one with its next retry ahead, or the attempt at the earliest one fails and the tables are untouched |
| Services.Service.ResolvePendingReferences | internal/app/process.go:325-372 | ends after at most as many rounds as attempts remain in the table, with none due unless stopped or failed; it fails only on a failed attempt at the then earliest due transaction; at a standing clock it visits each due transaction at most once, and exactly once unless stopped or failed |
| Worker.RoundOutcome | internal/app/process.go:333-366 | a committed round changes one row, uses up an attempt, and sets the next retry to the backoff |
| Worker.RoundClearsDue | internal/app/service.go:81-90 | a transaction parked again is not due at the same instant, and no other becomes due |
| WalletServices.WalletService.OpenWallet | internal/app/wallets.go:27-80 | commits the specified opening and returns the wallet, or leaves the tables untouched |
| WalletServices.WalletService.ListLedger | internal/app/wallets.go:122-149 | returns the specified page |
| WalletServices.WalletService.Reconcile | internal/app/wallets.go:182-220 | returns the specified comparison without writing |
| WalletServices.OpenIsClean | internal/app/wallets.go:27-80 | on good tables opening is refused exactly for a missing id or an invalid or negative amount, or for a second wallet of the player in the currency, and otherwise leaves the wallet and good tables |
| Consumers.DoneIsAbsorbed | internal/adapters/sqs/consumer.go:212-226 | a delivery that is done has its inbox row, and a delivery of an absorbed message is done without change |
| Consumers.DeliveriesExactly | internal/adapters/sqs/consumer.go:259-271 | a new message is put aside exactly on a validation error, a key or external id conflict or an unknown wallet, tried again on any other error, and done otherwise |
| Consumers.AcceptedExactly | internal/adapters/sqs/consumer.go:184-202 | a message reaches the database exactly when it decodes to an operation with a key and an accepted request |
| Consumers.Consumer.RecordAndProcess | internal/adapters/sqs/consumer.go:212-226 | inbox row and operation are committed together or not at all |
| Consumers.Consumer.DeadLetter | internal/adapters/sqs/consumer.go:293-313 | the message leaves the queue only after its copy is in the dead-letter queue |
| Consumers.Consumer.Handle | internal/adapters/sqs/consumer.go:179-253 | a delivery never loses the message; it goes to the dead-letter queue on the errors that cannot be cured, an unknown wallet among them, and redelivery after the visibility backoff, of 2 to 300 seconds, is asked for on the others |
| Outbox.ClaimableExactly | internal/adapters/postgres/outbox_inbox_repo.go:17-80 | a committed row can be claimed from its instant on, a leased one when due and after its lease, one put off from its next attempt on, a published one never |
| Outbox.OutboxTable.Claim | internal/adapters/postgres/outbox_inbox_repo.go:33-53 | leases the first claimable rows up to the limit, all of them when there are fewer |
| Outbox.OutboxTable.Pick | internal/adapters/postgres/outbox_inbox_repo.go:34-39 | picks distinct claimable rows in order of their next attempt, up to the limit |
| Outbox.OutboxTable.MarkPublished | internal/adapters/postgres/outbox_inbox_repo.go:55-61 | marks the row unless it is published already |
| Outbox.OutboxTable.MarkPublishedBatch | internal/adapters/postgres/outbox_inbox_repo.go:63-72 | marks every listed row that is not published already and no other |
| Outbox.OutboxTable.Reschedule | internal/adapters/postgres/outbox_inbox_repo.go:74-80 | releases the lease of an unpublished row, whoever holds it |
| OutboxRuns.OutboxIsSafe | internal/workers/outbox.go:93-204 | over every run only committed events are sent, published events were taken by the broker, and one claim sends an event at most twice |
| OutboxRuns.PublishedIsForever | internal/adapters/postgres/outbox_inbox_repo.go:55-80 | once published a row never changes |
| OutboxRuns.LeasesExclude | internal/adapters/postgres/outbox_inbox_repo.go:33-40 | any two claims of an event are separated by the end of the first lease or by a rescheduling of the event |
| OutboxRuns.RescheduleEndsLeaseOf | internal/adapters/postgres/outbox_inbox_repo.go:74-80 | over every run the lock on a row is the lease of its latest claim, and a rescheduling ends another publisher's exactly when the attempt number it was claimed under is behind the row's, and otherwise its own |
| OutboxRuns.LeaseExcludesUnlessReleased | internal/adapters/postgres/outbox_inbox_repo.go:31-40 | over every run, while a claim is the latest and the event unpublished, the event can be claimed inside the lease exactly when it was rescheduled since and its next attempt has come |
| OutboxRuns.OnlyTheHolderEndsALease | internal/workers/outbox.go:174-183 | where no rescheduling is stale, the next claim of an event comes after the lease or after its holder's own rescheduling |
| OutboxRuns.LeaseCanBeEndedByOthers | internal/adapters/postgres/outbox_inbox_repo.go:74-80 | a concrete run in which a publisher past its lease ends another's |
| OutboxRuns.UnpublishedCanBeClaimed | internal/adapters/postgres/outbox_inbox_repo.go:31-40 | wherever a run stands, letting time pass makes an unpublished event claimable by any idle publisher |
| OutboxRuns.PublishedIsSeenOnce | internal/adapters/sqs/publisher.go:28-31 | a consumer that remembers event ids handles every published event, none twice, and only committed ones |
| Systems.OnlyCommittedEventsGoOut | internal/adapters/postgres/outbox_inbox_repo.go:17-53 | over every run of ledger and publishers together the outbox table holds exactly the events of committed transactions, only those are sent, at most twice per claim, and a published one was taken by the broker |
| Systems.ConsumersSeeCommittedEventsOnce | internal/adapters/sqs/publisher.go:28-31 | over every run of ledger and publishers together a consumer that remembers event ids handles every published event once and nothing but committed events |
| Publishers.Publisher.Entries | internal/adapters/sqs/publisher.go:72-87 | every record becomes one entry under a name of its own that leads back to it |
| Publishers.RepliesPartition | internal/adapters/sqs/publisher.go:88-99 | mapping the answered names back splits the records into published, each once, and failed |
| Publishers.Publisher.PublishBatch | internal/adapters/sqs/publisher.go:58-100 | published and failed partition the records, every published one was taken by the broker, which takes nothing but the records, each at most once; more than ten records are refused |
| Publishers.Publisher.PublishOne | internal/workers/outbox.go:185-204 | one send, then acknowledgement only after confirmation, otherwise rescheduling; as actions of the protocol |
| Publishers.Publisher.PublishChunk | internal/workers/outbox.go:136-172 | every record of the chunk is acknowledged or rescheduled exactly once, acknowledged only after confirmation; the broker takes nothing but these records, each at most twice; the steps are actions of the protocol |
| Publishers.Publisher.Tick | internal/workers/outbox.go:93-131 | unless the claim failed or it is stopped, chunks of at most ten cover the claimed batch in order, so every claimed record is acknowledged or rescheduled exactly once; the broker takes nothing but claimed records, each at most twice; the whole tick is a path of protocol actions from the state that table and broker were in to the one they are in |
| PublisherSteps.TicksJoinRuns | internal/workers/outbox.go:93-204 | a tick at the end of any run of the protocol gives a longer run, so everything proved of runs holds with real ticks in them |

## Left out

- SHA-256 is represented by its preimage: two payloads count as equal when their canonical encodings are, that is, collisions do not happen.
- Identifiers are 128-bit numbers and drawn ones are fresh; their generation is not modelled.
- Instants are integers on one clock; created_at and updated_at columns, time zones and timestamp precision are not modelled.
- Strings are sequences of characters; invalid UTF-8, which Go's JSON encoder replaces, does not occur.
- The currency columns and the version column are not bounded beyond what the domain checks: the wrap-around of a version after 2^63 movements is not modelled.
- Services.Service.Process: the retry of the in-place class runs against tables that nobody else changes; what others commit between the attempts, and between the two lookups of one attempt, is modelled in Engine.dfy.
- Which of several constraints a statement reports when it violates more than one at once follows one fixed order.
- Paging.PagesReadEverythingOnce: assumes that sequence numbers fit the BIGINT column, as the column enforces.
- An identifier with an interior U+0000, which validIdentifier accepts and a TEXT parameter refuses, does not occur: the statement that would be refused for it is not modelled.
- reference_attempts is an unbounded number; the INTEGER column holds it as long as PENDING_MAX_ATTEMPTS stays below 2^31.
- HTTP routing, request decoding, status codes and error bodies: branch tables without state.
- Authentication, configuration loading, logging, metrics, health checks and process start and stop: plumbing.
- The pool, the AWS client and the list of transient PostgreSQL errors: foreign code, represented by calls that may succeed, fail, or succeed and look failed.
- Event JSON, correlation and causation ids of events, and the Lag statistics of the outbox.
- Redelivery delays of the queue are not enforced in Engine.dfy: a message may be delivered at any time, also twice at once.
- GetWallet, GetTransaction and GetTransactionByExternalID only read a row.
- FAILED is part of the state machine, but no use case produces it.
- Unknown kind, status and direction texts are refused when a request is built and are not represented.
- The load test, scripts and container files.
