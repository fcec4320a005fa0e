# Shuestand, verified model

Shuestand swaps Bitcoin for Cashu ecash and back. This project models the parts of its backend that hold money,
shared state and protocols, and proves what they promise. `dafny verify dfyconfig.toml` checks everything.

## What is modelled

| module | part of the system |
|---|---|
| `Deposits`, `Confirmations`, `DepositWorker` | deposit rows and their SQL statements, the chain watcher, the worker, operator actions, the life of one deposit with atomic handlers |
| `DepositProtocol`, `DepositHandlers`, `DepositArchive` | the same tasks with every read and every write as a step of its own, row locks included; how they relate to the atomic handlers, and what archiving is worth then |
| `Withdrawals`, `Admission`, `WithdrawalWorker`, `Redemption` | withdrawal rows, the HTTP handlers, the settlement watcher, redemption and payout |
| `WithdrawalProtocol`, `WithdrawalHandlers`, `PayoutRuns`, `WithdrawalAttempts`, `WithdrawalFinality` | the same tasks with every read and every write as a step of its own; when a withdrawal can be paid again, how often it is tried, and when it can leave the settled or archived state |
| `Solvency`, `WithdrawalLife` | withdrawals and the on-chain wallet with atomic handlers: solvency, archiving, and how long a withdrawal can stay queued |
| `SolvencyProtocol`, `Overbooking` | solvency when admissions, worker, callbacks, watcher and operator interleave, and runs that lose it |
| `Swap`, `ForeignWallet` | conversion of a foreign token: the shrinking invoice, and proof isolation in a shared wallet |
| `MintReplies`, `Inventory`, `Recovery` | exact coverage of mint replies, the recovery plan, the bounded recovery run with its journal and lock |
| `RecoveryOutcome` | what a recovery run comes to: when it starts, what it pays, when it goes on, stops and closes |
| `AddressPool`, `Burst` | address allocation and refill, the sliding-window limit on session starts |
| `Base58`, `ClaimCode` | the two codecs |
| `Prelude` | options, 64-bit arithmetic, sums, runs of steps |

Tables are sequences of rows and a row's id is its index. Each UPDATE is a function on a row; a table class applies it.
A protocol is a machine with a total step function (a step that is not enabled changes nothing) and theorems about
every run. Mints, wallets and the chain are oracles: parameters that answer each request as they please.

The main theorems are `DepositProtocol.ExactlyOnce`, `DepositArchive.ArchivedLeavesExactly`,
`WithdrawalProtocol.BoundedPayouts` with `PayoutRuns.BoundIsExact` and `PayoutRuns.PaysAgainExactly`,
`WithdrawalFinality.SettledLeavesExactly`, `Solvency.SolventExactly`, `SolvencyProtocol.SolventExactly`,
`WithdrawalAttempts.ExecutionsBounded`, `Swap.SwapToCanonical`, `ForeignWallet.ProofIsolation`, `Recovery.Execute`
with the journal lemmas, `MintReplies.States`, `AddressPool.NoAddressTwice`, `Burst.Serve`, `Base58.EncodeDecode` and
`ClaimCode.ResumeIsStable`. These are about safety; that the services do what they are for, neither giving up early nor
refusing what they should accept, is in `DepositHandlers.BudgetIsServed`, `Confirmations.MintingExactly`,
`WithdrawalWorker.FundingExactly`, `WithdrawalLife.BudgetIsGranted`, `Swap.SteadyMintSucceeds` and
`RecoveryOutcome.SmoothRunSucceeds`.

## Where the code is weaker than one would like

* With atomic handlers three things can break solvency: a requeue, a payment by hand, and an admission that is told
  more than the real balance (`Solvency.RequeueBreaksSolvency`, `PaymentByHandBreaksSolvency` and
  `StaleBalanceBreaksSolvency` are runs). The last needs no operator: the wallet reports the balance of its last sync
  and does not enter its own payouts, so after a payout the released reservation is counted as free although the coins
  are gone. `Solvency.SolventExactly` says when: a run stays solvent if and only if each admission fits in what nobody
  is owed, each requeued withdrawal still holds its reservation or fits too, and so does each payment by hand. An
  admission fits whenever no more has been spent since the last sync than received (`Solvency.LastSyncIsEnough`).
* The handlers are not atomic, and then more can break it: an admission whose check is old, a payout of a withdrawal
  that the operator has failed after the worker read it, the record of a failed attempt at such a withdrawal
  (`Overbooking.StaleAdmissionBreaksSolvency`, `DelayedPaymentBreaksSolvency` and `DelayedFailureBreaksSolvency` are
  runs), and other stale writes that make a withdrawal active again. `SolvencyProtocol.SolventExactly` says when, for
  all interleavings: a run stays solvent if and only if each insert and each payment by hand fits in what nobody else
  is owed, and so does each withdrawal at the moment it is paid or a write makes it active again, unless it holds its
  reservation or has just been paid. Without the operator only the inserts remain to be checked
  (`SolvencyProtocol.UndisturbedIsSolvent`).
* A requeue can cause a second payout. The bound is one payout plus the requeue writes, and `PayoutRuns.BoundIsExact`
  attains it for every number. `PayoutRuns.PaysAgainExactly` says in which states a further payout is possible, and
  `PayoutRuns.RequeuePaysExactly` when a requeue allows one: if and only if something has arrived to pay from and the
  worker has not just paid the withdrawal or given it up without recording it.
* A settled withdrawal is final with atomic handlers (`Solvency.SettledIsFinal`), but not when handlers interleave: a
  stale operator write can turn it into a failed one (`PayoutRuns.SettledIsFailed` is a run). It stays settled in every
  continuation if and only if no entry of the worker, no read of the watcher from when it was broadcasting and no
  pending operator action other than marking it settled is left on it (`WithdrawalFinality.SettledLeavesExactly`).
* An archived withdrawal can still be marked failed or settled (`Solvency.ArchivedIsSettled` is a run). With atomic
  handlers it stays archived if and only if neither happens (`Solvency.ArchivedStaysExactly`). When handlers
  interleave, and the operator does not take it up anew, it stays archived in every continuation if and only if no
  entry of the worker, no read of the watcher with a transaction and no pending operator action other than archiving
  is left on it (`WithdrawalFinality.ArchivedLeavesExactly`; `WithdrawalProtocol.ArchivedMovesExactly` lists the
  writes that move it).
* An archived deposit is final with atomic handlers (`DepositWorker.RankNeverFalls`), but not when handlers interleave:
  in `DepositArchive.ArchivedIsRevived` a stale write of the watcher starts the minting of an archived deposit. It stays
  archived in every continuation if and only if no watcher entry, worker entry or pending operator action other than
  archiving is left on it (`DepositArchive.ArchivedLeavesExactly`).
* The affordability check of a swap saturates: it is exact if and only if the proofs are not worth `u64::MAX`
  (`Swap.CoveredMeaning`), and at that value it lets a payment through that is too large (`Swap.SaturationOverspends`).
* A recovery run can be refused by its budget only before its first payment, or at the end of a round, and there if and
  only if the source mint returned too much (`Recovery.BudgetFailsOnlyByExcess`, `Recovery.RunFailsOnlyByExcess`); the
  check before the closing entry is unreachable.
* `docs/api.md` shows claim codes of four blocks of four letters; the code makes four blocks of eight hexadecimal digits
  (`ClaimCode.GroupedLayout`), and the model follows the code.
* `decodeBase58` refuses the empty string, which the reference encoder produces for no bytes (`Base58.DecodeEncode`).

## Model

| member | source | states |
|---|---|---|
| `DepositProtocol.ExactlyOnce` | backend/src/db.rs:1290-1366 | Over all interleavings of watcher, expiry sweep, worker, operator and any number of pickups, a deposit is minted at most once, with at most `max_attempts` calls, and served at most once; the served token is the one minted, worth the covering sum, at least the request and at most what was received. |
| `DepositProtocol.StepKeeps` | backend/src/main.rs:1152-1254 | Every read and every write of every task, whatever the snapshot it decided on, keeps the four-phase invariant that pins down the mint, the stored token, the row lock and the claim row of each deposit. |
| `DepositProtocol.PickupKeeps` | backend/src/db.rs:1304-1365 | Committing a pickup against the claim row, under the lock taken by the SELECT, keeps the invariant: no second claim, token and row agree. |
| `DepositProtocol.WatchMoveKeeps` | backend/src/db.rs:786-821 | A watcher that classifies a stale row and overwrites the current one still leaves amount, received sum and covering sum consistent. |
| `DepositProtocol.OperatorKeeps` | backend/src/http.rs:2462-2520 | An operator write decided on an old read never lets a deposit be minted or served again. |
| `DepositProtocol.ReturnToMintingIsDead` | backend/src/workers/deposit.rs:118-131 | In every interleaving a delivering or ready deposit has its token, and the branch that sends a deposit without a token back to minting is never taken, however old the worker's read is. |
| `DepositProtocol.ServedIsReachable` | backend/src/db.rs:1295-1366 | The bounds are attained: a run exists that mints one token and serves it. |
| `DepositProtocol.RecordedExactly` | backend/src/workers/deposit.rs:75-107 | However old the row is that a refusal is decided on, its record fails the deposit exactly when that was the last attempt by the count that was read; a token is recorded as read and makes the deposit delivering. |
| `DepositHandlers.UndisturbedEvent` | backend/src/main.rs:1152-1254 | Without anything in between, the steps of a watcher pass, a worker tick, an expiry, an operator action or a pickup do to a deposit what the atomic handler does. |
| `DepositHandlers.LifeIsRun` | backend/src/workers/deposit.rs:59-154 | Every life of a deposit with atomic handlers, pickups aside, is a run of the interleaved tasks. |
| `DepositHandlers.BudgetIsServed` | backend/src/workers/deposit.rs:64-107 | Left alone, the interleaved worker makes a minting deposit ready after any number of refusals below the budget, and the pickup with its token is then served the token that was minted. |
| `DepositArchive.ArchivedLeavesExactly` | backend/src/db.rs:795-808 | From any state that satisfies the invariant, some continuation takes an archived deposit out of the archive if and only if a watcher entry, a worker entry or a pending operator action other than archiving is left on it from before. |
| `DepositArchive.QuietStep` | backend/src/db.rs:795-808 | No step touches a quiet archived deposit or makes anything start on it. |
| `DepositArchive.ArchivedIsRevived` | backend/src/main.rs:1153-1249 | A concrete run: the watcher reads a deposit, the operator fails and archives it, and the write of the watcher starts the minting. |
| `Deposits.DepositTable.ClaimPickup` | backend/src/db.rs:1295-1366 | Serves exactly when token, state, stored token and claim table allow it; returns the stored token, records the claim, and leaves a row no pickup token can claim; otherwise changes nothing. |
| `Deposits.DepositTable.UpdateChainState` | backend/src/db.rs:786-821 | Unguarded write: first txid kept, received sum never lowered, amount raised to the covering sum only when minting starts. |
| `Deposits.DepositTable.ExpireStalePending` | backend/src/db.rs:1128-1147 | Fails exactly the pending and partially paid rows not newer than the cutoff, leaves all others, and returns how many. |
| `Deposits.DepositTable.RecordMintSuccess` | backend/src/db.rs:1149-1176 | Stores token and amount, counts the attempt, moves the row on, touches no other row. |
| `Deposits.DepositTable.RecordMintFailure` | backend/src/db.rs:1178-1201 | Counts the attempt and stores state and error, touches no other row. |
| `Deposits.DepositTable.RecordDeliverySuccess` | backend/src/db.rs:1203-1225 | Moves the row to ready and counts the attempt, touches no other row. |
| `Deposits.DepositTable.RecordDeliveryFailure` | backend/src/db.rs:1227-1250 | Counts the attempt and stores state and error, touches no other row. |
| `Deposits.DepositTable.ManualUpdateState` | backend/src/db.rs:1090-1126 | Operator write: state and notes only, never the token or the amounts; reports a missing row. |
| `Deposits.NewDepositWaits` | backend/src/http.rs:1129-1155 | A new deposit is pending with nothing received, minted or tried. |
| `DepositWorker.Worker.MintPhase` | backend/src/workers/deposit.rs:59-108 | Every row found minting gets exactly one mint call, recorded by the rule that RefusedExactly and GrantedExactly characterise; all other rows stay. |
| `DepositWorker.Worker.DeliveryPhase` | backend/src/workers/deposit.rs:110-152 | Every delivering row becomes ready if its token is stored and follows the retry rule otherwise; all other rows stay. |
| `DepositWorker.Worker.Tick` | backend/src/workers/deposit.rs:59-154 | A tick is the mint phase followed by the delivery phase over the rows the first phase left. |
| `DepositWorker.OperateDeposit` | backend/src/http.rs:2449-2524 | Acts exactly when the state of the row permits the action and writes only that row. |
| `DepositWorker.OperatorExactly` | backend/src/http.rs:2449-2524 | Which states permit which action, and what each action writes. |
| `DepositWorker.RefusedExactly` | backend/src/workers/deposit.rs:84-107 | A refused mint call leaves the deposit minting if and only if an attempt is left, and otherwise fails it; it costs one attempt and stores the error, nothing else. |
| `DepositWorker.GrantedExactly` | backend/src/workers/deposit.rs:68-83 | A granted mint call makes the deposit ready within the tick, with the token and its amount stored and the errors cleared. |
| `DepositWorker.BudgetIsGranted` | backend/src/workers/deposit.rs:64-107 | After any number of refusals below the budget a granted call makes the deposit ready with that token, one call later. |
| `DepositWorker.BudgetRunsOut` | backend/src/workers/deposit.rs:84-107 | As many refusals as attempts are left fail it. |
| `DepositWorker.MissingTokenExactly` | backend/src/workers/deposit.rs:110-131 | A deposit read for delivery without its token returns to minting if and only if a delivery attempt is left, and otherwise fails. |
| `DepositWorker.NextIsOrderly` | backend/src/workers/deposit.rs:64-149 | One atomic event keeps the lifecycle order, never lowers the rank, leaves an archived deposit alone, and calls the mint only from the minting state. |
| `DepositWorker.LifeIsOrderly` | backend/src/workers/deposit.rs:64-107 | Over every life of a deposit, delivering or ready implies a stored token worth the amount, minting implies attempts left, and the mint is called at most `max_attempts` times. |
| `DepositWorker.RankNeverFalls` | backend/src/http.rs:2462-2520 | With atomic handlers, between any two moments of a life the rank does not fall, and archived is final; what interleaving makes of the latter is DepositArchive.ArchivedLeavesExactly. |
| `DepositWorker.ReturnToMintingIsDead` | backend/src/workers/deposit.rs:118-131 | The branch that sends a deposit without a token back to minting is never taken. |
| `Confirmations.CollectValid` | backend/src/main.rs:1165-1183 | The filter loop keeps exactly the transactions not confirmed well before the deposit was created, in order. |
| `Confirmations.ProcessConfirmations` | backend/src/main.rs:1152-1254 | A pass rewrites each open row by the classification of its own transactions and no other row. |
| `Confirmations.MintingExactly` | backend/src/main.rs:1203-1241 | Minting exactly when the confirmed transactions with height + target at most tip + 1 (any of them without a height in sight, at a target of one) reach the amount; partial exactly when all together do not; the covering sum is that sum and never exceeds the received sum. |
| `Confirmations.CoversExactly` | backend/src/main.rs:1206-1221 | Which transactions count, in terms of block heights and the tip. |
| `Confirmations.DepthMeaning` | backend/src/main.rs:1196-1208 | A confirmed transaction at height h is tip + 1 - h deep, one without a height or above the tip is one deep, an unconfirmed one not at all. |
| `Confirmations.ValidExactly` | backend/src/main.rs:1165-1183 | A transaction is left out exactly when it confirmed more than ten minutes before the deposit was created. |
| `Confirmations.ShownExactly` | backend/src/main.rs:1184-1208 | The confirmations shown are the target once minting starts and the greatest depth before; the txid is the last of those seen last. |
| `Confirmations.OrderIsIrrelevant` | backend/src/main.rs:1189-1241 | State, sums and confirmations do not depend on the order in which transactions are reported. |
| `Confirmations.PhaseGrowsWithTip` | backend/src/main.rs:1194-1241 | A higher tip never lowers the phase or the covering sum. |
| `Confirmations.PhaseGrowsWithObservations` | backend/src/main.rs:1193-1241 | One more valid transaction, wherever it is listed, never lowers the phase. |
| `WithdrawalProtocol.BoundedPayouts` | backend/src/workers/withdrawal.rs:76-153 | Over all interleavings, from any state that satisfies the invariant, the sends for one withdrawal number at most one plus the requeue writes on it; all pay the same amount, at most the request, within a twentieth of it, and less only for a token worth exactly the request; it is funded at most once, at most one of its redemptions is accepted, none is tried after consumption is recorded, and the recorded amount and fee pass validation again. |
| `WithdrawalProtocol.BoundedFromEmpty` | backend/src/workers/withdrawal.rs:76-153 | The same for every run that starts with an empty table. |
| `PayoutRuns.PaysAgainExactly` | backend/src/workers/withdrawal.rs:76-153 | From any state that satisfies the invariant, some continuation without a requeue of a withdrawal pays it once more if and only if it waits for its funding, or something has arrived to pay from and it is queued or with the worker, unless the worker has just paid it or is giving it up. |
| `PayoutRuns.RequeuePaysExactly` | backend/src/http.rs:2594-2616 | A pending requeue write makes a further payout possible if and only if something has arrived to pay from and the worker has not just paid the withdrawal or given it up without recording it. |
| `PayoutRuns.RunCredit` | backend/src/workers/withdrawal.rs:76-153 | Over every run the payouts of a withdrawal and the one still open grow by no more than its requeue writes. |
| `PayoutRuns.UnfundedIsNeverPaid` | backend/src/http.rs:2594-2616 | A withdrawal taken off funding before anything arrived is never paid, however often it is requeued. |
| `PayoutRuns.BoundIsExact` | backend/src/http.rs:2594-2616 | For every retry limit and every number of requeues a run attains the bound: a stale failure write overwrites a settled row, which makes the next requeue possible. |
| `WithdrawalFinality.SettledLeavesExactly` | backend/src/http.rs:2561-2592 | From any state that satisfies the invariant, some continuation takes a settled withdrawal out of that state if and only if an entry of the worker, a read of the watcher from when it was broadcasting, or a pending operator action other than marking it settled is left on it. |
| `WithdrawalFinality.ArchivedLeavesExactly` | backend/src/http.rs:2541-2637 | From any state that satisfies the invariant, some continuation in which the operator does not take an archived withdrawal up anew takes it out of the archive if and only if an entry of the worker, a read of the watcher with a transaction, or a pending operator action other than archiving is left on it. |
| `WithdrawalFinality.QuietStep` | backend/src/http.rs:2541-2637 | No step touches a quiet settled or archived withdrawal or makes anything start on it, an archived one taken up anew excepted. |
| `WithdrawalProtocol.SettledMovesExactly` | backend/src/http.rs:2561-2592 | A step moves a settled withdrawal if and only if it is the record of a failure or of a payout elsewhere, a decision of the watcher on an older row to wait, or a pending operator action other than marking it settled. |
| `PayoutRuns.SettledIsFailed` | backend/src/http.rs:2561-2592 | A run in which a withdrawal is paid and settled and a failure write decided before that turns it into a failed one. |
| `WithdrawalProtocol.RestingStart` | backend/src/main.rs:481-509 | A table whose rows are in order while the worker rests is such a state, broadcasting and confirming rows included. |
| `WithdrawalProtocol.HandOverKeeps` | backend/src/workers/withdrawal.rs:352-388 | The executor without an on-chain wallet, which leaves a redeemed withdrawal broadcasting, keeps the invariant. |
| `WithdrawalProtocol.StepKeeps` | backend/src/db.rs:491-521 | Every step of worker, callbacks, watcher and operator, on whatever snapshot, keeps the per-withdrawal invariant relating sends, requeues, fundings, the stored value and what the worker holds. |
| `WithdrawalProtocol.ConsumptionIsFinal` | backend/src/db.rs:523-545 | No step clears the consumed flag or changes the stored amount or fee once it is set. |
| `WithdrawalProtocol.StoredValueIsFixed` | backend/src/db.rs:523-545 | Consumed flag, stored amount and stored fee are the same at the end of every longer run. |
| `WithdrawalProtocol.ArchivedMovesExactly` | backend/src/http.rs:2541-2637 | A step moves an archived withdrawal if and only if it is the record of an attempt on it, a decision of the watcher on an older row, or a pending operator action other than archiving. |
| `WithdrawalProtocol.FundingMoveKeeps` | backend/src/workers/withdrawal.rs:155-245 | A funding pass that decides on a stale row and writes through the guarded statement funds a withdrawal at most once and with at least the request. |
| `WithdrawalProtocol.CallbackKeeps` | backend/src/http.rs:1927-1948 | The locked record step of any number of callbacks in flight keeps the invariant: one funding, by a token that covers the request. |
| `WithdrawalProtocol.WatchKeeps` | backend/src/main.rs:1274-1305 | A settlement write decided on a stale row keeps the invariant. |
| `WithdrawalProtocol.OperatorKeeps` | backend/src/http.rs:2538-2637 | An operator write decided on a stale row keeps the invariant, a requeue paying for one more send. |
| `WithdrawalHandlers.RecordedExactly` | backend/src/workers/withdrawal.rs:90-151 | However the row has changed meanwhile, a payout is recorded settled with its transaction, and a failure puts the row back into the queue exactly when an attempt is left by the count that was read. |
| `WithdrawalHandlers.StaleFunding` | backend/src/workers/withdrawal.rs:169-245 | However old the row is that a funding pass decides on, only a row that still waits is touched; it fails exactly when the invoice read is past its expiry, and is queued with at least the request exactly when it is not and is paid. |
| `WithdrawalHandlers.UndisturbedFunding` | backend/src/workers/withdrawal.rs:155-245 | Without anything in between, read and write of a funding pass are the atomic pass. |
| `WithdrawalHandlers.UndisturbedPayment` | backend/src/http.rs:1720-1948 | Without anything in between, check and record of a payment are the atomic handler. |
| `WithdrawalHandlers.UndisturbedWatch` | backend/src/main.rs:1259-1307 | Without anything in between, read and write of the settlement watcher are the atomic pass. |
| `WithdrawalHandlers.HandedOverIsRecorded` | backend/src/workers/withdrawal.rs:352-388 | Without an on-chain wallet a redeemed withdrawal ends broadcasting with its value stored and nothing sent. |
| `Solvency.SolventExactly` | backend/src/http.rs:1348-1388 | With atomic handlers and whatever balance the wallet reports, a run is solvent after every prefix, what the active withdrawals are owed being covered by the balance plus the miner fees paid, if and only if every admission, every requeue and every payment by hand is harmless in the state it is made. |
| `Solvency.RequeueKeepsExactly` | backend/src/http.rs:2594-2616 | A permitted requeue keeps solvency if and only if the withdrawal still holds its reservation or what it is due fits in what nobody else is owed. |
| `Solvency.StepKeepsExactly` | backend/src/http.rs:2003-2026 | Each handler keeps solvency if and only if it is harmless: an admission, a requeue without a reservation and a payment by hand are when the amount fits in what nobody is owed, all other handlers always are. |
| `Solvency.UndisturbedIsSolvent` | backend/src/http.rs:1348-1388 | A run without a requeue and without a payment by hand is solvent throughout if and only if each admission fits. |
| `Solvency.InformedIsSolvent` | backend/src/http.rs:1348-1388 | In particular it is when no admission is told more than the real balance. |
| `Solvency.LastSyncIsEnough` | backend/src/onchain/mod.rs:266-279 | The balance of the last sync, which is what the wallet reports, is at most the real one if and only if no more has been spent since than received, and then an admission told it fits. |
| `Solvency.Handle` | backend/src/workers/withdrawal.rs:76-153 | Each step of the solvency machine is what the corresponding handler method does to the table and the wallet. |
| `Solvency.Conservation` | backend/src/workers/withdrawal.rs:443-460 | Every satoshi received is still in the wallet, went to a miner or was paid out, over every run. |
| `Solvency.WorkedKeeps` | backend/src/workers/withdrawal.rs:415-460 | Redeeming and paying one queued withdrawal lowers the debt at least as much as the balance, fees aside. |
| `Solvency.TickKeeps` | backend/src/workers/withdrawal.rs:76-153 | A whole tick, funding pass included, keeps solvency. |
| `Solvency.RequestKeepsExactly` | backend/src/http.rs:1348-1388 | An admission, told any balance, keeps solvency if and only if what it grants fits in what nobody is owed. |
| `Solvency.RequestKeeps` | backend/src/http.rs:1348-1388 | It does whenever the balance it is told is at most the real one, because the cap bounds it by what is unreserved. |
| `Solvency.RequeueBreaksSolvency` | backend/src/http.rs:2594-2616 | A concrete run: after four steps, the last a requeue, twice the balance is owed. |
| `Solvency.PaymentByHandBreaksSolvency` | backend/src/http.rs:2003-2026 | A concrete run: a request is admitted, and a payment by hand takes half of what it reserves. |
| `Solvency.StaleBalanceBreaksSolvency` | backend/src/onchain/mod.rs:168-184 | A concrete run of atomic handlers: the balance is admitted, paid out, and admitted again on the report of the last sync, because a payout is not entered in the local database of the wallet. |
| `Solvency.SettledIsFinal` | backend/src/http.rs:2541-2637 | With atomic handlers no step changes a settled withdrawal. |
| `Solvency.ArchivedStaysExactly` | backend/src/http.rs:2541-2573 | With atomic handlers an archived withdrawal stays archived through a run if and only if no step marks it settled or failed. |
| `Solvency.ArchivedIsSettled` | backend/src/http.rs:2541-2559 | A concrete run in which a failed and archived withdrawal ends up settled. |
| `SolvencyProtocol.SolventExactly` | backend/src/workers/withdrawal.rs:79-150 | In every interleaving of admissions, worker, callbacks, watcher, operator and payments by hand, each of their reads and writes a step of its own, and whatever balance the wallet reports, a run is solvent after every prefix if and only if each insert, each payout, each payment by hand and each write that makes a withdrawal active again meets its guard in the state it is made. |
| `SolvencyProtocol.MoveKeepsExactly` | backend/src/workers/withdrawal.rs:79-150 | One step keeps solvency if and only if its guard holds; all other steps always do. |
| `SolvencyProtocol.PayKeepsExactly` | backend/src/workers/withdrawal.rs:443-460 | A payout keeps solvency if and only if its withdrawal still holds its reservation or the amount fits in what nobody else is owed, however old the read is that the worker acts on. |
| `SolvencyProtocol.RecordKeepsExactly` | backend/src/workers/withdrawal.rs:115-150 | Recording an attempt keeps solvency if and only if it leaves the withdrawal inactive, or it was active already, or what it is due fits. |
| `SolvencyProtocol.OperatorKeepsExactly` | backend/src/http.rs:2538-2637 | An operator write decided on a stale row keeps solvency if and only if it is no requeue, or the withdrawal still holds its reservation, has just been paid, or fits. |
| `SolvencyProtocol.InsertKeepsExactly` | backend/src/http.rs:1520-1526 | Inserting an admitted row keeps solvency if and only if its amount fits in what nobody is owed at that moment, however old the check is. |
| `SolvencyProtocol.UndisturbedIsSolvent` | backend/src/http.rs:1348-1526 | Without operator actions and payments by hand, none pending either, a run is solvent throughout if and only if every insert fits: worker, callbacks and watcher cannot overbook. |
| `Overbooking.StaleAdmissionBreaksSolvency` | backend/src/http.rs:1348-1526 | A run of six steps from an empty shop in which two requests are both granted the whole balance. |
| `Overbooking.DelayedPaymentBreaksSolvency` | backend/src/workers/withdrawal.rs:79-113 | A run in which the operator fails a withdrawal that the worker has read, a new request takes its place, and the worker pays the old one: no requeue, no payment by hand, no stale admission. |
| `Overbooking.DelayedFailureBreaksSolvency` | backend/src/workers/withdrawal.rs:115-150 | The same with an attempt that fails: its record puts the failed withdrawal back into the queue. |
| `SolvencyProtocol.UndisturbedAdmission` | backend/src/http.rs:1348-1526 | Without anything in between, the three steps of an admission are the atomic handler. |
| `SolvencyProtocol.UndisturbedWork` | backend/src/workers/withdrawal.rs:79-150 | Without anything in between, redeeming, consuming, sending and recording are the atomic work on one queued withdrawal. |
| `SolvencyProtocol.UndisturbedOperator` | backend/src/http.rs:2525-2637 | Without anything in between, read and write of an operator action are the atomic handler. |
| `SolvencyProtocol.SolventBook` | backend/src/http.rs:1348-1526 | Except between a send and its record, solvency here is solvency of the table and the wallet. |
| `WithdrawalLife.ExecutionsBounded` | backend/src/workers/withdrawal.rs:115-150 | Over every run a withdrawal is worked on at most `max_attempts` times per requeue and once more that often, and fewer while it is queued. |
| `WithdrawalLife.LeavesQueue` | backend/src/workers/withdrawal.rs:115-150 | A withdrawal that is queued after every step of a run has seen fewer ticks than it had attempts left: it leaves the queue within `max_attempts` ticks. |
| `WithdrawalLife.RunTimely` | backend/src/workers/withdrawal.rs:115-150 | In every run from an empty table every row is one to which these bounds apply. |
| `WithdrawalAttempts.ExecutionsBounded` | backend/src/workers/withdrawal.rs:115-150 | In every interleaving the worker starts to work on a withdrawal at most `max_attempts` times per requeue write and once more that often, whatever it has read. |
| `WithdrawalAttempts.RunInTime` | backend/src/workers/withdrawal.rs:115-150 | In every interleaved run from an empty table every row is one to which that bound applies. |
| `WithdrawalLife.StepRow` | backend/src/workers/withdrawal.rs:115-150 | A tick that finds a withdrawal queued uses one of its attempts, a requeue gives all back, and nothing else changes them. |
| `WithdrawalLife.WorkedExactly` | backend/src/workers/withdrawal.rs:90-151 | Work on a queued withdrawal settles it if and only if it is redeemed and sent; otherwise it stays queued if and only if an attempt is left, and fails if none is. |
| `WithdrawalLife.BudgetIsGranted` | backend/src/workers/withdrawal.rs:115-150 | A withdrawal that cannot be redeemed stays queued through every run with fewer ticks than it has attempts left. |
| `Withdrawals.WithdrawalTable.RecordPaymentRequestTokenLocked` | backend/src/db.rs:628-700 | Recorded exactly when the row is funding and the capacity check holds in exact arithmetic; then all reservations with this row at its token value, plus that value again, fit in the balance, and the inner subtraction does not saturate; every other outcome changes nothing. |
| `Withdrawals.CapAtMostAvailable` | backend/src/http.rs:1361-1368 | The cap on one request never exceeds the unreserved balance. |
| `Withdrawals.CapExactly` | backend/src/http.rs:1361-1368 | The cap is the largest whole amount within the ratio of what is available. |
| `Withdrawals.FitsExactly` | backend/src/db.rs:628-700 | The capacity check, in cross-multiplied form: the value is within the ratio of what the reservations, with this row at that value, leave. |
| `Withdrawals.WithdrawalTable.RecordAttempt` | backend/src/db.rs:491-521 | Unguarded write of state, error and attempt count; value and txid replaced only when given. |
| `Withdrawals.WithdrawalTable.RecordTokenConsumed` | backend/src/db.rs:523-545 | Sets the consumed flag with amount and fee, touches nothing else. |
| `Withdrawals.WithdrawalTable.RecordLightningFunded` | backend/src/db.rs:586-609 | Guarded: changes exactly a funding row, which becomes queued, consumed and valued. |
| `Withdrawals.WithdrawalTable.MarkInvoiceExpired` | backend/src/db.rs:611-626 | Guarded: fails exactly a funding row with a Lightning quote. |
| `Withdrawals.WithdrawalTable.UpdateChainState` | backend/src/db.rs:433-455 | Unguarded write of the state alone. |
| `Withdrawals.WithdrawalTable.ManualUpdateState` | backend/src/db.rs:457-489 | Unguarded operator write of state, txid and error, resetting the attempts on request. |
| `Admission.RequestWithdrawal` | backend/src/http.rs:1278-1529 | Accepts exactly the well-formed requests within the cap, appends the row its funding variant calls for, and then all reservations with the new one fit in the balance; a refusal changes nothing. |
| `Admission.WellFormedExactly` | backend/src/http.rs:1278-1518 | A request is in order exactly when it names an address and an amount and comes with one complete way of funding it. |
| `Admission.RequestCapExactly` | backend/src/http.rs:1348-1388 | An amount is within the cap exactly when it is within the ratio of the balance less all reservations. |
| `Admission.SubmitPaymentRequest` | backend/src/http.rs:1720-1948 | Accepts exactly when the handler checks and the locked capacity check hold; only then the row changes. |
| `Admission.OperateWithdrawal` | backend/src/http.rs:2526-2637 | Acts exactly when the state of the row permits the action and writes only that row. |
| `Admission.OperatorExactly` | backend/src/http.rs:2526-2637 | Which states permit which action, and what each action writes. |
| `Admission.ProcessSettlements` | backend/src/main.rs:1259-1307 | A pass moves each tracked row by the status of its own txid and no other row. |
| `Admission.WatchedExactly` | backend/src/main.rs:1259-1307 | A tracked withdrawal is settled exactly when its transaction has confirmed, a broadcast one confirms exactly when it is seen, and nothing else changes. |
| `WithdrawalWorker.Worker.Execute` | backend/src/workers/withdrawal.rs:415-460 | Validates a stored value or redeems, stores the consumption before anything is sent, and sends the smaller of value and request; says what table and wallet hold on every failure. |
| `WithdrawalWorker.Worker.TickFunding` | backend/src/workers/withdrawal.rs:155-245 | Each funding row is expired, credited with the largest of issued, paid and requested, or left, by its own quote. |
| `WithdrawalWorker.FundingExactly` | backend/src/workers/withdrawal.rs:155-245 | A funding row fails if and only if its quote is unpaid past its expiry, and is queued if and only if it is not and the quote is paid or issued with something to credit; what is credited is at least issued, paid and request, and one of them; in every other case the row stays. |
| `WithdrawalWorker.Worker.WorkOn` | backend/src/workers/withdrawal.rs:90-151 | One queued withdrawal ends settled, queued again or failed by the retry budget, with the wallet debited exactly on success. |
| `WithdrawalWorker.Worker.Tick` | backend/src/workers/withdrawal.rs:76-153 | The funding pass followed by the rows it left queued, in order, each worked on as it was read. |
| `Redemption.Redeem` | backend/src/workers/withdrawal.rs:280-326 | A canonical token is received as is; a foreign one is redeemed exactly when its swap succeeds, within the loss limit; the fee reported is the value missing from the token. |
| `Redemption.PayoutBounds` | backend/src/workers/withdrawal.rs:443-482 | A validated redemption pays something, at most the request and the redeemed value, loses at most a twentieth, and nothing below twenty satoshi. |
| `Redemption.ShortfallAcceptedExactly` | backend/src/workers/withdrawal.rs:464-482 | A shortfall passes exactly when the token was worth the request and the loss is within the limit. |
| `Swap.SwapToCanonical` | backend/src/wallet/swap.rs:53-175 | Against any mint: at most 33 quote pairs within the loss limit, each shrunk by what the last quote left; the one payment is the one the reference names and fits in the proofs; success if and only if it is paid and issued to the satoshi; every error is explained by the replies or by the loss of the next invoice. |
| `Swap.SteadyMintSucceeds` | backend/src/wallet/swap.rs:53-175 | Against a mint with a constant reserve that delivers, the conversion succeeds if and only if input fee and reserve leave something and together take at most a twentieth, and it pays exactly what they leave. |
| `Swap.ValidConversionExactly` | backend/src/wallet/swap.rs:295-306 | A conversion is accepted exactly when it yields something, gains nothing and loses at most a twentieth. |
| `Swap.RefusedExactly` | backend/src/wallet/swap.rs:53-76 | Which check refuses a conversion before any quote, and with which error. |
| `Swap.Convert` | backend/src/wallet/swap.rs:53-175 | The checks, the quote loop and the payment in the order of the source. |
| `Swap.ConvertedPays` | backend/src/wallet/swap.rs:77-135 | Whatever the quote loop did, it paid what the reference pays. |
| `Swap.ConvertedExplains` | backend/src/wallet/swap.rs:53-175 | Each error names its cause: a failed check, the answer to the last quote pair, the next invoice that would lose too much, or the outcome of the payment. |
| `Swap.ConvertedAffords` | backend/src/wallet/swap.rs:111-135 | The payment is the last invoice quoted; invoice, reserve and input fee fit in the proofs, or the proofs are worth u64::MAX. |
| `Swap.ConvertedInTwo` | backend/src/wallet/swap.rs:83-135 | Two quote pairs are enough against a mint whose reserve never falls when the invoice grows. |
| `Swap.Negotiate` | backend/src/wallet/swap.rs:77-135 | The quote loop with its saturating arithmetic ends with an affordable payment, an unanswered or hopeless quote, an unacceptable invoice, or after 33 pairs. |
| `Swap.Lowered` | backend/src/wallet/swap.rs:117-133 | The shrunk invoice is exactly what the reserve leaves and strictly below the last one; the guard against a stuck target never fires. |
| `Swap.ReductionIsStrict` | backend/src/wallet/swap.rs:114-124 | Even where sums saturate, an unaffordable quote lowers the target strictly. |
| `Swap.TargetsDecrease` | backend/src/wallet/swap.rs:83-135 | The quoted invoices strictly decrease over a whole call. |
| `Swap.TwoSuffice` | backend/src/wallet/swap.rs:83-135 | A third quote pair proves that the mint asked a larger reserve for a smaller invoice. |
| `Swap.ReferenceConcludes` | backend/src/wallet/swap.rs:77-175 | The loop with saturation and fallbacks and the reference without them agree on whether and what to pay. |
| `Swap.CoveredMeaning` | backend/src/wallet/swap.rs:111-114 | The saturating affordability check passes exactly when the sum fits in the total or the total is u64::MAX; only in that one case saturation hides an overflow. |
| `Swap.SaturationOverspends` | backend/src/wallet/swap.rs:111-114 | At that total a payment is attempted that takes one satoshi more than there is. |
| `ForeignWallet.ProofIsolation` | backend/src/wallet/swap.rs:178-232 | For any number of interleaved conversions in one wallet, the proofs captured for any one of them are disjoint from all the wallet held before, sum to the amount received, and are disjoint from those of every other. |
| `ForeignWallet.ReceiveKeeps` | backend/src/wallet/swap.rs:178-196 | The critical section of a receive keeps the isolation invariant. |
| `ForeignWallet.StepKeeps` | backend/src/wallet/swap.rs:198-232 | Receives, melts with change, and any other wallet operation keep the isolation invariant. |
| `ForeignWallet.CapturedIsNew` | backend/src/wallet/swap.rs:308-322 | What the capture selects was added by this very receive. |
| `ForeignWallet.ReceivedProofs` | backend/src/wallet/swap.rs:308-322 | The loop returns the proofs not held before, exactly when there are some and they sum to the amount received. |
| `ForeignWallet.SharedWallet.ReceiveForeignToken` | backend/src/wallet/swap.rs:178-196 | Snapshot, receive and capture under one lock are the receive step of the machine. |
| `ForeignWallet.SharedWallet.ConfirmMelt` | backend/src/wallet/swap.rs:198-232 | Nothing happens unless the mint confirms every proof unspent and the melt is prepared; the payment counts exactly when the mint reports it paid, and then the proofs have left the wallet and the change has joined it. |
| `MintReplies.RequireUnspentIsExact` | backend/src/wallet/swap.rs:324-338 | The set comparisons accept exactly the replies that are a bijection with distinct keys, all unspent (NUT-07). |
| `MintReplies.VerifyStateResponse` | backend/src/bin/m5_recover.rs:632-644 | The loop accepts exactly the replies that are a bijection with distinct keys, all in the expected state. |
| `MintReplies.States` | backend/src/bin/m5_recover.rs:154-183 | Over batches of 100, success exactly when the keys are distinct and every batch was answered by a bijection with final states; the result maps exactly the keys, each to its reply. |
| `MintReplies.CollectBatch` | backend/src/bin/m5_recover.rs:165-179 | One batch joins the result exactly when it is accepted reply by reply. |
| `MintReplies.AcceptedIsExact` | backend/src/bin/m5_recover.rs:165-179 | Checking reply by reply is the same as a bijection with keys not answered before. |
| `MintReplies.Pigeonhole` | backend/src/bin/m5_recover.rs:632-644 | Distinct replies to asked keys, as many as keys, force a bijection and distinct keys. |
| `Inventory.Classify` | backend/src/bin/m5_recover.rs:262-278 | Succeeds exactly when every entry is clear and both sums fit in 64 bits, with live and stale value summed exactly. |
| `Inventory.EntryExactly` | backend/src/bin/m5_recover.rs:262-278 | The five clear pairs of wallet and mint state, and which of them count as live and as stale. |
| `Inventory.LiveIsUnspentAtMint` | backend/src/bin/m5_recover.rs:262-278 | In a classified inventory the mint state alone selects the live value. |
| `Inventory.LoadLive` | backend/src/bin/m5_recover.rs:305-341 | Returns the wanted rows, all of them plain and with the key of their secret, exactly when count and sum agree with the plan. |
| `Inventory.UnchangedInventoryLoads` | backend/src/bin/m5_recover.rs:305-341 | For a classified inventory with distinct keys whose rows are unchanged, the set selected by mint state has the right size and sums to the live value. |
| `Recovery.Execute` | backend/src/bin/m5_recover.rs:377-631 | Against any mints: every effect passes the audit; the trace holds at most 8 payments, 8 issues and 128 quote pairs; only the first payment can fail the budget check made before paying and the last check cannot fail; a completed run has live = credited + remaining + loss with the loss in budget; and the result is the one its rounds lead to. |
| `RecoveryOutcome.SmoothRunSucceeds` | backend/src/bin/m5_recover.rs:377-631 | A run against a mint with a constant reserve, in which all goes well and no change comes back, credits exactly live - fee - reserve and keeps nothing if that loss is in budget, and otherwise stops before paying. |
| `RecoveryOutcome.SteadyChoice` | backend/src/bin/m5_recover.rs:449-503 | Against a mint with a constant reserve a round chooses exactly total - fee - reserve if that is positive and the loss in budget; it stops over budget if it is not in budget, and finds no quote if nothing is left. |
| `RecoveryOutcome.ChosenIsFitted` | backend/src/bin/m5_recover.rs:449-503 | Against any mints the chosen invoice takes everything above the input fee or exactly what the reserve of the pair before it left, and fits at its own quote. |
| `RecoveryOutcome.AdvancesExactly` | backend/src/bin/m5_recover.rs:428-563 | A round leads to the next if and only if inputs, choice, payment, report, issue and budget are all as they should; then the credit grows by the invoice chosen and the change is carried on. |
| `RecoveryOutcome.HaltsExactly` | backend/src/bin/m5_recover.rs:428-563 | Which replies end a run with each of the errors that concern its money, and that it finishes exactly when the next round finds no quote. |
| `RecoveryOutcome.FirstReportDecides` | backend/src/bin/m5_recover.rs:512-533 | Of the first thirty reports the first that is not unpaid decides. |
| `RecoveryOutcome.StartsExactly` | backend/src/bin/m5_recover.rs:377-427 | A run starts if and only if the budget is at most a twentieth, the plan is current before and after the backup, the inventory is the planned one, and the directory is new and holds the backup. |
| `RecoveryOutcome.ClosesExactly` | backend/src/bin/m5_recover.rs:564-631 | The books close if and only if the clean-up and its transaction succeed and the wallet holds what is tracked. |
| `Recovery.PaymentTargetExactly` | backend/src/bin/m5_recover.rs:362-367 | A target exists exactly when fee and reserve leave something, and it takes all of it. |
| `Recovery.EffectsCounted` | backend/src/bin/m5_recover.rs:443-563 | In every audited trace there is one payment and one issue for each announcement, except that the last may not have got so far; quote pairs are counted exactly. |
| `Recovery.BudgetFailsOnlyByExcess` | backend/src/bin/m5_recover.rs:558-559 | After a payment the loss is always within budget: the check at the end of a round, once reached, refuses if and only if the mint returned more than there was at the start. |
| `Recovery.RunFailsOnlyByExcess` | backend/src/bin/m5_recover.rs:558-559 | A whole run stops for that check only in a round in which the mint returned too much. |
| `Recovery.PlayRound` | backend/src/bin/m5_recover.rs:428-563 | One round leads to the position the reference names or ends the run. |
| `Recovery.RequestPair` | backend/src/bin/m5_recover.rs:450-484 | One quote at each mint, each journaled before it is used. |
| `Recovery.TryInvoice` | backend/src/bin/m5_recover.rs:449-500 | One attempt at an invoice: lowered to what the reserve leaves, refused by the budget, or chosen. |
| `Recovery.Round` | backend/src/bin/m5_recover.rs:428-563 | One round ends as the reference says, keeps the audit, and leaves the budget invariant for the next. |
| `Recovery.ChooseQuote` | backend/src/bin/m5_recover.rs:449-503 | The quote search makes at most 16 pairs and chooses an invoice covered by the inputs and within budget, the one the reference finds. |
| `Recovery.MeltRound` | backend/src/bin/m5_recover.rs:504-527 | The payment is announced with quotes, inputs, target and proofs before it is confirmed. |
| `Recovery.IssueRound` | backend/src/bin/m5_recover.rs:528-563 | The paid quote is issued only after its journal entry, checked to the satoshi, and the budget holds again; how often is in Recovery.EffectsCounted. |
| `Recovery.PayRounds` | backend/src/bin/m5_recover.rs:427-564 | At most eight rounds, each starting from the change and credit of the last. |
| `Recovery.AwaitPaid` | backend/src/bin/m5_recover.rs:529-547 | Reports paid exactly when one of thirty polls does and all before it were unpaid. |
| `Recovery.CleanUp` | backend/src/bin/m5_recover.rs:565-631 | The books close exactly when the clean-up commits and the wallet holds the tracked remainder, and then balance. |
| `Recovery.JournalIsWriteAhead` | backend/src/bin/m5_recover.rs:405-408 | At every crash point announced payments exceed completed rounds by at most one, and the last reported credit is the sum of the completed targets. |
| `Recovery.PaymentWasAnnounced` | backend/src/bin/m5_recover.rs:504-518 | Every payment follows a journal entry with both its quotes and the proofs it spends. |
| `Recovery.PaymentWithinBudget` | backend/src/bin/m5_recover.rs:491-500 | Every announced payment leaves the loss in budget even if nothing comes back, and its journaled quote, reserve and input fee are covered by the inputs. |
| `Recovery.PrefixAudited` | backend/src/bin/m5_recover.rs:93-104 | What passes the audit passes it at every point where the process may die. |
| `Recovery.WalletRoot.Invoke` | backend/src/bin/m5_recover.rs:679-705 | A lock refuses the run; a run that fails or dies keeps its lock; a refused run has no effect. |
| `Recovery.InvokeAll` | backend/src/bin/m5_recover.rs:693-703 | After a run that failed or died no later invocation has any effect. |
| `AddressPool.NoAddressTwice` | backend/src/address.rs:66-77 | Over all interleavings of assignments and refills no address is granted twice and no two rows share an address or a derivation index. |
| `AddressPool.AllocationIsFinal` | backend/src/db.rs:761-774 | An allocated address stays with its deposit through every run. |
| `AddressPool.Pool.EnsureCapacity` | backend/src/address.rs:27-64 | A lone refill ends with the target reached, or at the first index the factory cannot derive; it appends available rows at consecutive new indices and skips only those whose address is in the table; a full pool is left alone. |
| `AddressPool.Pool.Refill` | backend/src/address.rs:40-63 | The refill loop terminates by missing addresses, then by old addresses still ahead. |
| `AddressPool.ConflictUsesOneUp` | backend/src/address.rs:51-61 | With injective derivation each conflict uses up one of the finitely many old addresses ahead. |
| `AddressPool.Pool.AssignAddress` | backend/src/address.rs:66-77 | Undisturbed, the deposit gets the free address with the lowest index of the table as it was, or, if that had none, of the table refilled to the target; nothing else changes. |
| `AddressPool.Pool.InsertAddress` | backend/src/db.rs:721-737 | Inserts exactly when the address is new. |
| `AddressPool.Pool.ClaimAddress` | backend/src/db.rs:761-774 | Allocates exactly an available row. |
| `AddressPool.NextIndexExactly` | backend/src/db.rs:709-719 | The next index is one above the largest in use. |
| `AddressPool.UndisturbedClaim` | backend/src/address.rs:66-77 | In the interleaved machine too, an assignment left alone grants the free row with the lowest index. |
| `AddressPool.UndisturbedInsert` | backend/src/address.rs:40-63 | One round of an interleaved refill does what one iteration of its loop does. |
| `Burst.Serve` | backend/src/http.rs:841-919 | With a clock that does not run backwards, no client is granted more than five sessions and no subnet more than eleven in any closed window of 300 seconds, however many calls are rejected; and every call of the log is accepted if and only if it is at most the fifth counted for its client and the eleventh for its subnet in the 300 seconds up to it. |
| `Burst.BurstCounter.StartSession` | backend/src/http.rs:841-919 | Accepted exactly when the pruned buckets of client and subnet, this call included, are below their limits; a call is counted for its client, and for its subnet only if the client had room, and for nobody else. |
| `Burst.BurstCounter.DetectBurst` | backend/src/http.rs:1567-1577 | Prunes and extends one bucket, returns its size, and leaves all other buckets. |
| `Burst.BucketIsWindow` | backend/src/http.rs:1567-1577 | The pruned bucket is the part of the whole call history in the window. |
| `Burst.BelowLimit` | backend/src/http.rs:845-888 | If every accepted call found room in its buckets, a client or subnet is granted fewer sessions than its limit in any window. |
| `Burst.RoomyBelowLimit` | backend/src/http.rs:1567-1577 | Of the calls counted in one bucket, in the order they reach it, fewer than the limit find room in any window, whatever happens to the other buckets in between. |
| `Burst.LimitedIsExact` | backend/src/http.rs:845-888 | In every log in which the buckets decide, each decision is the one by the counts of the last 300 seconds. |
| `Burst.KeysDiffer` | backend/src/http.rs:1572-1572 | The bucket keys of different clients and subnets differ. |
| `Base58.DecodeBase58` | frontend/src/lib/bitcoin.ts:10-36 | The accumulate, split and fill loops compute one zero byte per leading 1 followed by the big-endian bytes, or nothing for an empty or foreign string. |
| `Base58.BuildMap` | frontend/src/lib/bitcoin.ts:4-8 | The table filled from the alphabet holds exactly its letters, each with its position. |
| `Base58.AlphabetLists` | frontend/src/lib/bitcoin.ts:4-4 | The alphabet lists the letters of the digits 0 to 57 in order. |
| `Base58.DecodeEncode` | frontend/src/lib/bitcoin.ts:10-36 | Decoding the encoding gives the bytes back, for all bytes but the empty string, where the decoder refuses. |
| `Base58.EncodeDecode` | frontend/src/lib/bitcoin.ts:10-36 | Encoding the decoding gives the string back. |
| `Base58.DecodingIsInjective` | frontend/src/lib/bitcoin.ts:10-36 | No two strings decode to the same bytes. |
| `Base58.Canonical` | frontend/src/lib/bitcoin.ts:14-36 | Leading zeros apart, a number determines its digits in any base. |
| `Base58.LeadingOnes` | frontend/src/lib/bitcoin.ts:30-30 | Leading ones are exactly the leading zero digits. |
| `ClaimCode.NormalizeClaimCode` | backend/src/http.rs:3178-3198 | The filter loop computes the specified normal form, or nothing. |
| `ClaimCode.NormalizedMeaning` | backend/src/http.rs:3178-3198 | An input resumes a payload exactly when its letters, case and separators and an optional prefix aside, are that payload. |
| `ClaimCode.RoundTrip` | backend/src/http.rs:3151-3160 | Normalising the code of a payload gives the payload. |
| `ClaimCode.SpellingIsIrrelevant` | backend/src/http.rs:3184-3193 | Two spellings with the same digits, case and separators aside, normalise alike. |
| `ClaimCode.SeparatorsAreIrrelevant` | backend/src/http.rs:3184-3188 | Inserting dashes and whitespace anywhere changes nothing. |
| `ClaimCode.ResumeIsStable` | backend/src/http.rs:930-961 | The token rebuilt from any accepted code is accepted unchanged, and token and code both lead back to the same payload. |
| `ClaimCode.TokenIsCanonical` | backend/src/http.rs:3162-3176 | Every accepted header value normalises to one spelling of a token, which is a fixed point. |
| `ClaimCode.GroupedLayout` | backend/src/http.rs:3151-3160 | Every ninth character of a code is a dash and the rest keep their order. |

## Left out

- User interface, API client, JSON and CBOR shapes, routing, authentication, webhooks, metrics, support cases: no state of the modelled protocols.
- CDK, BDK, sqlx, Electrum and Esplora: oracles with the replies their callers inspect.
- One backend process is assumed, and no crash or database error between an external effect and the write that records it; a failed send or mint is assumed to have had no effect. The recovery run is the exception: it is proved for a crash after any effect.
- A successful mint call is assumed to hand out a token worth the amount asked for.
- Operation modes: a mode other than normal refuses admissions; a halted worker is one that takes no step. Escalation between modes is not modelled.
- WithdrawalProtocol.BoundedPayouts: a receive that the mint performed and validation refused is not counted as a redemption, because the code stores nothing about it and tries again; only accepted redemptions are at most one.
- WithdrawalWorker.Worker.Tick: delivery addresses, fee rates and the mock executor are left out, because they do not influence amounts or states; the executor without an on-chain wallet is a step of WithdrawalProtocol.
- Admission.RequestWithdrawal: the burst alert and the session lookup are left out, because they refuse nothing or concern another table.
- Withdrawals.CapAtMostAvailable: the cap ratio is a rational from 0 to 1 instead of a 64-bit float, because rounding is not the point of the cap.
- Deposits.DepositTable.UpdateChainState: sums are unbounded and amounts stay below 2^63, because the total supply is far below; the casts to i64 are not modelled.
- Confirmations.OrderIsIrrelevant: the displayed txid is excluded, because it does depend on the order among equal times; it is the last element of a stable sort.
- Swap.SwapToCanonical: polling the canonical mint until it issues is one reply, because waiting changes no amount; the foreign wallet's own bookkeeping is in ForeignWallet.
- ForeignWallet.SharedWallet.ReceiveForeignToken: the wallet is assumed to create proofs under keys it has never held, because their secrets are random.
- MintReplies.States: keys are taken after lower-casing, and HTTP and JSON failures are a missing reply.
- Inventory.LoadLive: whether a stored Y is that of its secret is a field of the row, because hashing is a library call.
- Recovery.Execute: the plan fingerprint, the backup and the audit of old operations are single booleans of the world, because each is a comparison of files or rows.
- Recovery.AwaitPaid: waiting times and the 120 second timeout are left out; a timeout is a reply that is not paid.
- AddressPool.Pool.EnsureCapacity: derivation indices are unbounded and derivation is assumed injective; the mock factory is one such function.
- AddressPool.Pool.AssignAddress: the retry after a lost claim appears only in the interleaved machine, where any number of tasks fetch and claim.
- PayoutRuns.PaysAgainExactly: for a withdrawal that waits for a token the reservations of the table, with its own counted twice, must fit in 64 bits, because the capacity check could otherwise refuse every token; satoshi amounts never come near.
- SolvencyProtocol.SolventExactly: an admission reads balance and reservations in two steps and checks the capacity with the second; the mint quote in between is part of the insert.
- Solvency.SolventExactly: the local database of the wallet is not part of the state; the balance an admission is told is a parameter, any number whatever, so every report of an unsynced wallet is covered.
- Burst.Serve: the clock is assumed not to run backwards in lock order, and subtraction on timestamps does not saturate; a session start is one step, so the bound for clients and subnets together assumes that two starts reach both buckets in the same order. Each bucket alone keeps its bound in any order, which is Burst.RoomyBelowLimit.
- Burst.BurstCounter.StartSession: the two counts of one call share one timestamp and one step, although each takes the lock and reads the clock on its own, so concurrent calls may order the two buckets differently.
- ClaimCode.RoundTrip: upper-casing is the one of ASCII, because payloads are hexadecimal digits.
- Bech32 and checksum validation of addresses, hashing of tokens and session expiry are left out: hashing and library calls.
- Fee estimator, float bands, drift alerts, ledger sums and the transaction counter are left out: each is one comparison or one sum that no modelled protocol reads.
