# cashflow ledger engine — Dafny model

This project models the transaction-application engine of the cashflow
ledger. The engine takes one transaction record at a time and applies it to
per-client accounts. A record is a deposit, withdrawal, dispute, resolve or
chargeback, and it carries a client id, a transaction id and an optional
amount. Each account has available funds, held funds and a lock flag.

The model is purely functional:

- `Types` (types.dfy): identifiers, `Decimal` amounts, `Transaction`,
  the once-only holder `TransactionState` (`NotApplied(record)` or
  `Applied(id)`), `Account`, and `Error`, which has only `Duplicate` and
  `Locked`.
- `Decimals` (decimals.dfy): `DECIMAL_SCALE` = 4 (the constant at
  src/types.rs:11) and `Rescale`. Every
  balance is an `int` count of 0.0001. A transaction amount keeps the scale
  it arrived with. Each account operation rescales it, as the code does.
  The five account operations make the same `rescale` call
  (src/ops.rs:16, 29, 41, 51 and 61), so the `Decimals` rows cite the
  first of them, in `deposit`, for all five.
- `Accounts` (accounts.dfy): the balance rules. An operation that can be
  refused returns `Result<Account>`. On `Err` the caller keeps the unchanged
  account, which is how the source's `&mut self` plus `?` behaves.
- `Stores` (stores.dfy): the in-memory account book, a get-or-create
  `map<ClientId, Account>`. Also the in-memory log, a
  `map<TransactionId, Transaction>` where registering overwrites.
- `Engine` (engine.dfy): `ApplyTransaction(book, log, state)` returns
  `Step(book', log', state', result)`. `Effect` and `Movement` give an
  independent table of how each record type moves the two balances.
- `Replay` (replay.dfy): the loader's loop (src/io.rs:43-46) with CSV
  decoding replaced by a sequence of records. Each record gets a fresh
  holder, and the first refusal ends the replay.
- `Scenarios` (scenarios.dfy): one lemma per unit test in src/ops.rs
  (deposit, withdrawal, dispute and resolve, chargeback and lock, account
  created on demand, account persisted, apply deposit, apply series), each
  with the test's own amounts and the client id left general. It also
  holds the two-client stream of the loader test in src/io.rs, and one
  further replay (deposit, dispute, chargeback) that shows the lock at the
  level of a whole stream.

Account accessors (`client_id`, `funds_available`, `funds_held`,
`is_locked`) are the fields of the `Account` datatype. Reading a field of an
immutable value cannot change it. `total` is the function `Types.Total`, so
it is derived and never stored. `Engine.TotalFollowsMovement` states how
each record moves it.

Behaviour kept exactly as the code has it:

- A dispute, resolve or chargeback looks up the amount registered under
  its own transaction id. Nothing checks which client made that
  transaction (`Engine.ReferenceIgnoresOwner`).
- Nothing checks that a resolve or chargeback follows a dispute
  (`Engine.ReversalNeedsNoDispute`).
- Withdrawals are registered too, so a withdrawal can be disputed.
  The dispute takes its amount out of available funds a second time
  (`Engine.WithdrawalCanBeDisputed`).
- A deposit or withdrawal without an amount aborts the program in the
  source. The model states this as the precondition `CarriesAmount`.
- A dispute, resolve or chargeback still creates the client's account
  when it is missing, even if no amount is found.

The serde helper's doc comment (src/types.rs:101) says amounts are read at
four decimals. Its `rescale` (src/types.rs:107-108) acts on a copy, so it
has no effect. The model follows the code: the stored record keeps its original
scale, and each account operation rescales.

## Model

| member | source | states |
|---|---|---|
| Types.ClientIdFrom | src/types.rs:17-21 | wrapping a client number keeps the number |
| Types.TransactionIdFrom | src/types.rs:33-37 | wrapping a transaction number keeps the number |
| Types.IdentifiersCompareByValue | src/types.rs:14-31 | two identifiers are equal exactly when their numbers are equal |
| Types.StateFrom | src/types.rs:76-80 | converting a record gives a `NotApplied` holder that owns exactly that record |
| Types.NewAccount | src/types.rs:135-142 | a new account has the given client id, zero available, zero held, a zero total, and is unlocked |
| Decimals.Rescale | src/ops.rs:16 | converts an amount to counts of 0.0001 and never changes its sign; that the value is exact or the nearest count is stated by `RescaleIsExact` and `RescaleIsNearest` |
| Decimals.RoundToNearest | src/ops.rs:16 | rounding a quotient lands within half a step of the exact value |
| Decimals.RescaleIsExact | src/ops.rs:16 | an amount with at most four decimals keeps its exact value when rescaled |
| Decimals.RescaleIsNearest | src/ops.rs:16 | an amount with more decimals is rescaled to within half of 0.0001 |
| Decimals.RescaleAtScaleIsIdentity | src/ops.rs:16 | an amount already at four decimals is left unchanged |
| Decimals.RescaleIdempotent | src/ops.rs:16 | rescaling twice gives the same result as rescaling once |
| Accounts.CheckLock | src/ops.rs:67-72 | refuses with `Locked(client)` exactly when the account is locked |
| Accounts.Deposit | src/ops.rs:14-19 | refused with `Locked(client)` exactly when locked; otherwise the total rises by the rescaled amount, all of it in available, and held, lock and client stay |
| Accounts.Withdraw | src/ops.rs:27-32 | refused with `Locked(client)` exactly when locked; otherwise available falls by the rescaled amount with no lower bound, and held, lock and client stay |
| Accounts.Dispute | src/ops.rs:40-44 | held rises by the rescaled amount and the total is unchanged, so available falls by it; the lock is ignored and kept |
| Accounts.Resolve | src/ops.rs:50-54 | held falls by the rescaled amount and the total is unchanged, so available rises by it; the lock is ignored and kept |
| Accounts.Chargeback | src/ops.rs:60-64 | available is unchanged, the total (so held) falls by the rescaled amount, and the account is locked whatever its prior state |
| Accounts.WithdrawUndoesDeposit | src/ops.rs:14-32 | on an unlocked account, a deposit followed by a withdrawal of the same amount gives back the original account |
| Accounts.WithdrawMayOverdraw | src/ops.rs:21-32 | withdrawing more than is available succeeds and leaves available negative |
| Accounts.ResolveUndoesDispute | src/ops.rs:215-225 | a dispute followed by a resolve of the same amount restores the account exactly, and the other order does too |
| Accounts.ChargebackRefusesLaterActivity | src/ops.rs:227-237 | after a chargeback, every deposit and withdrawal is refused with `Locked(client)` |
| Accounts.ReversalsIgnoreLock | src/ops.rs:34-54 | a dispute or resolve changes balances the same way whether the account is locked or not |
| Stores.NewAccountBook | src/types.rs:226-232 | a new account book holds no account |
| Stores.NewTransactionLog | src/types.rs:251-257 | a new transaction log holds no record |
| Stores.FetchMut | src/ops.rs:146-151 | returns the stored account, or inserts and returns a new account when the client has none; no other entry changes; a correctly keyed book stays correctly keyed |
| Stores.Fetch | src/ops.rs:139-144 | the read lookup of the in-memory book is the same get-or-create lookup as the mutable one |
| Stores.Store | src/ops.rs:146-151 | writing through the reference the mutable lookup handed out replaces that client's account and nothing else; the set of clients stays |
| Stores.ChangesPersist | src/ops.rs:246-254 | a change written through the mutable lookup is what the next lookup of that client returns |
| Stores.Find | src/ops.rs:174-179 | returns the record registered under the id, and `None` exactly when none was registered |
| Stores.Register | src/ops.rs:181-185 | files the record under its own id and replaces any earlier record; all other ids are unchanged |
| Stores.FindAfterRegister | src/ops.rs:173-185 | after registering, a lookup of that id returns the new record and a lookup of any other id is unchanged |
| Stores.FreshStores | src/ops.rs:239-244 | nothing is found in a new log, and a new book creates the requested client's account on demand |
| Engine.ReferredAmount | src/ops.rs:92-95 | the referred amount is present exactly when a record with an amount is logged under the current record's own id |
| Engine.Transition | src/ops.rs:97-117 | only a deposit or withdrawal on a locked account is refused; otherwise the account moves as the `Effect` table says, and a referential record with no referred amount leaves it unchanged |
| Engine.TotalFollowsMovement | src/types.rs:164-169 | the total is derived, never stored: after any record it is the old total plus the record's net movement, so a deposit or withdrawal changes it by its amount, a dispute or resolve leaves it, and a chargeback lowers it by the referred amount |
| Engine.ApplyTransaction | src/ops.rs:78-136 | an `Applied` holder gives `Duplicate(id)` and changes nothing; otherwise refusal happens exactly on a deposit or withdrawal to an existing locked account, and leaves book, log and holder unchanged; on success the holder is `Applied(id)`, only deposits and withdrawals are registered, the client's account (created if missing) moves as `Effect` says, and no other account changes |
| Engine.Apply | src/types.rs:185-194 | the account book's entry point behaves exactly as `ApplyTransaction` on the same arguments |
| Engine.ApplyPreservesInvariants | src/ops.rs:121-130 | applying keeps every account filed under its own client id; the log holds only deposits and withdrawals that have amounts and are filed under their own ids; no account is ever unlocked |
| Engine.LockedAccountKeepsRecord | src/ops.rs:349-362 | a deposit or withdrawal to a locked account returns `Locked(client)` with book, log and the `NotApplied` record all unchanged |
| Engine.AppliedHolderIsRefused | src/ops.rs:88-90 | re-applying the holder that a success returned gives `Duplicate(id)` and changes nothing |
| Engine.UnknownReferenceIsIgnored | src/ops.rs:100-116 | a dispute, resolve or chargeback with no logged amount succeeds, leaves the log as it was, and at most creates its client's empty account |
| Engine.ReferenceIgnoresOwner | src/ops.rs:92-104 | a dispute moves the amount of whichever record is logged under its id, even another client's, and does so on the disputing client's account |
| Engine.ReversalNeedsNoDispute | src/ops.rs:107-116 | a resolve or chargeback with a logged amount succeeds without any earlier dispute and can drive held funds negative |
| Engine.WithdrawalCanBeDisputed | src/ops.rs:124-128 | a withdrawal followed by a dispute of its id takes its amount out of available twice and holds it once |
| Replay.Load | src/io.rs:43-46 | replaying a stream never fails with `Duplicate`; the only failure is `Locked`, and it ends the replay |
| Replay.PrimaryStreamNetFlow | src/io.rs:43-46 | for a stream of deposits and withdrawals by one client whose account is not locked, the replay succeeds, available moves by deposits minus withdrawals, held stays, the account stays unlocked, and other clients are untouched |
| Replay.LoadPreservesInvariants | src/io.rs:43-46 | a replay keeps accounts filed under their own ids and the log limited to deposits and withdrawals that have amounts, and never unlocks an account |
| Replay.LoadAppend | src/io.rs:43-46 | replaying a stream in two parts gives the same result as replaying it whole, unless the first part was refused |
| Scenarios.DepositRescales | src/ops.rs:196-204 | depositing 4.35 and then 2.47724244 leaves 6.8272 available and nothing held |
| Scenarios.WithdrawalAfterDeposit | src/ops.rs:206-213 | depositing 44.865 and then withdrawing 2.47724244 leaves 42.3878 available |
| Scenarios.DisputeAndResolve | src/ops.rs:215-225 | after a deposit of 2.8422, a dispute leaves 0 available and 2.8422 held, and a resolve leaves 2.8422 available and 0 held |
| Scenarios.CreateAccountOnDemand | src/ops.rs:239-244 | a read lookup in an empty book hands out an account for the requested client |
| Scenarios.PersistAccount | src/ops.rs:246-254 | the mutable lookup in an empty book hands out the client's account; 4.4444 deposited through it is what the next lookup shows available |
| Scenarios.ChargebackThenDeposit | src/ops.rs:227-237 | deposit, dispute and chargeback of 4.652 leave nothing held and the account locked, and a later deposit is refused |
| Scenarios.ApplyDeposit | src/ops.rs:256-274 | depositing 24.22 into empty stores turns the holder into `Applied(3311)` and leaves 24.22 available |
| Scenarios.ApplySeries | src/ops.rs:276-363 | the one-client series gives 24.01 available and 7.8484 held after the dispute, no change for the dispute of unknown id 3319, 31.8584 and 0 after the resolve, and 24.01 and 0 with the account locked after the second dispute and the chargeback; the 17.4219 deposit is then refused with `Locked(client)` and its holder keeps the record |
| Scenarios.DisputeChargebackLocks | src/io.rs:43-46 | replaying a deposit of 10.0000, its dispute and its chargeback on empty stores succeeds and leaves the account empty and locked; a following deposit is refused with `Locked(client)` and its holder keeps the record |
| Scenarios.TwoClientStream | src/io.rs:110-129 | the loader's example stream leaves client 1 with 7.5 and client 2 with 1.0 available, with nothing held by either |

## Left out

- CSV reading and writing (src/io.rs apart from its loop), command-line handling and process panics (src/main.rs), and module declarations (src/lib.rs): external I/O with no ledger logic.
- `Error::Load`: it wraps the CSV parser's error, which is not part of this model.
- The serde helper that reads an optional decimal: decoding belongs to the CSV layer, and its rescale has no effect on the value it returns.
- `Display` impls and the `IntoIterator` impls of the account book: formatting, and iteration in unspecified hash order. The book's contents are its `accounts` map.
- The generic trait bounds and the store methods' `Result` wrapping: the in-memory stores never fail, so they are modelled directly as total functions.
- Limits of the decimal library: the 96-bit mantissa, the maximum scale of 28, and overflow on addition. Amounts and balances are unbounded integers here.
- Decimals.RescaleIsNearest: states only that rounding lands within half of 0.0001. It does not state which way a tie goes, because the decimal library's rounding mode is not part of this model. `Rescale` has a concrete tie rule only so that it can have a body.
- Replay.Load: the source stops on a CSV decoding error as well. Decoding is not modelled, so the only failure left is a refused deposit or withdrawal.
- Parsing identifiers into their `u16`/`u32` ranges: the ranges are kept as newtypes, and parsing is part of the CSV layer.
