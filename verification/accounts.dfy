/**
  The balance rules of a single account. Deposit and withdrawal are new,
  voluntary activity and are refused on a locked account; dispute, resolve
  and chargeback reverse earlier activity and always proceed. Every
  operation rescales its amount to DECIMAL_SCALE first.
 */
module Accounts {
  import opened Types
  import opened Decimals

  /** Refuses with Locked(client) exactly when the account is locked. */
  function CheckLock(a: Account): (r: Result<()>)
    ensures r.Ok? <==> !a.locked
    ensures r.Err? ==> r.error == Locked(a.clientId)
  {
    if a.locked then Err(Locked(a.clientId)) else Ok(())
  }

  /**
    `after` differs from `before` only by `delta` more available funds:
    same client, same held funds, same lock flag.
   */
  predicate AvailableShifted(before: Account, after: Account, delta: int) {
    && after.clientId == before.clientId
    && after.held == before.held
    && after.locked == before.locked
    && Total(after) == Total(before) + delta
  }

  /** Adds the amount to available funds, unless the account is locked. */
  function Deposit(a: Account, amount: Decimal): (r: Result<Account>)
    ensures r.Err? <==> a.locked
    ensures r.Err? ==> r.error == Locked(a.clientId)
    ensures r.Ok? ==> AvailableShifted(a, r.value, Rescale(amount))
  {
    match CheckLock(a)
    case Err(e) => Err(e)
    case Ok(_) => Ok(a.(available := a.available + Rescale(amount)))
  }

  /**
    Subtracts the amount from available funds, unless the account is
    locked. There is no lower bound: available funds may go negative.
   */
  function Withdraw(a: Account, amount: Decimal): (r: Result<Account>)
    ensures r.Err? <==> a.locked
    ensures r.Err? ==> r.error == Locked(a.clientId)
    ensures r.Ok? ==> AvailableShifted(a, r.value, -Rescale(amount))
  {
    match CheckLock(a)
    case Err(e) => Err(e)
    case Ok(_) => Ok(a.(available := a.available - Rescale(amount)))
  }

  /** Moves the amount from available to held funds; proceeds even when locked. */
  function Dispute(a: Account, amount: Decimal): (r: Account)
    ensures r.clientId == a.clientId && r.locked == a.locked
    ensures r.held == a.held + Rescale(amount)
    ensures Total(r) == Total(a)
  {
    var x := Rescale(amount);
    a.(available := a.available - x, held := a.held + x)
  }

  /** Moves the amount from held back to available funds; proceeds even when locked. */
  function Resolve(a: Account, amount: Decimal): (r: Account)
    ensures r.clientId == a.clientId && r.locked == a.locked
    ensures r.held == a.held - Rescale(amount)
    ensures Total(r) == Total(a)
  {
    var x := Rescale(amount);
    a.(held := a.held - x, available := a.available + x)
  }

  /**
    Removes the amount from held funds and locks the account, whatever its
    previous lock state; available funds are untouched.
   */
  function Chargeback(a: Account, amount: Decimal): (r: Account)
    ensures r.clientId == a.clientId && r.locked
    ensures r.available == a.available
    ensures Total(r) == Total(a) - Rescale(amount)
  {
    a.(held := a.held - Rescale(amount), locked := true)
  }

  /** A withdrawal undoes a deposit of the same amount on an unlocked account. */
  lemma WithdrawUndoesDeposit(a: Account, amount: Decimal)
    requires !a.locked
    ensures Deposit(a, amount).Ok?
    ensures Withdraw(Deposit(a, amount).value, amount) == Ok(a)
  {
  }

  /** Available funds go below zero when more is withdrawn than is available. */
  lemma WithdrawMayOverdraw(a: Account, amount: Decimal)
    requires !a.locked && Rescale(amount) > a.available
    ensures Withdraw(a, amount).Ok? && Withdraw(a, amount).value.available < 0
  {
  }

  /** A resolve of the same amount restores the account a dispute changed, and vice versa. */
  lemma ResolveUndoesDispute(a: Account, amount: Decimal)
    ensures Resolve(Dispute(a, amount), amount) == a
    ensures Dispute(Resolve(a, amount), amount) == a
  {
  }

  /** After a chargeback both deposits and withdrawals are refused. */
  lemma ChargebackRefusesLaterActivity(a: Account, amount: Decimal, later: Decimal)
    ensures Deposit(Chargeback(a, amount), later) == Err(Locked(a.clientId))
    ensures Withdraw(Chargeback(a, amount), later) == Err(Locked(a.clientId))
  {
  }

  /** Dispute and resolve behave the same on a locked and an unlocked account. */
  lemma ReversalsIgnoreLock(a: Account, amount: Decimal, locked: bool)
    ensures Dispute(a.(locked := locked), amount) == Dispute(a, amount).(locked := locked)
    ensures Resolve(a.(locked := locked), amount) == Resolve(a, amount).(locked := locked)
  {
  }
}
