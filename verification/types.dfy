/**
  The data model of the cashflow ledger: identifiers, transaction records,
  the once-only outcome holder, accounts and the error kinds the engine
  reports.
 */
module Types {

  /** Unsigned integer ranges of the identifiers. */
  newtype u16 = x: int | 0 <= x < 0x1_0000
  newtype u32 = x: int | 0 <= x < 0x1_0000_0000

  /** Identifies a client; equality is by value. */
  datatype ClientId = ClientId(value: u16)

  /** Identifies a transaction; equality is by value. */
  datatype TransactionId = TransactionId(value: u32)

  /** Wraps a raw client number without changing it. */
  function ClientIdFrom(n: u16): (c: ClientId)
    ensures c.value == n
  {
    ClientId(n)
  }

  /** Wraps a raw transaction number without changing it. */
  function TransactionIdFrom(n: u32): (t: TransactionId)
    ensures t.value == n
  {
    TransactionId(n)
  }

  /** Wrapping is injective: two identifiers are equal exactly when their numbers are. */
  lemma IdentifiersCompareByValue(a: u16, b: u16, x: u32, y: u32)
    ensures ClientIdFrom(a) == ClientIdFrom(b) <==> a == b
    ensures TransactionIdFrom(x) == TransactionIdFrom(y) <==> x == y
  {
  }

  /** A fixed-point decimal: the value is mantissa / 10^scale. */
  datatype Decimal = Decimal(mantissa: int, scale: nat)

  datatype Option<+T> = None | Some(value: T)

  /**
    Deposit and Withdrawal are primary: they carry an amount and are
    registered in the log. Dispute, Resolve and Chargeback refer to a
    primary transaction by its id.
   */
  datatype TransactionType = Deposit | Withdrawal | Dispute | Resolve | Chargeback
  {
    predicate IsPrimary() {
      Deposit? || Withdrawal?
    }
  }

  /** One incoming event. The amount is only meaningful for primary types. */
  datatype Transaction = Transaction(
    kind: TransactionType,
    clientId: ClientId,
    transactionId: TransactionId,
    amount: Option<Decimal>)

  /**
    The caller's precondition of the engine: a primary record carries an
    amount (the engine unwraps it and would abort otherwise).
   */
  predicate CarriesAmount(t: Transaction) {
    t.kind.IsPrimary() ==> t.amount.Some?
  }

  /**
    The once-only holder: either the record still waiting to be applied,
    or only the id of a record that has been applied.
   */
  datatype TransactionState = NotApplied(transaction: Transaction) | Applied(id: TransactionId)

  /** Wrapping a record yields a holder that still owns exactly that record. */
  function StateFrom(t: Transaction): (s: TransactionState)
    ensures s.NotApplied? && s.transaction == t
  {
    NotApplied(t)
  }

  /**
    A client's balances, in counts of 10^-DECIMAL_SCALE. Both balances are
    signed: over-withdrawal and over-dispute are allowed to go negative.
   */
  datatype Account = Account(clientId: ClientId, available: int, held: int, locked: bool)

  /** The derived total; it is never stored in an account. */
  function Total(a: Account): int {
    a.available + a.held
  }

  /** A fresh account: zero balances, unlocked. */
  function NewAccount(id: ClientId): (a: Account)
    ensures a.clientId == id
    ensures a.available == 0 && a.held == 0 && Total(a) == 0
    ensures !a.locked
  {
    Account(id, 0, 0, false)
  }

  /** The failures the engine returns to its caller. */
  datatype Error = Duplicate(transactionId: TransactionId) | Locked(clientId: ClientId)

  datatype Result<+T> = Ok(value: T) | Err(error: Error)
}
