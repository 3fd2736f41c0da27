/**
  The apply step: one record, wrapped in its once-only holder, is applied
  to an account book and a transaction log.
 */
module Engine {
  import opened Types
  import opened Decimals
  import Accounts
  import opened Stores

  /** Everything one application produces: both stores, the holder and the outcome. */
  datatype Step = Step(
    book: MemoryAccountBook,
    log: MemoryTransactionLog,
    state: TransactionState,
    result: Result<()>)

  /**
    The amount a referential record acts on: the amount of the record
    registered under the same transaction id, if any.
   */
  function ReferredAmount(l: MemoryTransactionLog, id: TransactionId): (r: Option<Decimal>)
    ensures r.Some? <==> id in l.transactions && l.transactions[id].amount.Some?
    ensures r.Some? ==> r.value == l.transactions[id].amount.value
  {
    match Find(l, id)
    case None => None
    case Some(t) => t.amount
  }

  /** The record's effect on its client's account, given the referred amount. */
  function Transition(a: Account, t: Transaction, referred: Option<Decimal>): (r: Result<Account>)
    requires CarriesAmount(t)
    ensures r.Err? <==> t.kind.IsPrimary() && a.locked
    ensures r.Err? ==> r.error == Locked(a.clientId)
    ensures r.Ok? ==> Effect(a, r.value, t, referred)
  {
    match t.kind
    case Deposit => Accounts.Deposit(a, t.amount.value)
    case Withdrawal => Accounts.Withdraw(a, t.amount.value)
    case Dispute => Ok(if referred.Some? then Accounts.Dispute(a, referred.value) else a)
    case Resolve => Ok(if referred.Some? then Accounts.Resolve(a, referred.value) else a)
    case Chargeback => Ok(if referred.Some? then Accounts.Chargeback(a, referred.value) else a)
  }

  /**
    How much a record moves the available and the held balance, as a
    table: a primary record moves its own amount, a referential record
    the referred amount, and nothing when there is none.
   */
  function Movement(t: Transaction, referred: Option<Decimal>): (int, int)
    requires CarriesAmount(t)
  {
    if t.kind.IsPrimary() then
      var x := Rescale(t.amount.value);
      if t.kind.Deposit? then (x, 0) else (-x, 0)
    else if referred.None? then (0, 0)
    else
      var y := Rescale(referred.value);
      match t.kind
      case Dispute => (-y, y)
      case Resolve => (y, -y)
      case _ => (0, -y)
  }

  /**
    The account after a successful application: balances moved as the
    table says, the same client, and locked afterwards exactly when it was
    locked before or a chargeback found its amount.
   */
  ghost predicate Effect(before: Account, after: Account, t: Transaction, referred: Option<Decimal>)
    requires CarriesAmount(t)
  {
    var (da, dh) := Movement(t, referred);
    && after.clientId == before.clientId
    && after.available == before.available + da
    && after.held == before.held + dh
    && after.locked == (before.locked || (t.kind.Chargeback? && referred.Some?))
  }

  /**
    The total is never stored: after any record it is the old total plus
    the record's net movement. A deposit or withdrawal changes it by its
    own amount, a dispute or resolve leaves it, and a chargeback lowers it
    by the referred amount.
   */
  lemma TotalFollowsMovement(a: Account, t: Transaction, referred: Option<Decimal>)
    requires CarriesAmount(t)
    ensures var r := Transition(a, t, referred);
      var (da, dh) := Movement(t, referred);
      r.Ok? ==> Total(r.value) == Total(a) + da + dh
    ensures var r := Transition(a, t, referred);
      r.Ok? && t.kind.IsPrimary() ==>
        Total(r.value) == Total(a) + (if t.kind.Deposit? then 1 else -1) * Rescale(t.amount.value)
    ensures var r := Transition(a, t, referred);
      r.Ok? && (t.kind.Dispute? || t.kind.Resolve?) ==> Total(r.value) == Total(a)
    ensures var r := Transition(a, t, referred);
      r.Ok? && t.kind.Chargeback? && referred.Some? ==> Total(r.value) == Total(a) - Rescale(referred.value)
  {
  }

  /** The account the record is applied to, as it was before: the stored one or a fresh one. */
  function Prior(b: MemoryAccountBook, id: ClientId): Account {
    if id in b.accounts then b.accounts[id] else NewAccount(id)
  }

  /** A primary record is refused exactly when its client's account exists and is locked. */
  predicate Refused(b: MemoryAccountBook, t: Transaction) {
    t.kind.IsPrimary() && t.clientId in b.accounts && b.accounts[t.clientId].locked
  }

  /**
    Applies one record. A holder that is already Applied is refused as a
    Duplicate. Otherwise the client's account is fetched (or created) and
    changed; a refused deposit or withdrawal leaves books, log and holder
    as they were. On success the holder becomes Applied with the record's
    id, and a deposit or withdrawal is registered in the log.
   */
  function ApplyTransaction(book: MemoryAccountBook, log: MemoryTransactionLog, state: TransactionState): (r: Step)
    requires state.NotApplied? ==> CarriesAmount(state.transaction)
    ensures state.Applied? ==> r == Step(book, log, state, Err(Duplicate(state.id)))
    ensures r.result.Err? ==> r.book == book && r.log == log && r.state == state
    ensures state.NotApplied? ==>
      var t := state.transaction;
      && (r.result.Err? <==> Refused(book, t))
      && (r.result.Err? ==> r.result.error == Locked(book.accounts[t.clientId].clientId))
      && (r.result.Ok? ==>
            && r.state == Applied(t.transactionId)
            && r.log == (if t.kind.IsPrimary() then Register(log, t) else log)
            && r.book.accounts.Keys == book.accounts.Keys + {t.clientId}
            && Effect(Prior(book, t.clientId), r.book.accounts[t.clientId], t, ReferredAmount(log, t.transactionId))
            && forall c :: c in book.accounts && c != t.clientId ==> r.book.accounts[c] == book.accounts[c])
  {
    match state
    case Applied(id) => Step(book, log, state, Err(Duplicate(id)))
    case NotApplied(t) =>
      var referred := ReferredAmount(log, t.transactionId);
      var entry := FetchMut(book, t.clientId);
      match Transition(entry.account, t, referred)
      case Err(e) => Step(entry.book, log, state, Err(e))
      case Ok(changed) =>
        var log' := if t.kind.IsPrimary() then Register(log, t) else log;
        Step(Store(entry.book, t.clientId, changed), log', Applied(t.transactionId), Ok(()))
  }

  /** The account book's entry point; it delegates to ApplyTransaction unchanged. */
  function Apply(book: MemoryAccountBook, log: MemoryTransactionLog, state: TransactionState): (r: Step)
    requires state.NotApplied? ==> CarriesAmount(state.transaction)
    ensures r == ApplyTransaction(book, log, state)
  {
    ApplyTransaction(book, log, state)
  }

  /** Every logged record is a primary record with an amount, filed under its own id. */
  ghost predicate LogWellFormed(l: MemoryTransactionLog) {
    forall id :: id in l.transactions ==>
      && l.transactions[id].transactionId == id
      && l.transactions[id].kind.IsPrimary()
      && l.transactions[id].amount.Some?
  }

  /**
    Applying keeps accounts filed under their own client id, keeps the log
    to primary records with amounts, and never unlocks an account.
   */
  lemma ApplyPreservesInvariants(book: MemoryAccountBook, log: MemoryTransactionLog, state: TransactionState)
    requires state.NotApplied? ==> CarriesAmount(state.transaction)
    requires Keyed(book) && LogWellFormed(log)
    ensures var r := ApplyTransaction(book, log, state);
      && Keyed(r.book)
      && LogWellFormed(r.log)
      && forall c :: c in book.accounts && book.accounts[c].locked ==> r.book.accounts[c].locked
  {
    var r := ApplyTransaction(book, log, state);
    if state.NotApplied? && r.result.Ok? {
      var t := state.transaction;
      assert r.book.accounts[t.clientId].clientId == Prior(book, t.clientId).clientId;
    }
  }

  /**
    A deposit or withdrawal on a locked account is refused with Locked for
    that client, and the holder still owns the original record.
   */
  lemma LockedAccountKeepsRecord(book: MemoryAccountBook, log: MemoryTransactionLog, t: Transaction)
    requires CarriesAmount(t) && Keyed(book) && Refused(book, t)
    ensures ApplyTransaction(book, log, NotApplied(t)) == Step(book, log, NotApplied(t), Err(Locked(t.clientId)))
  {
  }

  /** Once applied, the holder is refused as a Duplicate and nothing changes. */
  lemma AppliedHolderIsRefused(book: MemoryAccountBook, log: MemoryTransactionLog, t: Transaction)
    requires CarriesAmount(t)
    ensures var r := ApplyTransaction(book, log, NotApplied(t));
      r.result.Ok? ==>
        ApplyTransaction(r.book, r.log, r.state) == Step(r.book, r.log, r.state, Err(Duplicate(t.transactionId)))
  {
  }

  /**
    A dispute, resolve or chargeback whose id has no logged amount succeeds
    and only creates its client's account if it was missing; the log stays.
   */
  lemma UnknownReferenceIsIgnored(book: MemoryAccountBook, log: MemoryTransactionLog, t: Transaction)
    requires !t.kind.IsPrimary() && ReferredAmount(log, t.transactionId).None?
    ensures var r := ApplyTransaction(book, log, NotApplied(t));
      && r.result == Ok(())
      && r.log == log
      && r.book == FetchMut(book, t.clientId).book
  {
    var r := ApplyTransaction(book, log, NotApplied(t));
    var b' := FetchMut(book, t.clientId).book;
    assert r.book.accounts[t.clientId] == b'.accounts[t.clientId];
    assert r.book.accounts == b'.accounts;
  }

  /**
    The referred record is looked up by id alone: a dispute moves the
    amount of whatever record is logged under its id, even one that another
    client made, on the disputing client's own account.
   */
  lemma ReferenceIgnoresOwner(book: MemoryAccountBook, log: MemoryTransactionLog, t: Transaction, p: Transaction, x: Decimal)
    requires t.kind.Dispute? && t.transactionId in log.transactions
    requires p == log.transactions[t.transactionId] && p.amount == Some(x) && p.clientId != t.clientId
    ensures var r := ApplyTransaction(book, log, NotApplied(t));
      && r.result == Ok(())
      && r.book.accounts[t.clientId].held == Prior(book, t.clientId).held + Rescale(x)
      && (p.clientId in book.accounts ==> r.book.accounts[p.clientId] == book.accounts[p.clientId])
  {
  }

  /**
    A resolve or chargeback needs no earlier dispute: it acts on held
    funds as soon as its id has a logged amount, driving them negative on a
    fresh account.
   */
  lemma ReversalNeedsNoDispute(log: MemoryTransactionLog, t: Transaction, x: Decimal)
    requires t.kind.Resolve? || t.kind.Chargeback?
    requires ReferredAmount(log, t.transactionId) == Some(x) && Rescale(x) > 0
    ensures var r := ApplyTransaction(NewAccountBook(), log, NotApplied(t));
      && r.result == Ok(())
      && r.book.accounts[t.clientId].held < 0
  {
  }

  /**
    A withdrawal is registered, so a later dispute of its id takes the
    same amount out of available funds a second time and holds it.
   */
  lemma WithdrawalCanBeDisputed(book: MemoryAccountBook, log: MemoryTransactionLog, w: Transaction, d: Transaction)
    requires w.kind.Withdrawal? && w.amount.Some? && !Refused(book, w)
    requires d == Transaction(Dispute, w.clientId, w.transactionId, None)
    ensures var r1 := ApplyTransaction(book, log, NotApplied(w));
      var r2 := ApplyTransaction(r1.book, r1.log, NotApplied(d));
      var before := Prior(book, w.clientId);
      var after := r2.book.accounts[w.clientId];
      && r1.result == Ok(()) && r2.result == Ok(())
      && after.available == before.available - 2 * Rescale(w.amount.value)
      && after.held == before.held + Rescale(w.amount.value)
  {
    var r1 := ApplyTransaction(book, log, NotApplied(w));
    assert ReferredAmount(r1.log, w.transactionId) == w.amount;
  }
}
