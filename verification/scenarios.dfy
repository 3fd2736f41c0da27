/**
  Concrete before/after values for the account rules and the apply step.
  Balances are in counts of 0.0001: 68272 is 6.8272.
 */
module Scenarios {
  import opened Types
  import opened Decimals
  import Accounts
  import opened Stores
  import opened Engine
  import opened Replay

  /** Two deposits, the second rounded to four decimals. */
  lemma DepositRescales(c: ClientId)
    ensures var a := Accounts.Deposit(NewAccount(c), Decimal(435, 2));
      && a.Ok? && a.value.available == 43500
      && var b := Accounts.Deposit(a.value, Decimal(247724244, 8));
      && b.Ok? && b.value.available == 68272 && b.value.held == 0
  {
  }

  /** A withdrawal after a deposit with a different scale. */
  lemma WithdrawalAfterDeposit(c: ClientId)
    ensures var a := Accounts.Deposit(NewAccount(c), Decimal(44865, 3));
      && a.Ok?
      && var b := Accounts.Withdraw(a.value, Decimal(247724244, 8));
      && b.Ok? && b.value.available == 423878 && b.value.held == 0
  {
  }

  /** A dispute moves the whole deposit to held funds and a resolve moves it back. */
  lemma DisputeAndResolve(c: ClientId)
    ensures var a := Accounts.Deposit(NewAccount(c), Decimal(28422, 4));
      && a.Ok?
      && var d := Accounts.Dispute(a.value, Decimal(28422, 4));
      && d.available == 0 && d.held == 28422
      && var r := Accounts.Resolve(d, Decimal(28422, 4));
      && r.available == 28422 && r.held == 0
  {
  }

  /** A read lookup in an empty book hands out an account for the requested client. */
  lemma CreateAccountOnDemand(c: ClientId)
    ensures Fetch(NewAccountBook(), c).account.clientId == c
  {
  }

  /** A deposit made through the mutable lookup is seen by the next lookup. */
  lemma PersistAccount(c: ClientId)
    ensures var e := FetchMut(NewAccountBook(), c);
      && e.account.clientId == c
      && var a := Accounts.Deposit(e.account, Decimal(44444, 4));
      && a.Ok?
      && FetchMut(Store(e.book, c, a.value), c).account.available == 44444
  {
  }

  /** A chargeback empties the held funds and a later deposit is refused. */
  lemma ChargebackThenDeposit(c: ClientId)
    ensures var a := Accounts.Deposit(NewAccount(c), Decimal(4652, 3));
      && a.Ok?
      && var d := Accounts.Dispute(a.value, Decimal(4652, 3));
      && d.held == 46520
      && var b := Accounts.Chargeback(d, Decimal(4652, 3));
      && b.held == 0 && b.locked
      && Accounts.Deposit(b, Decimal(200, 2)) == Err(Locked(c))
  {
  }

  /** A deposit of 24.22 applied to empty stores: the holder is Applied and the funds are available. */
  lemma ApplyDeposit(c: ClientId)
    ensures var s := Apply(NewAccountBook(), NewTransactionLog(),
        StateFrom(Transaction(Deposit, c, TransactionId(3311), Some(Decimal(2422, 2)))));
      && s.result == Ok(())
      && s.state == Applied(TransactionId(3311))
      && c in s.book.accounts && s.book.accounts[c].available == 242200
  {
  }

  /**
    A series for one client: deposit 24.22, withdraw 0.21, deposit 7.8484,
    dispute that deposit, dispute an unknown id, resolve, dispute again and
    charge back; a last deposit of 17.4219 is then refused, and its holder
    keeps the record.
   */
  lemma ApplySeries(c: ClientId)
    ensures
      var d3313 := Transaction(Deposit, c, TransactionId(3313), Some(Decimal(78484, 4)));
      var d3314 := Transaction(Deposit, c, TransactionId(3314), Some(Decimal(174219, 4)));
      var s1 := Apply(NewAccountBook(), NewTransactionLog(),
        StateFrom(Transaction(Deposit, c, TransactionId(3311), Some(Decimal(2422, 2)))));
      var s2 := Apply(s1.book, s1.log, StateFrom(Transaction(Withdrawal, c, TransactionId(3312), Some(Decimal(21, 2)))));
      var s3 := Apply(s2.book, s2.log, StateFrom(d3313));
      var s4 := Apply(s3.book, s3.log, StateFrom(Transaction(Dispute, c, TransactionId(3313), None)));
      var s5 := Apply(s4.book, s4.log, StateFrom(Transaction(Dispute, c, TransactionId(3319), None)));
      var s6 := Apply(s5.book, s5.log, StateFrom(Transaction(Resolve, c, TransactionId(3313), None)));
      var s7 := Apply(s6.book, s6.log, StateFrom(Transaction(Dispute, c, TransactionId(3313), None)));
      var s8 := Apply(s7.book, s7.log, StateFrom(Transaction(Chargeback, c, TransactionId(3313), None)));
      var s9 := Apply(s8.book, s8.log, StateFrom(d3314));
      && s1.result.Ok? && s2.result.Ok? && s3.result.Ok? && s4.result.Ok?
      && s5.result.Ok? && s6.result.Ok? && s7.result.Ok? && s8.result.Ok?
      && c in s4.book.accounts && s4.book.accounts[c].available == 240100 && s4.book.accounts[c].held == 78484
      && c in s5.book.accounts && s5.book.accounts[c].available == 240100 && s5.book.accounts[c].held == 78484
      && c in s6.book.accounts && s6.book.accounts[c].available == 318584 && s6.book.accounts[c].held == 0
      && c in s8.book.accounts && s8.book.accounts[c].available == 240100 && s8.book.accounts[c].held == 0
      && s8.book.accounts[c].locked
      && s9.result == Err(Locked(c))
      && s9.state == NotApplied(d3314)
  {
    var t3313 := TransactionId(3313);
    var d3313 := Transaction(Deposit, c, t3313, Some(Decimal(78484, 4)));
    var s1 := Apply(NewAccountBook(), NewTransactionLog(),
      StateFrom(Transaction(Deposit, c, TransactionId(3311), Some(Decimal(2422, 2)))));
    assert s1.book.accounts[c] == Account(c, 242200, 0, false);
    var s2 := Apply(s1.book, s1.log, StateFrom(Transaction(Withdrawal, c, TransactionId(3312), Some(Decimal(21, 2)))));
    assert s2.book.accounts[c] == Account(c, 240100, 0, false);
    var s3 := Apply(s2.book, s2.log, StateFrom(d3313));
    assert s3.book.accounts[c] == Account(c, 318584, 0, false);
    assert s3.log.transactions[t3313] == d3313;
    var s4 := Apply(s3.book, s3.log, StateFrom(Transaction(Dispute, c, t3313, None)));
    assert s4.book.accounts[c] == Account(c, 240100, 78484, false);
    var s5 := Apply(s4.book, s4.log, StateFrom(Transaction(Dispute, c, TransactionId(3319), None)));
    assert TransactionId(3319) !in s5.log.transactions;
    assert s5.book.accounts[c] == Account(c, 240100, 78484, false);
    var s6 := Apply(s5.book, s5.log, StateFrom(Transaction(Resolve, c, t3313, None)));
    assert s6.book.accounts[c] == Account(c, 318584, 0, false);
    var s7 := Apply(s6.book, s6.log, StateFrom(Transaction(Dispute, c, t3313, None)));
    assert s7.book.accounts[c] == Account(c, 240100, 78484, false);
    var s8 := Apply(s7.book, s7.log, StateFrom(Transaction(Chargeback, c, t3313, None)));
    assert s8.book.accounts[c] == Account(c, 240100, 0, true);
  }

  /**
    Deposit 10.0000, dispute it and charge it back: the account ends empty
    and locked, and the next deposit is refused with the holder unchanged.
   */
  lemma DisputeChargebackLocks(c: ClientId)
    ensures var r := Load(NewAccountBook(), NewTransactionLog(), [
        Transaction(Deposit, c, TransactionId(10), Some(Decimal(100000, 4))),
        Transaction(Dispute, c, TransactionId(10), None),
        Transaction(Chargeback, c, TransactionId(10), None)]);
      var next := NotApplied(Transaction(Deposit, c, TransactionId(11), Some(Decimal(500, 2))));
      var s := Apply(r.book, r.log, next);
      && r.result == Ok(())
      && c in r.book.accounts && r.book.accounts[c] == Account(c, 0, 0, true)
      && s.result == Err(Locked(c))
      && s.state == next
  {
    var t10 := TransactionId(10);
    var deposit := Transaction(Deposit, c, t10, Some(Decimal(100000, 4)));
    var records := [deposit, Transaction(Dispute, c, t10, None), Transaction(Chargeback, c, t10, None)];
    var s1 := Apply(NewAccountBook(), NewTransactionLog(), StateFrom(records[0]));
    assert s1.book.accounts[c] == Account(c, 100000, 0, false);
    assert s1.log.transactions[t10] == deposit;
    var s2 := Apply(s1.book, s1.log, StateFrom(records[1]));
    assert s2.book.accounts[c] == Account(c, 0, 100000, false);
    var s3 := Apply(s2.book, s2.log, StateFrom(records[2]));
    assert s3.book.accounts[c] == Account(c, 0, 0, true);
    assert Load(s3.book, s3.log, records[3..]) == Loaded(s3.book, s3.log, Ok(()));
    assert records[2..][0] == records[2] && records[2..][1..] == records[3..];
    assert Load(s2.book, s2.log, records[2..]) == Load(s3.book, s3.log, records[3..]);
    assert records[1..][0] == records[1] && records[1..][1..] == records[2..];
    assert Load(s1.book, s1.log, records[1..]) == Load(s2.book, s2.log, records[2..]);
    assert Load(NewAccountBook(), NewTransactionLog(), records) == Load(s1.book, s1.log, records[1..]);
  }

  /** The amounts of the two-client stream, in counts. */
  lemma StreamAmounts()
    ensures Rescale(Decimal(70, 1)) == 70000
    ensures Rescale(Decimal(20, 1)) == 20000
    ensures Rescale(Decimal(15, 1)) == 15000
    ensures Rescale(Decimal(30, 1)) == 30000
  {
    assert Pow10(3) == 1000;
  }

  /**
    The two-client stream between records: two unlocked accounts with the
    given available funds and nothing held, and the 2.0 deposit logged
    under transaction id 2.
   */
  predicate Between(book: MemoryAccountBook, log: MemoryTransactionLog, c1: ClientId, c2: ClientId, a1: int, a2: int) {
    && book.accounts == map[c1 := Account(c1, a1, 0, false), c2 := Account(c2, a2, 0, false)]
    && TransactionId(2) in log.transactions
    && log.transactions[TransactionId(2)].amount == Some(Decimal(20, 1))
  }

  /** A replay of two records is their two applications in turn. */
  lemma LoadTwo(book: MemoryAccountBook, log: MemoryTransactionLog, t1: Transaction, t2: Transaction)
    requires CarriesAmount(t1) && CarriesAmount(t2)
    ensures var s1 := Apply(book, log, StateFrom(t1));
      var s2 := Apply(s1.book, s1.log, StateFrom(t2));
      s1.result.Ok? && s2.result.Ok? ==> Load(book, log, [t1, t2]) == Loaded(s2.book, s2.log, Ok(()))
  {
    var s1 := Apply(book, log, StateFrom(t1));
    var s2 := Apply(s1.book, s1.log, StateFrom(t2));
    if s1.result.Ok? && s2.result.Ok? {
      assert [t1, t2][1..] == [t2];
      assert [t2][1..] == [];
      assert Load(s2.book, s2.log, []) == Loaded(s2.book, s2.log, Ok(()));
      assert Load(s1.book, s1.log, [t2]) == Load(s2.book, s2.log, []);
    }
  }

  function FirstDeposits(c1: ClientId, c2: ClientId): seq<Transaction> {
    [ Transaction(Deposit, c1, TransactionId(1), Some(Decimal(70, 1))),
      Transaction(Deposit, c2, TransactionId(2), Some(Decimal(20, 1)))]
  }

  function DepositAndWithdrawal(c1: ClientId): seq<Transaction> {
    [ Transaction(Deposit, c1, TransactionId(3), Some(Decimal(20, 1))),
      Transaction(Withdrawal, c1, TransactionId(4), Some(Decimal(15, 1)))]
  }

  function Overdraw(c2: ClientId): seq<Transaction> {
    [ Transaction(Withdrawal, c2, TransactionId(5), Some(Decimal(30, 1))),
      Transaction(Deposit, c2, TransactionId(6), Some(Decimal(20, 1)))]
  }

  function DisputeCycle(c2: ClientId): seq<Transaction> {
    [ Transaction(Dispute, c2, TransactionId(2), None),
      Transaction(Resolve, c2, TransactionId(2), None)]
  }

  lemma FirstDepositsStep(c1: ClientId, c2: ClientId)
    requires c1 != c2
    ensures var r := Load(NewAccountBook(), NewTransactionLog(), FirstDeposits(c1, c2));
      r.result == Ok(()) && Between(r.book, r.log, c1, c2, 70000, 20000)
  {
    var rs := FirstDeposits(c1, c2);
    StreamAmounts();
    LoadTwo(NewAccountBook(), NewTransactionLog(), rs[0], rs[1]);
    var s1 := Apply(NewAccountBook(), NewTransactionLog(), StateFrom(rs[0]));
    assert s1.book.accounts == map[c1 := Account(c1, 70000, 0, false)];
  }

  lemma DepositAndWithdrawalStep(book: MemoryAccountBook, log: MemoryTransactionLog, c1: ClientId, c2: ClientId)
    requires c1 != c2 && Between(book, log, c1, c2, 70000, 20000)
    ensures var r := Load(book, log, DepositAndWithdrawal(c1));
      r.result == Ok(()) && Between(r.book, r.log, c1, c2, 75000, 20000)
  {
    var rs := DepositAndWithdrawal(c1);
    StreamAmounts();
    LoadTwo(book, log, rs[0], rs[1]);
    var s1 := Apply(book, log, StateFrom(rs[0]));
    assert s1.book.accounts == map[c1 := Account(c1, 90000, 0, false), c2 := Account(c2, 20000, 0, false)];
  }

  lemma OverdrawStep(book: MemoryAccountBook, log: MemoryTransactionLog, c1: ClientId, c2: ClientId)
    requires c1 != c2 && Between(book, log, c1, c2, 75000, 20000)
    ensures var r := Load(book, log, Overdraw(c2));
      r.result == Ok(()) && Between(r.book, r.log, c1, c2, 75000, 10000)
  {
    var rs := Overdraw(c2);
    StreamAmounts();
    LoadTwo(book, log, rs[0], rs[1]);
    var s1 := Apply(book, log, StateFrom(rs[0]));
    assert s1.book.accounts == map[c1 := Account(c1, 75000, 0, false), c2 := Account(c2, -10000, 0, false)];
  }

  lemma DisputeCycleStep(book: MemoryAccountBook, log: MemoryTransactionLog, c1: ClientId, c2: ClientId)
    requires c1 != c2 && Between(book, log, c1, c2, 75000, 10000)
    ensures var r := Load(book, log, DisputeCycle(c2));
      r.result == Ok(()) && Between(r.book, r.log, c1, c2, 75000, 10000)
  {
    var rs := DisputeCycle(c2);
    StreamAmounts();
    LoadTwo(book, log, rs[0], rs[1]);
    var s1 := Apply(book, log, StateFrom(rs[0]));
    assert s1.book.accounts == map[c1 := Account(c1, 75000, 0, false), c2 := Account(c2, -10000, 20000, false)];
  }

  lemma OpeningHalf(c1: ClientId, c2: ClientId)
    requires c1 != c2
    ensures var r := Load(NewAccountBook(), NewTransactionLog(), FirstDeposits(c1, c2) + DepositAndWithdrawal(c1));
      r.result == Ok(()) && Between(r.book, r.log, c1, c2, 75000, 20000)
  {
    FirstDepositsStep(c1, c2);
    var r1 := Load(NewAccountBook(), NewTransactionLog(), FirstDeposits(c1, c2));
    LoadAppend(NewAccountBook(), NewTransactionLog(), FirstDeposits(c1, c2), DepositAndWithdrawal(c1));
    DepositAndWithdrawalStep(r1.book, r1.log, c1, c2);
  }

  lemma ClosingHalf(book: MemoryAccountBook, log: MemoryTransactionLog, c1: ClientId, c2: ClientId)
    requires c1 != c2 && Between(book, log, c1, c2, 75000, 20000)
    ensures var r := Load(book, log, Overdraw(c2) + DisputeCycle(c2));
      r.result == Ok(()) && Between(r.book, r.log, c1, c2, 75000, 10000)
  {
    OverdrawStep(book, log, c1, c2);
    var r1 := Load(book, log, Overdraw(c2));
    LoadAppend(book, log, Overdraw(c2), DisputeCycle(c2));
    DisputeCycleStep(r1.book, r1.log, c1, c2);
  }

  /**
    Two clients: client 1 ends with 7.5 available; client 2 overdraws,
    deposits again, and has its 2.0 deposit disputed and resolved, ending
    with 1.0 available and nothing held.
   */
  lemma TwoClientStream(c1: ClientId, c2: ClientId)
    requires c1 != c2
    ensures var r := Load(NewAccountBook(), NewTransactionLog(),
        (FirstDeposits(c1, c2) + DepositAndWithdrawal(c1)) + (Overdraw(c2) + DisputeCycle(c2)));
      && r.result == Ok(())
      && r.book.accounts == map[c1 := Account(c1, 75000, 0, false), c2 := Account(c2, 10000, 0, false)]
  {
    var opening := FirstDeposits(c1, c2) + DepositAndWithdrawal(c1);
    var closing := Overdraw(c2) + DisputeCycle(c2);
    OpeningHalf(c1, c2);
    var r := Load(NewAccountBook(), NewTransactionLog(), opening);
    LoadAppend(NewAccountBook(), NewTransactionLog(), opening, closing);
    ClosingHalf(r.book, r.log, c1, c2);
  }
}
