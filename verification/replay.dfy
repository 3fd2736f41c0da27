/**
  Replaying a stream of records against a book and a log, as the loader
  does after decoding: each record is wrapped in a fresh holder and
  applied in order, and the first refusal stops the stream.
 */
module Replay {
  import opened Types
  import opened Decimals
  import opened Stores
  import opened Engine

  /** The stores after a replay and the outcome of the replay. */
  datatype Loaded = Loaded(book: MemoryAccountBook, log: MemoryTransactionLog, result: Result<()>)

  predicate AllCarryAmounts(records: seq<Transaction>) {
    forall i :: 0 <= i < |records| ==> CarriesAmount(records[i])
  }

  /**
    Applies the records in order. Every record gets a fresh holder, so a
    replay can never fail with Duplicate: the only failure is a refused
    deposit or withdrawal, which ends the replay.
   */
  function Load(book: MemoryAccountBook, log: MemoryTransactionLog, records: seq<Transaction>): (r: Loaded)
    requires AllCarryAmounts(records)
    ensures r.result.Err? ==> r.result.error.Locked?
    decreases |records|
  {
    if |records| == 0 then Loaded(book, log, Ok(()))
    else
      var step := Apply(book, log, StateFrom(records[0]));
      if step.result.Err? then Loaded(step.book, step.log, step.result)
      else Load(step.book, step.log, records[1..])
  }

  /** Deposits minus withdrawals, each rescaled; referential records count nothing. */
  function NetFlow(records: seq<Transaction>): int
    requires AllCarryAmounts(records)
  {
    if |records| == 0 then 0
    else
      var t := records[0];
      var x := if t.kind.Deposit? then Rescale(t.amount.value)
               else if t.kind.Withdrawal? then -Rescale(t.amount.value)
               else 0;
      x + NetFlow(records[1..])
  }

  /**
    A stream of deposits and withdrawals for one client whose account is
    not locked is applied in full: available funds move by deposits minus
    withdrawals, held funds stay, the account stays unlocked, and no
    other client's account changes.
   */
  lemma {:induction false} PrimaryStreamNetFlow(book: MemoryAccountBook, log: MemoryTransactionLog, records: seq<Transaction>, c: ClientId)
    requires forall i :: 0 <= i < |records| ==>
      records[i].kind.IsPrimary() && records[i].amount.Some? && records[i].clientId == c
    requires !Prior(book, c).locked
    ensures var r := Load(book, log, records);
      && r.result == Ok(())
      && Prior(r.book, c).available == Prior(book, c).available + NetFlow(records)
      && Prior(r.book, c).held == Prior(book, c).held
      && !Prior(r.book, c).locked
      && forall d :: d in book.accounts && d != c ==> d in r.book.accounts && r.book.accounts[d] == book.accounts[d]
    decreases |records|
  {
    if |records| > 0 {
      var step := Apply(book, log, StateFrom(records[0]));
      assert step.result.Ok?;
      PrimaryStreamNetFlow(step.book, step.log, records[1..], c);
    }
  }

  /**
    Replaying keeps accounts filed under their own client id, keeps the
    log to primary records with amounts, and never unlocks an account.
   */
  lemma {:induction false} LoadPreservesInvariants(book: MemoryAccountBook, log: MemoryTransactionLog, records: seq<Transaction>)
    requires AllCarryAmounts(records)
    requires Keyed(book) && LogWellFormed(log)
    ensures var r := Load(book, log, records);
      && Keyed(r.book)
      && LogWellFormed(r.log)
      && forall c :: c in book.accounts && book.accounts[c].locked ==> c in r.book.accounts && r.book.accounts[c].locked
    decreases |records|
  {
    if |records| > 0 {
      var step := Apply(book, log, StateFrom(records[0]));
      ApplyPreservesInvariants(book, log, StateFrom(records[0]));
      if step.result.Ok? {
        LoadPreservesInvariants(step.book, step.log, records[1..]);
      }
    }
  }

  /**
    Replaying a stream in two parts is replaying it whole: the second part
    starts from the stores the first part left, unless the first part was
    stopped by a refusal.
   */
  lemma {:induction false} LoadAppend(book: MemoryAccountBook, log: MemoryTransactionLog, first: seq<Transaction>, rest: seq<Transaction>)
    requires AllCarryAmounts(first) && AllCarryAmounts(rest)
    ensures AllCarryAmounts(first + rest)
    ensures var r := Load(book, log, first);
      Load(book, log, first + rest) == if r.result.Err? then r else Load(r.book, r.log, rest)
    decreases |first|
  {
    if |first| > 0 {
      assert (first + rest)[0] == first[0];
      assert (first + rest)[1..] == first[1..] + rest;
      var step := Apply(book, log, StateFrom(first[0]));
      if step.result.Ok? {
        LoadAppend(step.book, step.log, first[1..], rest);
      }
    } else {
      assert first + rest == rest;
    }
  }
}
