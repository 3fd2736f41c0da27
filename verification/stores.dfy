/**
  The in-memory account book (a get-or-create map keyed by client id) and
  the in-memory transaction log (a map keyed by transaction id where a
  later registration overwrites an earlier one).
 */
module Stores {
  import opened Types

  datatype MemoryAccountBook = MemoryAccountBook(accounts: map<ClientId, Account>)

  datatype MemoryTransactionLog = MemoryTransactionLog(transactions: map<TransactionId, Transaction>)

  /** A book that holds no account. */
  function NewAccountBook(): (b: MemoryAccountBook)
    ensures forall c :: c !in b.accounts
  {
    MemoryAccountBook(map[])
  }

  /** A log that holds no transaction. */
  function NewTransactionLog(): (l: MemoryTransactionLog)
    ensures forall id :: id !in l.transactions
  {
    MemoryTransactionLog(map[])
  }

  /** Every account is filed under its own client id. */
  ghost predicate Keyed(b: MemoryAccountBook) {
    forall c :: c in b.accounts ==> b.accounts[c].clientId == c
  }

  /** The book after a lookup together with the account it handed out. */
  datatype Entry = Entry(book: MemoryAccountBook, account: Account)

  /**
    Returns the client's account for mutation, first inserting a fresh
    account if the client has none. No other client's entry changes.
   */
  function FetchMut(b: MemoryAccountBook, id: ClientId): (r: Entry)
    ensures id in r.book.accounts && r.book.accounts[id] == r.account
    ensures id in b.accounts ==> r.book == b
    ensures id !in b.accounts ==> r.account == NewAccount(id)
    ensures r.book.accounts.Keys == b.accounts.Keys + {id}
    ensures forall c :: c in b.accounts ==> r.book.accounts[c] == b.accounts[c]
    ensures Keyed(b) ==> Keyed(r.book) && r.account.clientId == id
  {
    if id in b.accounts then Entry(b, b.accounts[id])
    else
      var created := NewAccount(id);
      Entry(MemoryAccountBook(b.accounts[id := created]), created)
  }

  /**
    Returns the client's account for reading. The in-memory book creates
    a missing account here too, so it is the same lookup as FetchMut.
   */
  function Fetch(b: MemoryAccountBook, id: ClientId): (r: Entry)
    ensures r == FetchMut(b, id)
  {
    FetchMut(b, id)
  }

  /** Writes back an account changed through the reference FetchMut handed out. */
  function Store(b: MemoryAccountBook, id: ClientId, a: Account): (r: MemoryAccountBook)
    requires id in b.accounts
    ensures r.accounts.Keys == b.accounts.Keys
    ensures r.accounts[id] == a
    ensures forall c :: c in b.accounts && c != id ==> r.accounts[c] == b.accounts[c]
  {
    MemoryAccountBook(b.accounts[id := a])
  }

  /** A change made through FetchMut is what the next lookup of that client returns. */
  lemma ChangesPersist(b: MemoryAccountBook, id: ClientId, a: Account)
    ensures var b' := Store(FetchMut(b, id).book, id, a);
      FetchMut(b', id) == Entry(b', a)
  {
  }

  /** The stored record under an id, if one was registered. */
  function Find(l: MemoryTransactionLog, id: TransactionId): (r: Option<Transaction>)
    ensures r.Some? <==> id in l.transactions
    ensures r.Some? ==> r.value == l.transactions[id]
  {
    if id in l.transactions then Some(l.transactions[id]) else None
  }

  /** Files the record under its own id, replacing any earlier record with that id. */
  function Register(l: MemoryTransactionLog, t: Transaction): (r: MemoryTransactionLog)
    ensures r.transactions.Keys == l.transactions.Keys + {t.transactionId}
    ensures r.transactions[t.transactionId] == t
    ensures forall id :: id in l.transactions && id != t.transactionId ==>
      r.transactions[id] == l.transactions[id]
  {
    MemoryTransactionLog(l.transactions[t.transactionId := t])
  }

  /** A lookup after a registration finds the new record and nothing else changes. */
  lemma FindAfterRegister(l: MemoryTransactionLog, t: Transaction, id: TransactionId)
    ensures Find(Register(l, t), id) == if id == t.transactionId then Some(t) else Find(l, id)
  {
  }

  /** Nothing is found in a fresh log, and a fresh book creates accounts on demand. */
  lemma FreshStores(tid: TransactionId, cid: ClientId)
    ensures Find(NewTransactionLog(), tid) == None
    ensures FetchMut(NewAccountBook(), cid).account == NewAccount(cid)
    ensures FetchMut(NewAccountBook(), cid).book.accounts == map[cid := NewAccount(cid)]
  {
  }
}
