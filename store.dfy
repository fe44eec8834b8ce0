/**
 * The ledger as the handlers see it through their database session: four
 * tables held as sequences (row n has primary key n), the invariant that ties
 * every balance to the log, and the recording step through which every
 * balance change goes.
 */
module Store {
  import opened Models

  /** The rows of the log that belong to account `id`, in log order. */
  function History(log: seq<Transaction>, id: nat): (h: seq<Transaction>)
    ensures |h| <= |log|
  {
    if log == [] then []
    else
      var last := log[|log| - 1];
      History(log[..|log| - 1], id) + (if last.accountId == id then [last] else [])
  }

  /** The history of account `id` holds exactly the log's rows for that account. */
  lemma {:induction false} HistoryMembers(log: seq<Transaction>, id: nat)
    ensures forall t :: t in History(log, id) <==> t in log && t.accountId == id
  {
    if log != [] {
      var prefix := log[..|log| - 1];
      HistoryMembers(prefix, id);
      assert log == prefix + [log[|log| - 1]];
    }
  }

  /** The sum of the signed amounts: credits add, debits subtract. */
  function SignedSum(s: seq<Transaction>): int
  {
    if s == [] then 0 else SignedSum(s[..|s| - 1]) + Signed(s[|s| - 1])
  }

  lemma {:induction false} HistoryAppend(log: seq<Transaction>, t: Transaction, id: nat)
    ensures History(log + [t], id) == History(log, id) + (if t.accountId == id then [t] else [])
  {
    assert (log + [t])[..|log|] == log;
  }

  lemma {:induction false} SignedSumAppend(s: seq<Transaction>, t: Transaction)
    ensures SignedSum(s + [t]) == SignedSum(s) + Signed(t)
  {
    assert (s + [t])[..|s|] == s;
  }

  /** The signed sum of a concatenation is the sum of the signed sums. */
  lemma {:induction false} SignedSumConcat(a: seq<Transaction>, b: seq<Transaction>)
    ensures SignedSum(a + b) == SignedSum(a) + SignedSum(b)
    decreases |b|
  {
    if b == [] {
      assert a + b == a;
    } else {
      var b' := b[..|b| - 1];
      assert a + b == (a + b') + [b[|b| - 1]];
      SignedSumAppend(a + b', b[|b| - 1]);
      SignedSumConcat(a, b');
      SignedSumAppend(b', b[|b| - 1]);
      assert b' + [b[|b| - 1]] == b;
    }
  }

  /** What the log has done to account `id`: the sum of its credits minus the sum of its debits. */
  function Net(log: seq<Transaction>, id: nat): int
  {
    if log == [] then 0
    else
      var last := log[|log| - 1];
      Net(log[..|log| - 1], id) + (if last.accountId == id then Signed(last) else 0)
  }

  lemma {:induction false} NetAppend(log: seq<Transaction>, t: Transaction, id: nat)
    ensures Net(log + [t], id) == Net(log, id) + (if t.accountId == id then Signed(t) else 0)
  {
    assert (log + [t])[..|log|] == log;
  }

  /** The net effect on an account is the signed sum of its history. */
  lemma {:induction false} NetIsHistorySum(log: seq<Transaction>, id: nat)
    ensures Net(log, id) == SignedSum(History(log, id))
  {
    if log != [] {
      var prefix, last := log[..|log| - 1], log[|log| - 1];
      NetIsHistorySum(prefix, id);
      if last.accountId == id {
        SignedSumAppend(History(prefix, id), last);
      } else {
        assert History(log, id) == History(prefix, id) + [] == History(prefix, id);
      }
    }
  }

  /** The account with primary key `id`, if there is one. */
  function Find(accounts: seq<Account>, id: int): Option<Account>
  {
    if 1 <= id <= |accounts| then Some(accounts[id - 1]) else None
  }

  /** The lookup `Account.id == id AND Account.user_id == caller` finds a row. */
  predicate Owns(accounts: seq<Account>, caller: UserId, id: int)
  {
    1 <= id <= |accounts| && accounts[id - 1].owner == caller
  }

  predicate KeysArePositions(accounts: seq<Account>)
  {
    forall i :: 0 <= i < |accounts| ==> accounts[i].id == i + 1
  }

  /** Log rows have consecutive keys, name an existing account and carry a positive amount. */
  predicate LogWellFormed(log: seq<Transaction>, accountCount: nat)
  {
    forall j :: 0 <= j < |log| ==>
      log[j].id == j + 1 && 1 <= log[j].accountId <= accountCount && log[j].amount > 0
  }

  /** Every balance is exactly the signed sum of that account's transactions. */
  predicate BalancesMatchLog(accounts: seq<Account>, log: seq<Transaction>)
  {
    forall i :: 0 <= i < |accounts| ==> accounts[i].balance == Net(log, i + 1)
  }

  /** There is no overdraft: no balance is ever negative. */
  predicate NoOverdraft(accounts: seq<Account>)
  {
    forall i :: 0 <= i < |accounts| ==> accounts[i].balance >= 0
  }

  predicate Ledger(accounts: seq<Account>, log: seq<Transaction>)
  {
    KeysArePositions(accounts) && LogWellFormed(log, |accounts|)
    && BalancesMatchLog(accounts, log) && NoOverdraft(accounts)
  }

  /** The account table with the balance of account `id` moved by `delta`. */
  function Adjusted(accounts: seq<Account>, id: nat, delta: int): (r: seq<Account>)
    requires 1 <= id <= |accounts|
    ensures |r| == |accounts|
    ensures r[id - 1] == accounts[id - 1].(balance := accounts[id - 1].balance + delta)
    ensures forall i :: 0 <= i < |accounts| && i != id - 1 ==> r[i] == accounts[i]
  {
    accounts[id - 1 := accounts[id - 1].(balance := accounts[id - 1].balance + delta)]
  }

  /**
   * Recording a transaction: appending row `t` to the log and moving its
   * account's balance by its signed amount keeps every balance equal to its
   * history, provided the balance does not go below zero.
   */
  lemma {:induction false} RecordKeepsLedger(accounts: seq<Account>, log: seq<Transaction>, t: Transaction, id: nat, delta: int)
    requires Ledger(accounts, log)
    requires t.id == |log| + 1 && t.accountId == id && 1 <= id <= |accounts| && t.amount > 0
    requires delta == Signed(t) && accounts[id - 1].balance + delta >= 0
    ensures Ledger(Adjusted(accounts, id, delta), log + [t])
  {
    RecordKeepsBalances(accounts, log, t);
    assert LogWellFormed(log + [t], |accounts|) by {
      assert forall j :: 0 <= j < |log| ==> (log + [t])[j] == log[j];
    }
  }

  lemma {:induction false} RecordKeepsBalances(accounts: seq<Account>, log: seq<Transaction>, t: Transaction)
    requires BalancesMatchLog(accounts, log)
    requires 1 <= t.accountId <= |accounts|
    ensures BalancesMatchLog(Adjusted(accounts, t.accountId, Signed(t)), log + [t])
  {
    var accounts' := Adjusted(accounts, t.accountId, Signed(t));
    forall i | 0 <= i < |accounts'|
      ensures accounts'[i].balance == Net(log + [t], i + 1)
    {
      NetAppend(log, t, i + 1);
      if t.accountId != i + 1 {
        assert accounts'[i] == accounts[i];
      }
    }
  }

  /**
   * Posting a DEBIT on one account and then a CREDIT of the same amount on
   * another keeps the ledger consistent, provided the debited balance covers
   * the amount.
   */
  lemma {:induction false} PostingPairKeepsLedger(accounts: seq<Account>, log: seq<Transaction>, source: nat, destination: nat, amount: int,
                                debit: Transaction, credit: Transaction)
    requires Ledger(accounts, log)
    requires 1 <= source <= |accounts| && 1 <= destination <= |accounts| && source != destination
    requires 0 < amount <= accounts[source - 1].balance
    requires debit.id == |log| + 1 && debit.kind == Debit && debit.accountId == source && debit.amount == amount
    requires credit.id == |log| + 2 && credit.kind == Credit && credit.accountId == destination && credit.amount == amount
    ensures Ledger(Adjusted(Adjusted(accounts, source, -amount), destination, amount), log + [debit] + [credit])
  {
    var afterDebit := Adjusted(accounts, source, -amount);
    RecordKeepsLedger(accounts, log, debit, source, -amount);
    assert afterDebit[destination - 1] == accounts[destination - 1];
    RecordKeepsLedger(afterDebit, log + [debit], credit, destination, amount);
  }

  /** No log row names account `id`, so its history is empty. */
  lemma {:induction false} NetOfUnusedKey(log: seq<Transaction>, id: nat)
    requires forall j :: 0 <= j < |log| ==> log[j].accountId != id
    ensures Net(log, id) == 0
  {
    if log != [] {
      NetOfUnusedKey(log[..|log| - 1], id);
    }
  }

  /**
   * Inserting a fresh account row (balance 0, no transactions yet) keeps the
   * ledger consistent.
   */
  lemma {:induction false} OpenAccountKeepsLedger(accounts: seq<Account>, log: seq<Transaction>, a: Account)
    requires Ledger(accounts, log)
    requires a.id == |accounts| + 1 && a.balance == 0
    ensures Ledger(accounts + [a], log)
  {
    NetOfUnusedKey(log, a.id);
  }

  /** The sum of all balances. */
  function TotalBalance(accounts: seq<Account>): int
  {
    if accounts == [] then 0 else TotalBalance(accounts[..|accounts| - 1]) + accounts[|accounts| - 1].balance
  }

  /** Moving one balance by `delta` moves the sum of all balances by exactly `delta`. */
  lemma {:induction false} AdjustedShiftsTotal(accounts: seq<Account>, id: nat, delta: int)
    requires 1 <= id <= |accounts|
    ensures TotalBalance(Adjusted(accounts, id, delta)) == TotalBalance(accounts) + delta
    decreases |accounts|
  {
    var n := |accounts|;
    var r := Adjusted(accounts, id, delta);
    if id == n {
      assert r[..n - 1] == accounts[..n - 1];
    } else {
      assert r[..n - 1] == Adjusted(accounts[..n - 1], id, delta);
      AdjustedShiftsTotal(accounts[..n - 1], id, delta);
    }
  }

  /** Python's `s[:n]`: the first n characters, or all of s when it is shorter. */
  function Prefix(s: string, n: nat): (r: string)
    ensures |r| <= n && r <= s
    ensures |s| >= n ==> |r| == n
    ensures |s| <= n ==> r == s
  {
    if |s| <= n then s else s[..n]
  }

  /** The reference shared by both legs of a transfer: "TRF-" and the first 8 characters of its id. */
  function TransferReference(transferId: string): string
  {
    "TRF-" + Prefix(transferId, 8)
  }

  /** A transfer row names a DEBIT on its source and a CREDIT on its destination, both for its amount and with its reference. */
  predicate TransferLinked(tr: Transfer, log: seq<Transaction>)
  {
    && 1 <= tr.sourceTransactionId <= |log|
    && 1 <= tr.destinationTransactionId <= |log|
    && var debit := log[tr.sourceTransactionId - 1];
    && var credit := log[tr.destinationTransactionId - 1];
    && debit.kind == Debit && debit.accountId == tr.source && debit.amount == tr.amount
    && credit.kind == Credit && credit.accountId == tr.destination && credit.amount == tr.amount
    && debit.reference == Some(TransferReference(tr.id))
    && credit.reference == Some(TransferReference(tr.id))
  }

  predicate TransfersLinked(transfers: seq<Transfer>, log: seq<Transaction>)
  {
    && (forall k :: 0 <= k < |transfers| ==> TransferLinked(transfers[k], log))
    && (forall k, l :: 0 <= k < l < |transfers| ==> transfers[k].id != transfers[l].id)
  }

  /** Appending rows to the log keeps every existing transfer linked to its legs. */
  lemma {:induction false} LinksSurviveAppend(transfers: seq<Transfer>, log: seq<Transaction>, more: seq<Transaction>)
    requires TransfersLinked(transfers, log)
    ensures TransfersLinked(transfers, log + more)
  {
    forall k | 0 <= k < |transfers| ensures TransferLinked(transfers[k], log + more) {
      var tr := transfers[k];
      assert (log + more)[tr.sourceTransactionId - 1] == log[tr.sourceTransactionId - 1];
      assert (log + more)[tr.destinationTransactionId - 1] == log[tr.destinationTransactionId - 1];
    }
  }

  /** Adding a transfer row with an unused id that is linked to its legs keeps every transfer linked and every id distinct. */
  lemma {:induction false} AddTransferKeepsLinks(transfers: seq<Transfer>, log: seq<Transaction>, row: Transfer)
    requires TransfersLinked(transfers, log) && TransferLinked(row, log) && !TransferIdTaken(transfers, row.id)
    ensures TransfersLinked(transfers + [row], log)
  {
    var transfers' := transfers + [row];
    forall k | 0 <= k < |transfers'| ensures TransferLinked(transfers'[k], log) {
      if k < |transfers| {
        assert transfers'[k] == transfers[k];
      }
    }
    forall k, l | 0 <= k < l < |transfers'| ensures transfers'[k].id != transfers'[l].id {
      assert transfers'[k] == transfers[k];
      if l < |transfers| {
        assert transfers'[l] == transfers[l];
      }
    }
  }

  /**
   * Appending a transfer's two legs and then its row, which has an unused id
   * and names both legs, keeps every transfer linked and every id distinct.
   */
  lemma {:induction false} PostingTransferKeepsLinks(transfers: seq<Transfer>, log: seq<Transaction>, debit: Transaction, credit: Transaction, row: Transfer)
    requires TransfersLinked(transfers, log) && !TransferIdTaken(transfers, row.id)
    requires row.sourceTransactionId == |log| + 1 && row.destinationTransactionId == |log| + 2
    requires debit.kind == Debit && debit.accountId == row.source && debit.amount == row.amount
    requires credit.kind == Credit && credit.accountId == row.destination && credit.amount == row.amount
    requires debit.reference == Some(TransferReference(row.id)) && credit.reference == Some(TransferReference(row.id))
    ensures TransfersLinked(transfers + [row], log + [debit] + [credit])
  {
    var log' := log + [debit] + [credit];
    LinksSurviveAppend(transfers, log, [debit]);
    LinksSurviveAppend(transfers, log + [debit], [credit]);
    assert log'[|log|] == debit && log'[|log| + 1] == credit;
    AddTransferKeepsLinks(transfers, log', row);
  }

  /** Transfer ids already used. */
  predicate TransferIdTaken(transfers: seq<Transfer>, id: string)
  {
    exists k :: 0 <= k < |transfers| && transfers[k].id == id
  }

  /** The card numbers already issued. */
  function CardNumbers(cards: seq<Card>): (ns: set<string>)
    ensures forall k :: 0 <= k < |cards| ==> cards[k].number in ns
    ensures forall n :: n in ns ==> exists k :: 0 <= k < |cards| && cards[k].number == n
  {
    set k | 0 <= k < |cards| :: cards[k].number
  }

  predicate CardsWellFormed(cards: seq<Card>, accountCount: nat)
  {
    && (forall k :: 0 <= k < |cards| ==> cards[k].id == k + 1 && 1 <= cards[k].accountId <= accountCount)
    && (forall k, l :: 0 <= k < l < |cards| ==> cards[k].number != cards[l].number)
  }

  /**
   * The database session: the four tables a request handler reads and writes.
   * A handler's writes become visible only when it returns success; on any
   * error it leaves every table as it found it.
   */
  class Session {
    var accounts: seq<Account>
    var transactions: seq<Transaction>
    var transfers: seq<Transfer>
    var cards: seq<Card>

    ghost predicate Valid()
      reads this
    {
      && Ledger(accounts, transactions)
      && TransfersLinked(transfers, transactions)
      && CardsWellFormed(cards, |accounts|)
    }

    /** An empty database. */
    constructor ()
      ensures Valid()
      ensures accounts == [] && transactions == [] && transfers == [] && cards == []
    {
      accounts, transactions, transfers, cards := [], [], [], [];
    }
  }
}
