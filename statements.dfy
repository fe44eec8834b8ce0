/**
 * Account statements: the opening balance over the rows before the period,
 * the rows inside the period in ascending time order, the credit and debit
 * totals, the closing balance, and the running balance of the CSV and PDF
 * tables. Timestamps are compared as opaque ordered values.
 */
module Statements {
  import opened Models
  import opened Store
  import opened Text
  import opened Ordering

  datatype Format = Json | Csv | Pdf

  /** `format.lower()` compared with "json", "csv" and "pdf". */
  function ParseFormat(s: string): (r: Option<Format>)
    ensures r == Some(Json) <==> Lower(s) == "json"
    ensures r == Some(Csv) <==> Lower(s) == "csv"
    ensures r == Some(Pdf) <==> Lower(s) == "pdf"
  {
    var l := Lower(s);
    if l == "json" then Some(Json)
    else if l == "csv" then Some(Csv)
    else if l == "pdf" then Some(Pdf)
    else None
  }

  function FormatName(f: Format): string
  {
    match f
    case Json => "json"
    case Csv => "csv"
    case Pdf => "pdf"
  }

  /** Every format is recognised from its name in lower and in upper case; other names are not. */
  lemma {:induction false} ParseFormatAnyCase(f: Format, other: string)
    requires Lower(other) != "json" && Lower(other) != "csv" && Lower(other) != "pdf"
    ensures ParseFormat(FormatName(f)) == Some(f)
    ensures ParseFormat(Upper(FormatName(f))) == Some(f)
    ensures ParseFormat(other).None?
  {
    match f
    case Json =>
      assert Lower("json") == "json" && Upper("json") == "JSON" && Lower("JSON") == "json";
    case Csv =>
      assert Lower("csv") == "csv" && Upper("csv") == "CSV" && Lower("CSV") == "csv";
    case Pdf =>
      assert Lower("pdf") == "pdf" && Upper("pdf") == "PDF" && Lower("PDF") == "pdf";
  }

  /** The account's rows created strictly before `start`, in log order. */
  function Before(log: seq<Transaction>, id: int, start: Timestamp): seq<Transaction>
  {
    if log == [] then []
    else
      var last := log[|log| - 1];
      Before(log[..|log| - 1], id, start) + (if last.accountId == id && last.createdAt < start then [last] else [])
  }

  /** The account's rows with `start <= created_at <= end`, in log order. */
  function Within(log: seq<Transaction>, id: int, start: Timestamp, end: Timestamp): seq<Transaction>
  {
    if log == [] then []
    else
      var last := log[|log| - 1];
      Within(log[..|log| - 1], id, start, end) + (if last.accountId == id && start <= last.createdAt <= end then [last] else [])
  }

  /**
   * The opening query keeps exactly the account's rows created before the
   * start, and the period query exactly those with start <= created_at <= end.
   */
  lemma {:induction false} FilterMembers(log: seq<Transaction>, id: int, start: Timestamp, end: Timestamp)
    ensures forall t :: t in Before(log, id, start) <==> t in log && t.accountId == id && t.createdAt < start
    ensures forall t :: t in Within(log, id, start, end) <==> t in log && t.accountId == id && start <= t.createdAt <= end
  {
    if log != [] {
      var prefix := log[..|log| - 1];
      FilterMembers(prefix, id, start, end);
      assert log == prefix + [log[|log| - 1]];
    }
  }

  /** The sum of the amounts of the rows of one direction. */
  function SumOf(rows: seq<Transaction>, kind: TransactionType): (total: int)
    ensures (forall k :: 0 <= k < |rows| ==> rows[k].kind != kind) ==> total == 0
    ensures (forall k :: 0 <= k < |rows| ==> rows[k].amount > 0) ==> total >= 0
  {
    if rows == [] then 0
    else
      var last := rows[|rows| - 1];
      SumOf(rows[..|rows| - 1], kind) + (if last.kind == kind then last.amount else 0)
  }

  /** The signed sum is the credits minus the debits. */
  lemma {:induction false} SignedSumSplit(rows: seq<Transaction>)
    ensures SignedSum(rows) == SumOf(rows, Credit) - SumOf(rows, Debit)
  {
    if rows != [] {
      SignedSumSplit(rows[..|rows| - 1]);
    }
  }

  /** Taking one row out of a sequence takes its signed amount out of the sum. */
  lemma {:induction false} SignedSumRemove(b: seq<Transaction>, k: nat)
    requires k < |b|
    ensures SignedSum(b) == SignedSum(b[..k] + b[k + 1..]) + Signed(b[k])
  {
    var b1, b2 := b[..k], b[k + 1..];
    assert b[..k + 1] + b2 == b;
    SignedSumConcat(b[..k + 1], b2);
    assert b[..k + 1][..k] == b1;
    SignedSumConcat(b1, b2);
  }

  /** Taking one row out of a sequence takes one copy of it out of its multiset. */
  lemma {:induction false} MultisetRemove(b: seq<Transaction>, k: nat)
    requires k < |b|
    ensures multiset(b[..k] + b[k + 1..]) == multiset(b) - multiset{b[k]}
  {
    assert b == b[..k] + [b[k]] + b[k + 1..];
  }

  /** Reordering the rows does not change their signed sum. */
  lemma {:induction false} SignedSumPermutation(a: seq<Transaction>, b: seq<Transaction>)
    requires multiset(a) == multiset(b)
    ensures SignedSum(a) == SignedSum(b)
    decreases |a|
  {
    if a == [] {
      assert |b| == |multiset(b)| == 0;
    } else {
      var last := |a| - 1;
      var x := a[last];
      assert x in multiset(b);
      var k :| 0 <= k < |b| && b[k] == x;
      MultisetRemove(a, last);
      MultisetRemove(b, k);
      assert a[..last] + a[last + 1..] == a[..last];
      SignedSumPermutation(a[..last], b[..k] + b[k + 1..]);
      SignedSumRemove(b, k);
    }
  }

  /**
   * When none of the account's rows is later than `end`, the rows before the
   * period and the rows inside it together make up the account's whole net.
   */
  lemma {:induction false} BeforeWithinPartition(log: seq<Transaction>, id: nat, start: Timestamp, end: Timestamp)
    requires forall j :: 0 <= j < |log| && log[j].accountId == id ==> log[j].createdAt <= end
    ensures SignedSum(Before(log, id, start)) + SignedSum(Within(log, id, start, end)) == Net(log, id)
  {
    if log != [] {
      var prefix, last := log[..|log| - 1], log[|log| - 1];
      assert forall j :: 0 <= j < |prefix| ==> prefix[j] == log[j];
      BeforeWithinPartition(prefix, id, start, end);
      var before, within := Before(prefix, id, start), Within(prefix, id, start, end);
      if last.accountId == id && last.createdAt < start {
        assert Before(log, id, start) == before + [last];
        assert Within(log, id, start, end) == within;
        SignedSumAppend(before, last);
      } else if last.accountId == id {
        assert last.createdAt <= end;
        assert Before(log, id, start) == before;
        assert Within(log, id, start, end) == within + [last];
        SignedSumAppend(within, last);
      } else {
        assert Before(log, id, start) == before;
        assert Within(log, id, start, end) == within;
      }
    }
  }

  /** The in-range rows as the query returns them: ascending by creation time. */
  function InRange(log: seq<Transaction>, id: int, start: Timestamp, end: Timestamp): (r: seq<Transaction>)
    ensures Ordered(r, Ascending)
    ensures multiset(r) == multiset(Within(log, id, start, end))
    ensures forall t :: t in r <==> t in log && t.accountId == id && start <= t.createdAt <= end
  {
    var r := Sort(Within(log, id, start, end), Ascending);
    FilterMembers(log, id, start, end);
    assert forall t :: t in r <==> t in multiset(Within(log, id, start, end));
    r
  }

  /**
   * For a period that reaches past the account's last row, the closing
   * balance of the statement is the account's balance.
   */
  lemma {:induction false} ClosingIsBalance(accounts: seq<Account>, log: seq<Transaction>, id: nat, start: Timestamp, end: Timestamp)
    requires Ledger(accounts, log) && 1 <= id <= |accounts|
    requires forall j :: 0 <= j < |log| && log[j].accountId == id ==> log[j].createdAt <= end
    ensures var rows := InRange(log, id, start, end);
      SignedSum(Before(log, id, start)) + SumOf(rows, Credit) - SumOf(rows, Debit) == accounts[id - 1].balance
  {
    var rows := InRange(log, id, start, end);
    SignedSumSplit(rows);
    SignedSumPermutation(rows, Within(log, id, start, end));
    BeforeWithinPartition(log, id, start, end);
    assert accounts[id - 1].balance == Net(log, id - 1 + 1);
  }

  /** The opening-balance loop: credits add, debits subtract. */
  method OpeningBalance(rows: seq<Transaction>) returns (balance: Cents)
    ensures balance == SignedSum(rows)
    ensures balance == SumOf(rows, Credit) - SumOf(rows, Debit)
  {
    balance := 0;
    var i := 0;
    while i < |rows|
      invariant 0 <= i <= |rows|
      invariant balance == SignedSum(rows[..i])
    {
      assert rows[..i + 1] == rows[..i] + [rows[i]];
      SignedSumAppend(rows[..i], rows[i]);
      if rows[i].kind == Credit {
        balance := balance + rows[i].amount;
      } else {
        balance := balance - rows[i].amount;
      }
      i := i + 1;
    }
    assert rows[..|rows|] == rows;
    SignedSumSplit(rows);
  }

  /**
   * The running-balance loop of the CSV and PDF tables: after each row, the
   * opening balance moved by every row so far; after the last row, the
   * closing balance.
   */
  method RunningBalances(opening: Cents, rows: seq<Transaction>) returns (balances: seq<Cents>)
    ensures |balances| == |rows|
    ensures forall k :: 0 <= k < |rows| ==> balances[k] == opening + SignedSum(rows[..k + 1])
    ensures |rows| > 0 ==> balances[|rows| - 1] == opening + SumOf(rows, Credit) - SumOf(rows, Debit)
  {
    balances := [];
    var running := opening;
    var i := 0;
    while i < |rows|
      invariant 0 <= i <= |rows|
      invariant |balances| == i
      invariant running == opening + SignedSum(rows[..i])
      invariant forall k :: 0 <= k < i ==> balances[k] == opening + SignedSum(rows[..k + 1])
    {
      assert rows[..i + 1] == rows[..i] + [rows[i]];
      SignedSumAppend(rows[..i], rows[i]);
      if rows[i].kind == Credit {
        running := running + rows[i].amount;
      } else {
        running := running - rows[i].amount;
      }
      balances := balances + [running];
      i := i + 1;
    }
    assert rows[..|rows|] == rows;
    SignedSumSplit(rows);
  }

  /** One entry of the statement's transaction list. */
  datatype StatementRow = StatementRow(
    date: Timestamp,
    description: Option<string>,
    reference: Option<string>,
    kind: TransactionType,
    category: Option<Category>,
    amount: Cents,
    debit: Cents,
    credit: Cents)

  /** The amount goes to the debit column or to the credit column, and the other is 0. */
  function Row(t: Transaction): (r: StatementRow)
    ensures t.kind == Debit ==> r.debit == t.amount && r.credit == 0
    ensures t.kind == Credit ==> r.credit == t.amount && r.debit == 0
    ensures r.debit + r.credit == r.amount == t.amount
    ensures r.date == t.createdAt && r.kind == t.kind
    ensures r.description == t.description && r.reference == t.reference
    ensures r.category == t.category
  {
    StatementRow(t.createdAt, t.description, t.reference, t.kind, t.category, t.amount,
      if t.kind == Debit then t.amount else 0,
      if t.kind == Credit then t.amount else 0)
  }

  function Rows(txns: seq<Transaction>): (rows: seq<StatementRow>)
    ensures |rows| == |txns| && forall k :: 0 <= k < |txns| ==> rows[k] == Row(txns[k])
  {
    seq(|txns|, k requires 0 <= k < |txns| => Row(txns[k]))
  }

  /** The statement: the JSON fields, and the Balance column of the CSV and PDF tables. */
  datatype Statement = Statement(
    accountId: nat,
    accountType: AccountType,
    start: Timestamp,
    end: Timestamp,
    opening: Cents,
    closing: Cents,
    totalCredits: Cents,
    totalDebits: Cents,
    count: nat,
    rows: seq<StatementRow>,
    format: Format,
    balances: seq<Cents>)

  /** The checks of the statement handler, in their order. */
  function StatementGuard(accounts: seq<Account>, caller: UserId, id: int, start: Timestamp, end: Timestamp, format: string): (r: Option<Error>)
    ensures r == Some(NotFound) <==> !Owns(accounts, caller, id)
    ensures r == Some(InvalidDateRange) <==> Owns(accounts, caller, id) && start >= end
    ensures r == Some(InvalidFormat) <==> Owns(accounts, caller, id) && start < end && ParseFormat(format).None?
    ensures r.None? || r == Some(NotFound) || r == Some(InvalidDateRange) || r == Some(InvalidFormat)
  {
    if !Owns(accounts, caller, id) then Some(NotFound)
    else if start >= end then Some(InvalidDateRange)
    else if ParseFormat(format).None? then Some(InvalidFormat)
    else None
  }

  /** Some row of the account inside the period has no category. */
  predicate Uncategorised(log: seq<Transaction>, id: int, start: Timestamp, end: Timestamp)
  {
    exists t :: t in log && t.accountId == id && start <= t.createdAt <= end && t.category.None?
  }

  /**
   * The handler as written reads `txn.category.value` for every in-range
   * row while building the row list, after the ownership and period checks
   * and before the format is looked at. A row without a category (either
   * leg of a transfer) raises there, and the unhandled exception is a 500;
   * None means the statement is built.
   */
  function StatementOutcomeAsWritten(accounts: seq<Account>, log: seq<Transaction>, caller: UserId,
                                     id: int, start: Timestamp, end: Timestamp, format: string): (r: Option<Error>)
    ensures r == Some(NotFound) <==> !Owns(accounts, caller, id)
    ensures r == Some(InvalidDateRange) <==> Owns(accounts, caller, id) && start >= end
    ensures r == Some(InternalError) <==> Owns(accounts, caller, id) && start < end && Uncategorised(log, id, start, end)
    ensures r == Some(InvalidFormat) <==>
              Owns(accounts, caller, id) && start < end && !Uncategorised(log, id, start, end) && ParseFormat(format).None?
    ensures r.None? <==> StatementGuard(accounts, caller, id, start, end, format).None? && !Uncategorised(log, id, start, end)
  {
    assert (exists t :: t in InRange(log, id, start, end) && t.category.None?) <==> Uncategorised(log, id, start, end);
    if !Owns(accounts, caller, id) then Some(NotFound)
    else if start >= end then Some(InvalidDateRange)
    else if exists t :: t in InRange(log, id, start, end) && t.category.None? then Some(InternalError)
    else if ParseFormat(format).None? then Some(InvalidFormat)
    else None
  }

  /**
   * As written, a period holding a row without a category fails with a 500,
   * whatever the format, although every check the handler makes passes or
   * only the format is wrong (which is meant to be a 400).
   */
  lemma {:induction false} AsWrittenFailsOnUncategorisedRow(accounts: seq<Account>, log: seq<Transaction>, caller: UserId,
                                                           id: int, start: Timestamp, end: Timestamp, format: string, t: Transaction)
    requires Owns(accounts, caller, id) && start < end
    requires t in log && t.accountId == id && start <= t.createdAt <= end && t.category.None?
    ensures StatementOutcomeAsWritten(accounts, log, caller, id, start, end, format) == Some(InternalError)
    ensures StatementGuard(accounts, caller, id, start, end, format) != Some(NotFound)
    ensures StatementGuard(accounts, caller, id, start, end, format) != Some(InvalidDateRange)
    ensures ParseFormat(format).Some? ==> StatementGuard(accounts, caller, id, start, end, format).None?
  {
    assert t in InRange(log, id, start, end);
  }

  /**
   * generate_account_statement: 404 for an account that is not the caller's,
   * 400 for an empty or reversed period or an unknown format; otherwise the
   * opening balance, the in-range rows in ascending order, the totals and a
   * closing balance that the running balance reaches after the last row.
   */
  method GenerateStatement(accounts: seq<Account>, log: seq<Transaction>, caller: UserId,
                           id: int, start: Timestamp, end: Timestamp, format: string)
    returns (r: Result<Statement>)
    ensures r.Err? <==> StatementGuard(accounts, caller, id, start, end, format).Some?
    ensures r.Err? ==> Some(r.error) == StatementGuard(accounts, caller, id, start, end, format)
    ensures r.Ok? ==> Owns(accounts, caller, id) && start < end
    ensures r.Ok? ==> r.value.start == start && r.value.end == end
    ensures r.Ok? ==> r.value.accountId == accounts[id - 1].id && r.value.accountType == accounts[id - 1].kind
    ensures r.Ok? ==> Some(r.value.format) == ParseFormat(format)
    ensures r.Ok? ==> r.value.opening == SignedSum(Before(log, id, start))
    ensures r.Ok? ==> r.value.rows == Rows(InRange(log, id, start, end)) && r.value.count == |r.value.rows|
    ensures r.Ok? ==> forall k :: 0 <= k < r.value.count ==> start <= r.value.rows[k].date <= end
    ensures r.Ok? ==> forall k, l :: 0 <= k < l < r.value.count ==> r.value.rows[k].date <= r.value.rows[l].date
    ensures r.Ok? ==> r.value.totalCredits == SumOf(InRange(log, id, start, end), Credit)
    ensures r.Ok? ==> r.value.totalDebits == SumOf(InRange(log, id, start, end), Debit)
    ensures r.Ok? ==> r.value.closing == r.value.opening + r.value.totalCredits - r.value.totalDebits
    ensures r.Ok? && r.value.format != Json ==> |r.value.balances| == r.value.count
    ensures r.Ok? && r.value.format != Json ==>
              forall k :: 0 <= k < r.value.count ==>
                r.value.balances[k] == r.value.opening + SignedSum(InRange(log, id, start, end)[..k + 1])
    ensures r.Ok? && r.value.format != Json && r.value.count > 0 ==> r.value.balances[r.value.count - 1] == r.value.closing
  {
    var failure := StatementGuard(accounts, caller, id, start, end, format);
    if failure.Some? {
      return Err(failure.value);
    }
    var account := accounts[id - 1];
    var txns := InRange(log, id, start, end);
    var opening := OpeningBalance(Before(log, id, start));
    var credits, debits := SumOf(txns, Credit), SumOf(txns, Debit);
    var closing := opening + credits - debits;
    var rows := Rows(txns);
    forall k | 0 <= k < |rows|
      ensures start <= rows[k].date <= end
    {
      assert txns[k] in txns;
    }
    var kind := ParseFormat(format).value;
    var balances := [];
    if kind != Json {
      balances := RunningBalances(opening, txns);
    }
    r := Ok(Statement(account.id, account.kind, start, end, opening, closing, credits, debits,
                      |rows|, rows, kind, balances));
  }
}
