/**
 * Deposits and withdrawals (one guarded balance change plus one log row each)
 * and the owner-scoped, filtered, newest-first, paginated transaction listing.
 */
module Transactions {
  import opened Models
  import opened Store
  import opened Text
  import opened Ordering

  /** The request body of a deposit or a withdrawal. */
  datatype MovementRequest = MovementRequest(accountId: int, amount: Cents, description: Option<string>)

  /** Python's `value or default` on an optional string: None and "" give the default. */
  function OrDefault(value: Option<string>, default: string): (r: string)
    ensures value.Some? && value.value != "" ==> r == value.value
    ensures value.None? || value.value == "" ==> r == default
  {
    if value.Some? && value.value != "" then value.value else default
  }

  /**
   * The checks every balance change makes before touching the account, in
   * the order the handlers make them: a positive amount (400), an existing
   * account (404), owned by the caller (403), and ACTIVE (400).
   */
  function AccountGuard(accounts: seq<Account>, caller: UserId, id: int, amount: Cents): (r: Option<Error>)
    ensures r.None? <==> amount > 0 && Owns(accounts, caller, id) && accounts[id - 1].status == AccountStatus.Active
    ensures r in {None, Some(InvalidAmount), Some(NotFound), Some(Forbidden), Some(NotActive)}
    ensures r == Some(InvalidAmount) <==> amount <= 0
    ensures r == Some(NotFound) <==> amount > 0 && Find(accounts, id).None?
    ensures r == Some(Forbidden) <==> amount > 0 && Find(accounts, id).Some? && accounts[id - 1].owner != caller
    ensures r == Some(NotActive) <==> amount > 0 && Owns(accounts, caller, id) && accounts[id - 1].status != AccountStatus.Active
  {
    if amount <= 0 then Some(InvalidAmount)
    else if Find(accounts, id).None? then Some(NotFound)
    else if accounts[id - 1].owner != caller then Some(Forbidden)
    else if accounts[id - 1].status != AccountStatus.Active then Some(NotActive)
    else None
  }

  /** A withdrawal makes the same checks, then refuses to take the balance below zero. */
  function WithdrawalGuard(accounts: seq<Account>, caller: UserId, id: int, amount: Cents): (r: Option<Error>)
    ensures r.None? <==> AccountGuard(accounts, caller, id, amount).None? && accounts[id - 1].balance >= amount
    ensures AccountGuard(accounts, caller, id, amount).Some? ==> r == AccountGuard(accounts, caller, id, amount)
    ensures r == Some(InsufficientBalance) <==>
              AccountGuard(accounts, caller, id, amount).None? && accounts[id - 1].balance < amount
  {
    var e := AccountGuard(accounts, caller, id, amount);
    if e.Some? then e
    else if accounts[id - 1].balance < amount then Some(InsufficientBalance)
    else None
  }

  /** The row create_deposit inserts: a CREDIT that raises the balance by the amount. */
  function DepositRow(id: nat, req: MovementRequest, now: Timestamp): (t: Transaction)
    requires req.accountId >= 0
    ensures t.id == id && t.accountId == req.accountId && t.amount == req.amount && t.createdAt == now
    ensures Signed(t) == req.amount
    ensures t.category == Some(Category.Deposit) && t.reference == None
    ensures req.description.Some? && req.description.value != "" ==> t.description == req.description
    ensures req.description.None? || req.description.value == "" ==> t.description == Some("Deposit")
  {
    Transaction(id, req.accountId, Credit, req.amount, Some(OrDefault(req.description, "Deposit")),
                None, Some(Category.Deposit), now)
  }

  /** The row create_withdrawal inserts: a DEBIT that lowers the balance by the amount. */
  function WithdrawalRow(id: nat, req: MovementRequest, now: Timestamp): (t: Transaction)
    requires req.accountId >= 0
    ensures t.id == id && t.accountId == req.accountId && t.amount == req.amount && t.createdAt == now
    ensures Signed(t) == -req.amount
    ensures t.category == Some(Category.Withdrawal) && t.reference == None
    ensures req.description.Some? && req.description.value != "" ==> t.description == req.description
    ensures req.description.None? || req.description.value == "" ==> t.description == Some("Withdrawal")
  {
    Transaction(id, req.accountId, Debit, req.amount, Some(OrDefault(req.description, "Withdrawal")),
                None, Some(Category.Withdrawal), now)
  }

  /**
   * create_deposit: on a failed check nothing changes; otherwise one CREDIT
   * row is appended and the account's balance rises by exactly the amount.
   */
  method CreateDeposit(db: Session, caller: UserId, req: MovementRequest, now: Timestamp) returns (r: Result<Transaction>)
    requires db.Valid()
    modifies db
    ensures db.Valid()
    ensures db.transfers == old(db.transfers) && db.cards == old(db.cards)
    ensures r.Err? <==> AccountGuard(old(db.accounts), caller, req.accountId, req.amount).Some?
    ensures r.Err? ==> Some(r.error) == AccountGuard(old(db.accounts), caller, req.accountId, req.amount)
    ensures r.Err? ==> db.accounts == old(db.accounts) && db.transactions == old(db.transactions)
    ensures r.Ok? ==> req.accountId >= 1 && r.value == DepositRow(|old(db.transactions)| + 1, req, now)
    ensures r.Ok? ==> db.transactions == old(db.transactions) + [r.value]
    ensures r.Ok? ==> db.accounts == Adjusted(old(db.accounts), req.accountId, req.amount)
  {
    var e := AccountGuard(db.accounts, caller, req.accountId, req.amount);
    if e.Some? {
      return Err(e.value);
    }
    var t := DepositRow(|db.transactions| + 1, req, now);
    RecordKeepsLedger(db.accounts, db.transactions, t, req.accountId, req.amount);
    LinksSurviveAppend(db.transfers, db.transactions, [t]);
    db.transactions := db.transactions + [t];
    db.accounts := Adjusted(db.accounts, req.accountId, req.amount);
    r := Ok(t);
  }

  /**
   * create_withdrawal: on a failed check (including a balance below the
   * amount) nothing changes; otherwise one DEBIT row is appended and the
   * balance falls by exactly the amount, never below zero.
   */
  method CreateWithdrawal(db: Session, caller: UserId, req: MovementRequest, now: Timestamp) returns (r: Result<Transaction>)
    requires db.Valid()
    modifies db
    ensures db.Valid()
    ensures db.transfers == old(db.transfers) && db.cards == old(db.cards)
    ensures r.Err? <==> WithdrawalGuard(old(db.accounts), caller, req.accountId, req.amount).Some?
    ensures r.Err? ==> Some(r.error) == WithdrawalGuard(old(db.accounts), caller, req.accountId, req.amount)
    ensures r.Err? ==> db.accounts == old(db.accounts) && db.transactions == old(db.transactions)
    ensures r.Ok? ==> req.accountId >= 1 && r.value == WithdrawalRow(|old(db.transactions)| + 1, req, now)
    ensures r.Ok? ==> db.transactions == old(db.transactions) + [r.value]
    ensures r.Ok? ==> db.accounts == Adjusted(old(db.accounts), req.accountId, -req.amount)
    ensures r.Ok? ==> db.accounts[req.accountId - 1].balance >= 0
  {
    var e := WithdrawalGuard(db.accounts, caller, req.accountId, req.amount);
    if e.Some? {
      return Err(e.value);
    }
    var t := WithdrawalRow(|db.transactions| + 1, req, now);
    RecordKeepsLedger(db.accounts, db.transactions, t, req.accountId, -req.amount);
    LinksSurviveAppend(db.transfers, db.transactions, [t]);
    db.transactions := db.transactions + [t];
    db.accounts := Adjusted(db.accounts, req.accountId, -req.amount);
    r := Ok(t);
  }

  /**
   * A deposit of A followed by a withdrawal of A from the same account by the
   * same caller: when the deposit succeeds the withdrawal does too, and every
   * balance is exactly what it was before.
   */
  method DepositThenWithdraw(db: Session, caller: UserId, req: MovementRequest, now: Timestamp, later: Timestamp)
    returns (deposit: Result<Transaction>, withdrawal: Result<Transaction>)
    requires db.Valid()
    modifies db
    ensures db.Valid()
    ensures deposit.Ok? ==> withdrawal.Ok? && db.accounts == old(db.accounts)
    ensures deposit.Ok? ==> |db.transactions| == |old(db.transactions)| + 2
    ensures deposit.Err? ==> db.accounts == old(db.accounts) && db.transactions == old(db.transactions)
    ensures db.transfers == old(db.transfers) && db.cards == old(db.cards)
  {
    deposit := CreateDeposit(db, caller, req, now);
    withdrawal := CreateWithdrawal(db, caller, req, later);
    if deposit.Ok? {
      assert withdrawal.Ok?;
    }
  }

  function CategoryName(c: Category): string
  {
    match c
    case Transfer => "TRANSFER"
    case Deposit => "DEPOSIT"
    case Withdrawal => "WITHDRAWAL"
    case CardPayment => "CARD_PAYMENT"
  }

  /** `TransactionCategory[s.upper()]`: the category named by `s` in any letter case. */
  function ParseCategory(s: string): (r: Option<Category>)
    ensures r.Some? <==> Upper(s) in {"TRANSFER", "DEPOSIT", "WITHDRAWAL", "CARD_PAYMENT"}
    ensures r.Some? ==> CategoryName(r.value) == Upper(s)
  {
    var u := Upper(s);
    if u == "TRANSFER" then Some(Category.Transfer)
    else if u == "DEPOSIT" then Some(Category.Deposit)
    else if u == "WITHDRAWAL" then Some(Category.Withdrawal)
    else if u == "CARD_PAYMENT" then Some(CardPayment)
    else None
  }

  /** Every category is recognised from its name, in upper or in lower case. */
  lemma ParseCategoryAnyCase(c: Category)
    ensures ParseCategory(CategoryName(c)) == Some(c)
    ensures ParseCategory(Lower(CategoryName(c))) == Some(c)
  {
    UpperLowerRoundTrip(CategoryName(c));
  }

  /** The query parameters of the listing; None is an omitted parameter. */
  datatype TransactionQuery = TransactionQuery(accountId: Option<int>, category: Option<string>, limit: int, offset: int)

  /** `if account_id:` — an omitted id and the id 0 both mean "no account filter". */
  predicate AccountFilterGiven(q: TransactionQuery)
  {
    q.accountId.Some? && q.accountId.value != 0
  }

  /** `if category:` — an omitted category and the empty string both mean "no category filter". */
  predicate CategoryFilterGiven(q: TransactionQuery)
  {
    q.category.Some? && q.category.value != ""
  }

  /** A row is listed for the caller: its account is the caller's, and it passes both filters. */
  predicate Visible(accounts: seq<Account>, caller: UserId, account: Option<int>, category: Option<Category>, t: Transaction)
  {
    && Owns(accounts, caller, t.accountId)
    && (account.Some? ==> t.accountId == account.value)
    && (category.Some? ==> t.category == category)
  }

  function Select(accounts: seq<Account>, log: seq<Transaction>, caller: UserId, account: Option<int>, category: Option<Category>): (r: seq<Transaction>)
    ensures forall t :: t in r <==> t in log && Visible(accounts, caller, account, category, t)
  {
    if log == [] then []
    else
      var last := log[|log| - 1];
      Select(accounts, log[..|log| - 1], caller, account, category)
        + (if Visible(accounts, caller, account, category, last) then [last] else [])
  }

  /** `Select` keeps each visible row as many times as the log holds it, and no other row. */
  lemma {:induction false} SelectCounts(accounts: seq<Account>, log: seq<Transaction>, caller: UserId,
                                        account: Option<int>, category: Option<Category>)
    ensures forall t :: multiset(Select(accounts, log, caller, account, category))[t]
                          == if Visible(accounts, caller, account, category, t) then multiset(log)[t] else 0
  {
    if log != [] {
      var prefix, last := log[..|log| - 1], log[|log| - 1];
      SelectCounts(accounts, prefix, caller, account, category);
      assert log == prefix + [last];
    }
  }

  /** One page of the rows that `Select` keeps, newest first. */
  function NewestFirstPage(accounts: seq<Account>, log: seq<Transaction>, caller: UserId,
                           account: Option<int>, category: Option<Category>, offset: nat, limit: nat): (r: seq<Transaction>)
    ensures |r| <= limit && Ordered(r, Descending)
    ensures forall t :: t in r ==> t in log && Visible(accounts, caller, account, category, t)
    ensures exists all: seq<Transaction> ::
              && multiset(all) == multiset(Select(accounts, log, caller, account, category))
              && Ordered(all, Descending)
              && r == Page(all, offset, limit)
  {
    var selected := Select(accounts, log, caller, account, category);
    var all := Sort(selected, Descending);
    var page := Page(all, offset, limit);
    assert forall t :: t in page ==> t in all;
    assert forall t :: t in all ==> t in multiset(selected);
    page
  }

  /**
   * get_transactions: 404 when an account filter names an account the caller
   * does not own, then 400 for an unknown category; otherwise the page
   * [offset, offset + limit) of the caller's matching rows, newest first.
   */
  function ListTransactions(accounts: seq<Account>, log: seq<Transaction>, caller: UserId, q: TransactionQuery): (r: Result<seq<Transaction>>)
    requires 1 <= q.limit <= 100 && q.offset >= 0
    ensures r.Ok? <==>
              !(AccountFilterGiven(q) && !Owns(accounts, caller, q.accountId.value))
              && !(CategoryFilterGiven(q) && ParseCategory(q.category.value).None?)
    ensures r.Err? ==> r.error in {NotFound, InvalidCategory}
    ensures r == Err(NotFound) <==> AccountFilterGiven(q) && !Owns(accounts, caller, q.accountId.value)
    ensures r == Err(InvalidCategory) <==>
              !(AccountFilterGiven(q) && !Owns(accounts, caller, q.accountId.value))
              && CategoryFilterGiven(q) && ParseCategory(q.category.value).None?
    ensures r.Ok? ==> |r.value| <= q.limit && Ordered(r.value, Descending)
    ensures r.Ok? ==> forall t :: t in r.value ==> t in log && Owns(accounts, caller, t.accountId)
    ensures r.Ok? && AccountFilterGiven(q) ==> forall t :: t in r.value ==> t.accountId == q.accountId.value
    ensures r.Ok? && CategoryFilterGiven(q) ==>
              forall t :: t in r.value ==> t.category == ParseCategory(q.category.value)
    ensures r.Ok? ==>
              r.value == NewestFirstPage(accounts, log, caller,
                                         if AccountFilterGiven(q) then q.accountId else None,
                                         if CategoryFilterGiven(q) then ParseCategory(q.category.value) else None,
                                         q.offset, q.limit)
  {
    if AccountFilterGiven(q) && !Owns(accounts, caller, q.accountId.value) then Err(NotFound)
    else if CategoryFilterGiven(q) && ParseCategory(q.category.value).None? then Err(InvalidCategory)
    else
      var account := if AccountFilterGiven(q) then q.accountId else None;
      var category := if CategoryFilterGiven(q) then ParseCategory(q.category.value) else None;
      Ok(NewestFirstPage(accounts, log, caller, account, category, q.offset, q.limit))
  }
}
