/**
 * Account creation and the owner-scoped account lookups.
 */
module Accounts {
  import opened Models
  import opened Store
  import opened Text
  import opened Ordering

  /** The request body of account creation; `currency` is None when the client omits it. */
  datatype AccountCreate = AccountCreate(kind: string, currency: Option<string>)

  function AccountTypeName(k: AccountType): string
  {
    match k
    case Checking => "CHECKING"
    case Savings => "SAVINGS"
  }

  /** `AccountType[s.upper()]`: the account type named by `s` in any letter case. */
  function ParseAccountType(s: string): (r: Option<AccountType>)
    ensures r.Some? <==> Upper(s) == "CHECKING" || Upper(s) == "SAVINGS"
    ensures r.Some? ==> AccountTypeName(r.value) == Upper(s)
  {
    var u := Upper(s);
    if u == "CHECKING" then Some(Checking)
    else if u == "SAVINGS" then Some(Savings)
    else None
  }

  /** Every account type is recognised from its name, in upper or in lower case. */
  lemma ParseAccountTypeAnyCase(k: AccountType)
    ensures ParseAccountType(AccountTypeName(k)) == Some(k)
    ensures ParseAccountType(Lower(AccountTypeName(k))) == Some(k)
  {
    UpperLowerRoundTrip(AccountTypeName(k));
  }

  /**
   * create_account: an unknown type creates nothing; otherwise the next
   * account row belongs to the caller, starts at balance 0 and is ACTIVE.
   */
  method CreateAccount(db: Session, caller: UserId, req: AccountCreate, now: Timestamp) returns (r: Result<Account>)
    requires db.Valid()
    modifies db
    ensures db.Valid()
    ensures db.transactions == old(db.transactions) && db.transfers == old(db.transfers) && db.cards == old(db.cards)
    ensures r.Err? <==> ParseAccountType(req.kind).None?
    ensures r.Err? ==> r.error == InvalidAccountType && db.accounts == old(db.accounts)
    ensures r.Ok? ==> db.accounts == old(db.accounts) + [r.value]
    ensures r.Ok? ==> r.value.id == |old(db.accounts)| + 1 && r.value.owner == caller
    ensures r.Ok? ==> Some(r.value.kind) == ParseAccountType(req.kind)
    ensures r.Ok? ==> r.value.balance == 0 && r.value.status == AccountStatus.Active
    ensures r.Ok? ==> r.value.currency == (if req.currency.Some? then req.currency.value else "USD")
  {
    var kind := ParseAccountType(req.kind);
    if kind.None? {
      return Err(InvalidAccountType);
    }
    var a := NewAccount(|db.accounts| + 1, caller, kind.value, req.currency, now);
    OpenAccountKeepsLedger(db.accounts, db.transactions, a);
    db.accounts := db.accounts + [a];
    r := Ok(a);
  }

  /** get_accounts: the caller's accounts, in key order. */
  function OwnedAccounts(accounts: seq<Account>, caller: UserId): (r: seq<Account>)
    ensures forall a :: a in r <==> a in accounts && a.owner == caller
    ensures forall a :: multiset(r)[a] == if a.owner == caller then multiset(accounts)[a] else 0
    ensures |r| <= |accounts|
  {
    if accounts == [] then []
    else
      var last := accounts[|accounts| - 1];
      assert accounts == accounts[..|accounts| - 1] + [last];
      OwnedAccounts(accounts[..|accounts| - 1], caller) + (if last.owner == caller then [last] else [])
  }

  /** get_account: the account with key `id` when the caller owns it, and 404 otherwise. */
  function GetAccount(accounts: seq<Account>, caller: UserId, id: int): (r: Result<Account>)
    ensures r.Ok? <==> Owns(accounts, caller, id)
    ensures r.Err? ==> r.error == NotFound
    ensures r.Ok? ==> r.value in accounts && r.value.owner == caller
    ensures r.Ok? && KeysArePositions(accounts) ==> r.value.id == id
  {
    if Owns(accounts, caller, id) then Ok(accounts[id - 1]) else Err(NotFound)
  }

  /**
   * get_account_transactions: 404 unless the caller owns the account;
   * otherwise all of that account's transactions, newest first.
   */
  function GetAccountTransactions(accounts: seq<Account>, log: seq<Transaction>, caller: UserId, id: int): (r: Result<seq<Transaction>>)
    ensures r.Err? <==> !Owns(accounts, caller, id)
    ensures r.Err? ==> r.error == NotFound
    ensures r.Ok? ==> Ordered(r.value, Descending)
    ensures r.Ok? ==> multiset(r.value) == multiset(History(log, id))
    ensures r.Ok? ==> forall t :: t in r.value <==> t in log && t.accountId == id
  {
    if !Owns(accounts, caller, id) then Err(NotFound)
    else
      var rows := Sort(History(log, id), Descending);
      HistoryMembers(log, id);
      assert forall t :: t in rows <==> t in multiset(History(log, id));
      Ok(rows)
  }
}
