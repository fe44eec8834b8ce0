/**
 * Transfers between two accounts: a chain of checks, then a DEBIT leg on the
 * source, a CREDIT leg on the destination sharing one reference, the two
 * balance changes and a transfer row linking both legs — all or nothing.
 */
module Transfers {
  import opened Models
  import opened Store
  import opened Text
  import Transactions

  /** The request body of a transfer. */
  datatype TransferCreate = TransferCreate(source: int, destination: int, amount: Cents, description: Option<string>)

  /** Every condition a transfer needs, in no particular order. */
  predicate TransferAllowed(accounts: seq<Account>, transfers: seq<Transfer>, caller: UserId, req: TransferCreate, transferId: string)
  {
    && req.amount > 0
    && req.source != req.destination
    && Owns(accounts, caller, req.source)
    && accounts[req.source - 1].status == AccountStatus.Active
    && Find(accounts, req.destination).Some?
    && accounts[req.destination - 1].status == AccountStatus.Active
    && accounts[req.source - 1].currency == accounts[req.destination - 1].currency
    && accounts[req.source - 1].balance >= req.amount
    && !TransferIdTaken(transfers, transferId)
  }

  /** The source account exists, is the caller's and is ACTIVE. */
  predicate SourceUsable(accounts: seq<Account>, caller: UserId, req: TransferCreate)
  {
    Owns(accounts, caller, req.source) && accounts[req.source - 1].status == AccountStatus.Active
  }

  /** The destination account exists and is ACTIVE; whose it is does not matter. */
  predicate DestinationUsable(accounts: seq<Account>, req: TransferCreate)
  {
    Find(accounts, req.destination).Some? && accounts[req.destination - 1].status == AccountStatus.Active
  }

  /** The checks of create_transfer, in the order it makes them; None when the transfer may go ahead. */
  function TransferGuard(accounts: seq<Account>, transfers: seq<Transfer>, caller: UserId, req: TransferCreate, transferId: string): (r: Option<Error>)
    ensures r.None? <==> TransferAllowed(accounts, transfers, caller, req, transferId)
  {
    if req.amount <= 0 then Some(InvalidAmount)
    else if req.source == req.destination then Some(SameAccount)
    else if Find(accounts, req.source).None? then Some(NotFound)
    else if accounts[req.source - 1].owner != caller then Some(Forbidden)
    else if accounts[req.source - 1].status != AccountStatus.Active then Some(NotActive)
    else if Find(accounts, req.destination).None? then Some(NotFound)
    else if accounts[req.destination - 1].status != AccountStatus.Active then Some(NotActive)
    else if accounts[req.source - 1].currency != accounts[req.destination - 1].currency then Some(CurrencyMismatch)
    else if accounts[req.source - 1].balance < req.amount then Some(InsufficientBalance)
    else if TransferIdTaken(transfers, transferId) then Some(IntegrityError)
    else None
  }

  /**
   * Which error a refused transfer reports: one of the eight kinds the
   * handler raises, and each exactly when every check made before it has
   * passed and its own check fails.
   */
  lemma TransferGuardPrecedence(accounts: seq<Account>, transfers: seq<Transfer>, caller: UserId, req: TransferCreate, transferId: string)
    ensures var r := TransferGuard(accounts, transfers, caller, req, transferId);
      && (r.Some? ==> r.value in {InvalidAmount, SameAccount, NotFound, Forbidden, NotActive,
                                  CurrencyMismatch, InsufficientBalance, IntegrityError})
      && (r == Some(InvalidAmount) <==> req.amount <= 0)
      && (r == Some(SameAccount) <==> req.amount > 0 && req.source == req.destination)
      && (r == Some(NotFound) <==>
            req.amount > 0 && req.source != req.destination
            && (Find(accounts, req.source).None?
                || (SourceUsable(accounts, caller, req) && Find(accounts, req.destination).None?)))
      && (r == Some(Forbidden) <==>
            req.amount > 0 && req.source != req.destination
            && Find(accounts, req.source).Some? && accounts[req.source - 1].owner != caller)
      && (r == Some(NotActive) <==>
            req.amount > 0 && req.source != req.destination && Owns(accounts, caller, req.source)
            && (accounts[req.source - 1].status != AccountStatus.Active
                || (Find(accounts, req.destination).Some? && accounts[req.destination - 1].status != AccountStatus.Active)))
      && (r == Some(CurrencyMismatch) <==>
            req.amount > 0 && req.source != req.destination
            && SourceUsable(accounts, caller, req) && DestinationUsable(accounts, req)
            && accounts[req.source - 1].currency != accounts[req.destination - 1].currency)
      && (r == Some(InsufficientBalance) <==>
            req.amount > 0 && req.source != req.destination
            && SourceUsable(accounts, caller, req) && DestinationUsable(accounts, req)
            && accounts[req.source - 1].currency == accounts[req.destination - 1].currency
            && accounts[req.source - 1].balance < req.amount)
      && (r == Some(IntegrityError) <==>
            TransferAllowed(accounts, [], caller, req, transferId) && TransferIdTaken(transfers, transferId))
  {
  }

  /** The destination need not belong to the caller: who owns it never changes the outcome of the checks. */
  lemma DestinationOwnerIrrelevant(accounts: seq<Account>, transfers: seq<Transfer>, caller: UserId, req: TransferCreate,
                                   transferId: string, otherOwner: UserId)
    requires 1 <= req.destination <= |accounts|
    ensures TransferGuard(accounts[req.destination - 1 := accounts[req.destination - 1].(owner := otherOwner)],
                          transfers, caller, req, transferId)
            == TransferGuard(accounts, transfers, caller, req, transferId)
  {
  }

  /** The DEBIT leg on the source, keyed `id`, carrying the transfer's reference. */
  function DebitLeg(id: nat, req: TransferCreate, transferId: string, now: Timestamp): (t: Transaction)
    requires req.source >= 0 && req.destination >= 0
    ensures t.id == id && t.kind == Debit && t.accountId == req.source && t.amount == req.amount
    ensures t.reference == Some(TransferReference(transferId)) && t.category == None
    ensures req.description.Some? && req.description.value != "" ==> t.description == req.description
    ensures req.description.None? || req.description.value == "" ==>
              t.description == Some("Transfer to account " + NatToString(req.destination))
  {
    Transaction(id, req.source, Debit, req.amount,
                Some(Transactions.OrDefault(req.description, "Transfer to account " + NatToString(req.destination))),
                Some(TransferReference(transferId)), None, now)
  }

  /** The CREDIT leg on the destination, keyed `id`, carrying the same reference. */
  function CreditLeg(id: nat, req: TransferCreate, transferId: string, now: Timestamp): (t: Transaction)
    requires req.source >= 0 && req.destination >= 0
    ensures t.id == id && t.kind == Credit && t.accountId == req.destination && t.amount == req.amount
    ensures t.reference == Some(TransferReference(transferId)) && t.category == None
    ensures req.description.Some? && req.description.value != "" ==> t.description == req.description
    ensures req.description.None? || req.description.value == "" ==>
              t.description == Some("Transfer from account " + NatToString(req.source))
  {
    Transaction(id, req.destination, Credit, req.amount,
                Some(Transactions.OrDefault(req.description, "Transfer from account " + NatToString(req.source))),
                Some(TransferReference(transferId)), None, now)
  }

  /** A reference is "TRF-" followed by the first eight characters of the transfer id. */
  lemma TransferReferenceShape(transferId: string)
    requires |transferId| >= 8
    ensures |TransferReference(transferId)| == 12
    ensures TransferReference(transferId)[..4] == "TRF-"
    ensures TransferReference(transferId)[4..] == transferId[..8]
  {
  }

  /** A transfer moves money between two balances; the sum of all balances is the same afterwards. */
  lemma {:induction false} TransferKeepsTotal(accounts: seq<Account>, req: TransferCreate)
    requires 1 <= req.source <= |accounts| && 1 <= req.destination <= |accounts|
    ensures TotalBalance(Adjusted(Adjusted(accounts, req.source, -req.amount), req.destination, req.amount))
            == TotalBalance(accounts)
  {
    AdjustedShiftsTotal(accounts, req.source, -req.amount);
    AdjustedShiftsTotal(Adjusted(accounts, req.source, -req.amount), req.destination, req.amount);
  }

  /** The transfer row recorded for the legs keyed `n + 1` and `n + 2`. */
  function TransferRow(n: nat, req: TransferCreate, transferId: string, now: Timestamp): (row: Transfer)
    requires req.source >= 0 && req.destination >= 0
    ensures row.id == transferId && row.sourceTransactionId == n + 1 && row.destinationTransactionId == n + 2
    ensures row.source == req.source && row.destination == req.destination && row.amount == req.amount
    ensures row.description == req.description && row.createdAt == now
  {
    Transfer.Transfer(transferId, req.source, req.destination, req.amount, req.description, n + 1, n + 2, now)
  }

  /**
   * Writing a transfer that passed its checks: append the DEBIT leg and the
   * CREDIT leg, move both balances, and add the transfer row naming both legs.
   */
  method PostTransfer(db: Session, source: nat, destination: nat, amount: Cents,
                      debit: Transaction, credit: Transaction, row: Transfer)
    requires db.Valid()
    requires 1 <= source <= |db.accounts| && 1 <= destination <= |db.accounts| && source != destination
    requires 0 < amount <= db.accounts[source - 1].balance
    requires debit.id == |db.transactions| + 1 && debit.kind == Debit && debit.accountId == source && debit.amount == amount
    requires credit.id == |db.transactions| + 2 && credit.kind == Credit && credit.accountId == destination && credit.amount == amount
    requires row.source == source && row.destination == destination && row.amount == amount
    requires row.sourceTransactionId == |db.transactions| + 1 && row.destinationTransactionId == |db.transactions| + 2
    requires debit.reference == Some(TransferReference(row.id)) && credit.reference == Some(TransferReference(row.id))
    requires !TransferIdTaken(db.transfers, row.id)
    modifies db
    ensures db.Valid()
    ensures db.transactions == old(db.transactions) + [debit] + [credit]
    ensures db.accounts == Adjusted(Adjusted(old(db.accounts), source, -amount), destination, amount)
    ensures db.transfers == old(db.transfers) + [row]
    ensures db.cards == old(db.cards)
  {
    PostingTransferKeepsLinks(db.transfers, db.transactions, debit, credit, row);
    PostingPairKeepsLedger(db.accounts, db.transactions, source, destination, amount, debit, credit);
    db.transactions := db.transactions + [debit] + [credit];
    db.accounts := Adjusted(Adjusted(db.accounts, source, -amount), destination, amount);
    db.transfers := db.transfers + [row];
  }

  /**
   * The write half of create_transfer, for a transfer that passed every
   * check: two rows are appended (the DEBIT leg, then the CREDIT leg), the
   * source falls and the destination rises by exactly the amount, the sum of
   * all balances stays the same, and one transfer row linking both legs is
   * added.
   */
  method ExecuteTransfer(db: Session, caller: UserId, req: TransferCreate, transferId: string, now: Timestamp)
    returns (row: Transfer)
    requires db.Valid() && TransferAllowed(db.accounts, db.transfers, caller, req, transferId)
    modifies db
    ensures db.Valid()
    ensures db.cards == old(db.cards)
    ensures req.source >= 1 && req.destination >= 1
    ensures var n := |old(db.transactions)|;
            && db.transactions == old(db.transactions)
                                  + [DebitLeg(n + 1, req, transferId, now)] + [CreditLeg(n + 2, req, transferId, now)]
            && row == TransferRow(n, req, transferId, now)
    ensures db.accounts == Adjusted(Adjusted(old(db.accounts), req.source, -req.amount), req.destination, req.amount)
    ensures db.transfers == old(db.transfers) + [row]
    ensures TotalBalance(db.accounts) == TotalBalance(old(db.accounts))
  {
    var n := |db.transactions|;
    row := TransferRow(n, req, transferId, now);
    var debit, credit := DebitLeg(n + 1, req, transferId, now), CreditLeg(n + 2, req, transferId, now);
    TransferKeepsTotal(db.accounts, req);
    PostTransfer(db, req.source, req.destination, req.amount, debit, credit, row);
  }

  /**
   * create_transfer: when a check fails nothing changes at all and the first
   * failing check's error is reported; otherwise the transfer is executed.
   */
  method CreateTransfer(db: Session, caller: UserId, req: TransferCreate, transferId: string, now: Timestamp)
    returns (r: Result<Transfer>)
    requires db.Valid()
    modifies db
    ensures db.Valid()
    ensures db.cards == old(db.cards)
    ensures r.Err? <==> !TransferAllowed(old(db.accounts), old(db.transfers), caller, req, transferId)
    ensures r.Err? ==> Some(r.error) == TransferGuard(old(db.accounts), old(db.transfers), caller, req, transferId)
    ensures r.Err? ==>
              db.accounts == old(db.accounts) && db.transactions == old(db.transactions)
              && db.transfers == old(db.transfers)
    ensures r.Ok? ==>
              && req.source >= 1 && req.destination >= 1
              && var n := |old(db.transactions)|;
              && db.transactions == old(db.transactions)
                                    + [DebitLeg(n + 1, req, transferId, now)] + [CreditLeg(n + 2, req, transferId, now)]
              && db.accounts == Adjusted(Adjusted(old(db.accounts), req.source, -req.amount), req.destination, req.amount)
              && r.value == TransferRow(n, req, transferId, now)
              && db.transfers == old(db.transfers) + [r.value]
              && TotalBalance(db.accounts) == TotalBalance(old(db.accounts))
  {
    var e := TransferGuard(db.accounts, db.transfers, caller, req, transferId);
    if e.Some? {
      return Err(e.value);
    }
    var row := ExecuteTransfer(db, caller, req, transferId, now);
    r := Ok(row);
  }
}
