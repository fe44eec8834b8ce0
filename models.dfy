/**
 * Entities of the ledger: the enumerations and the record shapes of accounts,
 * transactions, transfers and cards, with the defaults the records take.
 *
 * Money is held as whole cents: a Numeric(precision=10, scale=2) value v is the
 * integer 100 * v, so two fractional digits are exact by construction.
 * Primary keys that the database assigns by auto-increment are modelled as the
 * position of the row in its table plus one.
 */
module Models {

  datatype Option<+T> = None | Some(value: T)

  /** Outcome of a request handler: a committed value, or a typed error. */
  datatype Result<+T> = Ok(value: T) | Err(error: Error)

  type UserId = int
  type Cents = int

  /** The moment a row is created, as an opaque, totally ordered clock value. */
  type Timestamp = int

  datatype AccountType = Checking | Savings

  datatype AccountStatus = Active | Frozen | Closed

  /** Direction of a transaction: CREDIT adds to the balance, DEBIT subtracts. */
  datatype TransactionType = Debit | Credit

  datatype Category = Transfer | Deposit | Withdrawal | CardPayment

  datatype CardType = DebitCard | CreditCard

  datatype CardStatus = Active | Frozen | Cancelled

  datatype Account = Account(
    id: nat,
    owner: UserId,
    kind: AccountType,
    balance: Cents,
    currency: string,
    status: AccountStatus,
    createdAt: Timestamp)

  /**
   * A row of the append-only log. Account, direction and amount are required;
   * description, reference and category are optional.
   */
  datatype Transaction = Transaction(
    id: nat,
    accountId: nat,
    kind: TransactionType,
    amount: Cents,
    description: Option<string>,
    reference: Option<string>,
    category: Option<Category>,
    createdAt: Timestamp)

  /** A transfer always names both of its legs: neither transaction id is optional. */
  datatype Transfer = Transfer(
    id: string,
    source: nat,
    destination: nat,
    amount: Cents,
    description: Option<string>,
    sourceTransactionId: nat,
    destinationTransactionId: nat,
    createdAt: Timestamp)

  datatype Card = Card(
    id: nat,
    accountId: nat,
    number: string,
    holderName: string,
    pinHash: string,
    kind: CardType,
    expiry: Timestamp,
    status: CardStatus,
    spendingLimit: Option<Cents>)

  /** The typed failures of the handlers; StatusCode gives the HTTP status of each. */
  datatype Error =
    | NotFound
    | Forbidden
    | InvalidAmount
    | SameAccount
    | NotActive
    | InsufficientBalance
    | CurrencyMismatch
    | InvalidAccountType
    | InvalidCategory
    | InvalidPin
    | InvalidDateRange
    | InvalidFormat
    | CardIsCancelled
    | CardIsFrozen
    | CardNotFrozen
    | IntegrityError
    | NoUniqueCardNumber
    | InternalError

  function StatusCode(e: Error): (code: int)
    ensures code in {400, 403, 404, 500}
    ensures code == 404 <==> e == NotFound
    ensures code == 403 <==> e == Forbidden
    ensures code == 500 <==> e == NoUniqueCardNumber || e == InternalError
  {
    match e
    case NotFound => 404
    case Forbidden => 403
    case NoUniqueCardNumber => 500
    case InternalError => 500
    case _ => 400
  }

  const DefaultCurrency: string := "USD"

  /**
   * A freshly inserted account row: the column defaults give balance 0,
   * currency "USD" when none is supplied, and status ACTIVE.
   */
  function NewAccount(id: nat, owner: UserId, kind: AccountType, currency: Option<string>, now: Timestamp): (a: Account)
    ensures a.id == id && a.owner == owner && a.kind == kind && a.createdAt == now
    ensures a.balance == 0 && a.status == AccountStatus.Active
    ensures currency.Some? ==> a.currency == currency.value
    ensures currency.None? ==> a.currency == "USD"
  {
    Account(id, owner, kind, 0, if currency.Some? then currency.value else DefaultCurrency, AccountStatus.Active, now)
  }

  /** The effect of a transaction on its account's balance. */
  function Signed(t: Transaction): int
  {
    if t.kind == Credit then t.amount else -t.amount
  }
}
