# Ledger core of a small banking API, in Dafny

This project models the request handlers of a FastAPI banking service that
check and then change its ledger. The ledger has four tables: accounts, an
append-only log of transactions, transfer records and cards. The handlers
modelled are:

- account creation and the account getters;
- deposits, withdrawals and the filtered, paginated transaction listing;
- transfers between two accounts;
- card creation and the freeze / unfreeze / cancel state machine;
- account statements.

Modules, one per source file plus shared pieces:

| file | module | models |
|---|---|---|
| models.dfy | Models | enumerations and record shapes (`app/models.py`, the card fields of `app/routes/cards.py`) |
| text.dfy | Text | ASCII `upper`/`lower`/`isdigit` and `str(n)` |
| store.dfy | Store | the four tables as a `Session` class, the ledger invariant, and the lemmas that keep it |
| ordering.dfy | Ordering | `ORDER BY created_at` and `OFFSET/LIMIT` |
| accounts.dfy | Accounts | `app/routes/accounts.py` |
| transactions.dfy | Transactions | `app/routes/transactions.py` |
| transfers.dfy | Transfers | `app/routes/transfers.py` |
| cards.dfy | Cards | `app/routes/cards.py` |
| statements.dfy | Statements | `app/routes/statements.py` |

Money is a whole number of cents. A `Numeric(10, 2)` value v is the integer
100·v, so there is no rounding anywhere. Auto-increment keys are row
positions: the n-th row of a table has key n.

Handlers that write to the database are module-level methods that take the
session `db: Store.Session` and declare `modifies db`. Each is one atomic step: on success it commits; on any error
every table is as it was, which is the rollback. Every such method keeps
`Session.Valid()`, which states:

- every balance equals the signed sum of its account's log rows, with
  credits adding and debits subtracting;
- no balance is negative;
- log keys are consecutive, and every log row names an existing account and
  has a positive amount;
- every transfer row names a DEBIT leg on its source and a CREDIT leg on its
  destination, both for its amount and with the reference `TRF-` + the first
  8 characters of its id;
- transfer ids are distinct;
- card keys are consecutive, cards name existing accounts, and card numbers
  are distinct.

Handlers that only read the database are functions, or methods when the
source computes with a loop (the statement balances, the card-number
search).

The route code imports names that `app/models.py` does not define:
`Card`, `CardType`, `CardStatus`, `TransactionDirection` and
`TransactionCategory`. That file also has no `category` column on
transactions. The model follows the route code. Card fields come from
`app/routes/cards.py:145-154`. The transaction direction is DEBIT/CREDIT,
and a transaction has an optional category: deposits and withdrawals set
it, transfer legs do not.

## Model

| member | source | states |
|---|---|---|
| `Accounts.ParseAccountType` | app/routes/accounts.py:20-26 | a type is recognised exactly when its upper-cased name is CHECKING or SAVINGS, and the result names that type |
| `Accounts.ParseAccountTypeAnyCase` | app/routes/accounts.py:21 | each account type is recognised from its name in upper and in lower case |
| `Accounts.CreateAccount` | app/routes/accounts.py:14-40 | fails with 400 exactly for an unknown type and then changes nothing; otherwise it appends one account: the caller's, next key, balance 0, ACTIVE, the requested currency or USD |
| `Models.NewAccount` | app/routes/accounts.py:28-34 | the inserted account row: the given key, owner and type, balance 0, ACTIVE, the given currency or the column default "USD" (app/models.py:61-63) |
| `Accounts.OwnedAccounts` | app/routes/accounts.py:43-49 | exactly the accounts whose owner is the caller, each as many times as it occurs in the table |
| `Accounts.GetAccount` | app/routes/accounts.py:52-66 | 404 exactly when the account is missing or not the caller's; otherwise the caller's account with that key |
| `Accounts.GetAccountTransactions` | app/routes/accounts.py:69-87 | 404 exactly for an account the caller does not own; otherwise exactly that account's rows, newest first, as a permutation of its history |
| `Store.HistoryMembers` | app/routes/accounts.py:83-85 | an account's history holds exactly the log rows whose account is that account |
| `Store.NetIsHistorySum` | app/routes/transactions.py:64-68 | the net used by the ledger invariant is the signed sum of the account's history |
| `Store.Adjusted` | app/routes/transactions.py:68 | moving one balance by delta changes that balance by delta and no other account field or account |
| `Store.RecordKeepsLedger` | app/routes/transactions.py:55-68 | appending a row with the next key and moving its account's balance by its signed amount keeps the ledger invariant, when the balance stays non-negative |
| `Store.PostingPairKeepsLedger` | app/routes/transfers.py:94-120 | appending a debit on the source and a credit on the destination, and moving both balances, keeps the ledger invariant when the source covers the amount |
| `Store.NetOfUnusedKey` | app/routes/accounts.py:28-34 | an account key that no log row names has net 0 |
| `Store.OpenAccountKeepsLedger` | app/routes/accounts.py:28-36 | adding a fresh account with balance 0 and the next key keeps the ledger invariant |
| `Store.AdjustedShiftsTotal` | app/routes/transfers.py:119-120 | moving one balance by delta moves the sum of all balances by delta |
| `Store.Prefix` | app/routes/transfers.py:91 | Python's `s[:n]`: a prefix of s of length n when s is that long, and s itself, whole, when it is not longer than n |
| `Store.AddTransferKeepsLinks` | app/routes/transfers.py:123-132 | adding a transfer row with an unused id that names its legs keeps every transfer linked and every id distinct |
| `Store.PostingTransferKeepsLinks` | app/routes/transfers.py:89-132 | appending both legs and then the transfer row keeps every transfer linked and every id distinct |
| `Store.CardNumbers` | app/routes/cards.py:126 | the set of issued card numbers: a number is in it exactly when some card has it |
| `Text.NatToString` | app/routes/transfers.py:98 | `str(n)` is a non-empty string of decimal digits whose value is n, with no leading zero unless it is "0" itself |
| `Text.Upper` | app/routes/accounts.py:21 | `str.upper` keeps the length and upper-cases each ASCII letter |
| `Text.Lower` | app/routes/statements.py:113 | `str.lower` keeps the length and lower-cases each ASCII letter |
| `Text.UpperLowerRoundTrip` | app/routes/transactions.py:197 | an enumeration name survives folding to lower case and back |
| `Ordering.Sort` | app/routes/transactions.py:206 | `ORDER BY created_at` returns the same rows (as a multiset), in order |
| `Ordering.Page` | app/routes/transactions.py:209 | `OFFSET o LIMIT l` keeps the rows from o on, at most l of them, in place |
| `Transactions.OrDefault` | app/routes/transactions.py:59 | `value or default`: the value when present and non-empty, otherwise the default |
| `Transactions.AccountGuard` | app/routes/transactions.py:24-49 | checks in order: amount > 0 (400), account exists (404), caller owns it (403), ACTIVE (400); each error is reported exactly when the checks before it pass and its own fails, and the guard passes exactly when all hold |
| `Models.StatusCode` | app/routes/transfers.py:22-87 | the HTTP status of each error: 404 exactly for not-found, 403 exactly for forbidden, 500 exactly for no unique card number and for an unhandled exception, 400 for every other refusal |
| `Transactions.WithdrawalGuard` | app/routes/transactions.py:94-129 | the same checks, then 400 exactly when the balance is below the amount |
| `Transactions.CreateDeposit` | app/routes/transactions.py:16-83 | on a failed check, that error and nothing changes; otherwise one CREDIT row (category DEPOSIT, description defaulting to "Deposit") is appended and the balance rises by the amount |
| `Transactions.CreateWithdrawal` | app/routes/transactions.py:86-160 | on a failed check, that error and nothing changes; otherwise one DEBIT row is appended and the balance falls by the amount, never below 0 |
| `Transactions.DepositRow` | app/routes/transactions.py:55-62 | the deposit row is a CREDIT of the amount on the account (signed effect +amount), category DEPOSIT, no reference, described by the request or "Deposit" |
| `Transactions.WithdrawalRow` | app/routes/transactions.py:132-139 | the withdrawal row is a DEBIT of the amount (signed effect −amount), category WITHDRAWAL, no reference, described by the request or "Withdrawal" |
| `Transactions.DepositThenWithdraw` | app/routes/transactions.py:55-145 | a successful deposit of A followed by a withdrawal of A succeeds and leaves every balance as it was |
| `Transactions.ParseCategory` | app/routes/transactions.py:195-203 | a category is recognised exactly when its upper-cased name is one of the four category names |
| `Transactions.ParseCategoryAnyCase` | app/routes/transactions.py:197 | each category is recognised from its name in upper and in lower case |
| `Transactions.Select` | app/routes/transactions.py:174-198 | exactly the log rows on the caller's accounts that pass the account and category filters |
| `Transactions.SelectCounts` | app/routes/transactions.py:174-198 | the filtered rows keep each visible log row as many times as the log holds it, and no other row |
| `Transactions.NewestFirstPage` | app/routes/transactions.py:205-209 | the page is an OFFSET/LIMIT window of a newest-first ordering of exactly the selected rows |
| `Transactions.ListTransactions` | app/routes/transactions.py:163-211 | succeeds exactly when the account filter (if any) names an account the caller owns and the category filter (if any) is known; otherwise 404 for the account, then 400 for the category; an id of 0 or an empty category means no filter; on success at most `limit` of the caller's matching rows, newest first |
| `Transfers.TransferGuard` | app/routes/transfers.py:22-87 | passes exactly when every condition of a transfer holds, including an unused transfer id |
| `Transfers.TransferGuardPrecedence` | app/routes/transfers.py:22-87 | a refusal is one of the eight error kinds the handler raises, each reported exactly when every earlier check passes and its own fails, in the source's order: amount, same account, source missing (404), not owned (403), source not ACTIVE, destination missing (404), destination not ACTIVE, currency mismatch, insufficient balance, id collision |
| `Transfers.DestinationOwnerIrrelevant` | app/routes/transfers.py:57-70 | the destination's owner never affects the outcome: a transfer may go to anyone's account |
| `Transfers.DebitLeg` | app/routes/transfers.py:93-100 | the source leg is a DEBIT of the amount on the source with the transfer reference, described "Transfer to account <destination>" unless a description is given |
| `Transfers.CreditLeg` | app/routes/transfers.py:106-113 | the destination leg is a CREDIT of the amount on the destination with the same reference, described "Transfer from account <source>" unless a description is given |
| `Transfers.TransferReferenceShape` | app/routes/transfers.py:89-91 | the reference is 12 characters: "TRF-" then the first 8 characters of the transfer id |
| `Transfers.TransferKeepsTotal` | app/routes/transfers.py:118-120 | debiting the source and crediting the destination by the same amount leaves the sum of all balances unchanged |
| `Transfers.TransferRow` | app/routes/transfers.py:122-131 | the transfer row repeats source, destination, amount and the request's description as given, and names the debit and credit keys |
| `Transfers.PostTransfer` | app/routes/transfers.py:93-135 | appends both legs and the row and moves both balances, keeping every ledger invariant |
| `Transfers.ExecuteTransfer` | app/routes/transfers.py:89-147 | an allowed transfer appends the debit then the credit leg and the linked row, moves both balances, and keeps the total of all balances |
| `Transfers.CreateTransfer` | app/routes/transfers.py:16-157 | fails exactly when a check fails, with the first failing check's error and no change at all; otherwise the effect of ExecuteTransfer |
| `Cards.CardNumber` | app/routes/cards.py:28-30 | a generated card number has 16 characters, each the decimal digit drawn for that position |
| `Cards.CardNumberBijective` | app/routes/cards.py:28-30 | different draws give different numbers, and every 16-digit string is some draw's number |
| `Cards.FirstFresh` | app/routes/cards.py:121-128 | the first draw whose number is not taken, all earlier ones being taken; none exactly when every draw is taken |
| `Cards.DrawCardNumber` | app/routes/cards.py:122-128 | the retry loop makes between 1 and 100 attempts, stops at the first unused number, and otherwise ends on the 100th, taken, number |
| `Cards.CheckAsWritten` | app/routes/cards.py:130-134 | the check as written passes exactly a present, non-empty number, unchanged, and otherwise answers the 500 error |
| `Cards.AsWrittenIssuesTakenNumber` | app/routes/cards.py:122-134 | as written, when all 100 draws are taken, the check passes and a taken number is issued |
| `Cards.AsWrittenCounterexample` | app/routes/cards.py:122-134 | a concrete input (100 draws of the one issued number) on which the as-written check issues a duplicate |
| `Cards.PickCardNumber` | app/routes/cards.py:121-134 | the corrected search: succeeds exactly when some draw is unused, with the first unused number; otherwise fails with 500 |
| `Cards.Cvv` | app/routes/cards.py:61-64 | three decimal digits whose value is h mod 1000 (zero-padded) |
| `Cards.HexValue` | app/routes/cards.py:61 | `int(s, 16)` of n hexadecimal digits is below 16^n |
| `Cards.CvvMessage` | app/routes/cards.py:51 | the signed message is the card number, then ':', then the YYYYMM expiry |
| `Cards.CvvMessageInjective` | app/routes/cards.py:48-51 | with 16-digit card numbers the message determines both the number and the expiry |
| `Cards.GenerateCvv` | app/routes/cards.py:33-64 | the CVV is three digits whose value is the first 8 hex digits of the HMAC of "number:YYYYMM", mod 1000 |
| `Cards.ValidateCvv` | app/routes/cards.py:68-81 | only a three-digit string can be accepted |
| `Cards.ValidateCvvExact` | app/routes/cards.py:80-81 | the generated CVV is accepted, and a string is accepted exactly when it is three digits of the regenerated value |
| `Cards.Transition` | app/routes/cards.py:237-317 | freeze succeeds only from ACTIVE, unfreeze only from FROZEN, cancel from anything but CANCELLED; success moves to the action's target status; CANCELLED refuses everything; all refusals are 400 |
| `Cards.NoWayOutOfCancelled` | app/routes/cards.py:237-317 | no series of freeze, unfreeze and cancel requests leaves CANCELLED |
| `Cards.CancelIsFinal` | app/routes/cards.py:311-317 | after a cancel, whatever requests follow, the card stays cancelled |
| `Cards.FreezeUnfreezeRoundTrip` | app/routes/cards.py:243-283 | freeze then unfreeze gives an active card back, unfreeze then freeze a frozen one, and a second freeze changes nothing |
| `Cards.GetCard` | app/routes/cards.py:192-213 | 404 exactly when the card is missing or on an account that is not the caller's; otherwise the card with the requested key |
| `Cards.OwnedCards` | app/routes/cards.py:176-189 | exactly the cards on the caller's accounts, each as many times as in the table |
| `Cards.CardActionOutcome` | app/routes/cards.py:226-317 | 404 when the card is missing or not the caller's, before any status check; success only moves the card to a new, different status |
| `Cards.StatusChangeKeepsCards` | app/routes/cards.py:249 | changing a card's status keeps card keys, accounts and number uniqueness |
| `Cards.ApplyCardAction` | app/routes/cards.py:216-321 | on refusal nothing changes; on success only the one card's status changes, to the action's target |
| `Cards.CardGuard` | app/routes/cards.py:95-119 | checks in order: account owned (404), account ACTIVE (400), PIN of exactly four digits (400) |
| `Cards.PinCheckByLength` | app/routes/cards.py:115-119 | a PIN of any length other than 4 is refused, and four digits always pass |
| `Cards.AddCardKeepsCards` | app/routes/cards.py:121-157 | adding a card with the next key, an existing account and an unused number keeps card numbers distinct |
| `Cards.NewCard` | app/routes/cards.py:145-154 | a new card is ACTIVE and carries the request's account, holder, type and limit |
| `Cards.CreateCard` | app/routes/cards.py:84-173 | uses the corrected search `Cards.PickCardNumber` (see "## Findings"), not the search as written: fails with the first failed check, or 500 when every draw is taken, changing nothing; otherwise appends one ACTIVE card with the first unused drawn number and returns its CVV |
| `Statements.ParseFormat` | app/routes/statements.py:112-172 | the format is recognised exactly when its lower-cased name is json, csv or pdf |
| `Statements.ParseFormatAnyCase` | app/routes/statements.py:113 | every format is recognised from its name in lower and in upper case, and any name that lower-cases to none of json, csv, pdf is refused |
| `Statements.FilterMembers` | app/routes/statements.py:53-64 | the opening query (`Before`) keeps exactly the account's rows created strictly before the start, and the period query (`Within`) exactly those with start ≤ created_at ≤ end |
| `Statements.InRange` | app/routes/statements.py:53-58 | the in-range rows in ascending time order, as a permutation of those rows |
| `Statements.SumOf` | app/routes/statements.py:73-80 | a direction's total is 0 when there is no row of that direction, and never negative for positive amounts |
| `Statements.SignedSumSplit` | app/routes/statements.py:66-82 | the signed sum of rows is total credits minus total debits |
| `Statements.SignedSumPermutation` | app/routes/statements.py:60-71 | the opening balance does not depend on the order the unordered query returns |
| `Statements.BeforeWithinPartition` | app/routes/statements.py:53-71 | when no row is later than the end, the rows before and inside the period make up the account's whole net |
| `Statements.ClosingIsBalance` | app/routes/statements.py:60-82 | for a period reaching past the account's last row, the closing balance is the account's balance |
| `Statements.OpeningBalance` | app/routes/statements.py:66-71 | the loop computes the signed sum of the rows: credits minus debits |
| `Statements.RunningBalances` | app/routes/statements.py:133-156 | after each row the opening balance moved by every row so far; after the last row, opening + credits − debits |
| `Statements.Row` | app/routes/statements.py:97-107 | each row carries the transaction's date, description, reference, direction and category (null when it has none), and has exactly one of debit and credit equal to the amount and the other 0, according to the direction |
| `Statements.Rows` | app/routes/statements.py:97-109 | one row per in-range transaction, in order |
| `Statements.StatementGuard` | app/routes/statements.py:43-51 | checks in order: account owned (404), start before end (400), format known (400, checked at lines 261-265) |
| `Statements.StatementOutcomeAsWritten` | app/routes/statements.py:36-109 | the handler as written: 404, then 400 for the period; a 500 when an in-range row has no category (`txn.category.value`); only then 400 for the format; the statement is built only when every check passes |
| `Statements.AsWrittenFailsOnUncategorisedRow` | app/routes/statements.py:97-109 | as written, a period holding a row without a category (a transfer leg) answers 500, even when every check passes or only the format is wrong |
| `Statements.GenerateStatement` | app/routes/statements.py:24-265 | the corrected handler (see "## Findings"): fails exactly with the first failed check; otherwise the opening balance, the in-range rows ascending within the period, count, totals, closing = opening + credits − debits, and a CSV/PDF Balance column whose k-th entry is the opening balance plus the signed sum of the first k+1 rows, ending at the closing balance |

## Left out

- Authentication: the caller is an opaque user id. Login, JWT, password hashing and the rate limiter are not part of this model.
- The PIN's bcrypt hash is an input of `Cards.CreateCard`, not computed.
- Storage plumbing: commit, refresh and rollback are one atomic step per handler. The generic `except Exception` 500 paths are not modelled; the only unhandled failure modelled is the statement's read of `txn.category.value` on a row without a category (see "## Findings"). An integrity error is modelled only for a transfer-id collision.
- Row locks (`with_for_update`) and concurrency: each handler is one atomic step.
- Randomness: each card-number draw (16 digits from `secrets.randbelow(10)`) is an input, and so is the transfer's `uuid4` string.
- HMAC-SHA256 is an input function from the message to a 64-hex-digit digest. The secret key is folded into that function.
- Time: the creation timestamp, the card expiry (now + 3 years) and its `strftime("%Y%m")` rendering are inputs. Timestamps are opaque ordered values.
- Rendering: CSV and PDF bytes, file names and the 30-character description cut in the PDF are not modelled. Only the statement data and the Balance column values are.
- Floats: `float(...)` in responses is not modelled; money is exact cents.
- Card ids are UUIDs in the source. Here they are row positions, like the other keys.
- The masked card number of `CardOut.from_card` lives in `app/schemas.py`. `app/schemas.py` is not part of this model; the getters return whole rows.
- Unicode: `upper`, `lower` and `isdigit` act on ASCII only. Non-ASCII digits and case mappings are not modelled.
- An explicitly null currency in `create_account` gets the column default "USD", as an omitted one does.
- The `limit` (1..100) and `offset` (≥ 0) bounds of the listing are enforced by request validation before the handler runs. Here they are preconditions of `Transactions.ListTransactions`. The query defaults (`limit=50`, `offset=0`, app/routes/transactions.py:167-168) and the statement's default `format="json"` (app/routes/statements.py:31) are applied by the framework before the handler runs; the model takes the resulting values as inputs.
- Column precision: `Numeric(precision=10, scale=2)` (app/models.py:61, 76, 90) bounds balances and amounts below 10^8 currency units. Cents are unbounded here, and a value the database would refuse is not modelled.
- Request amounts arrive as floats. A float with more than two decimals, such as 0.001, passes the `> 0` checks and is then stored by the database with its scale of 2. The model takes request amounts as whole cents, so such inputs have no counterpart.
- The statement route declares `account_id: UUID` (app/routes/statements.py:28) while account keys are integers (app/models.py:58). The model uses the integer key, as every other route does.

## Findings

| source | as written | input that shows it | evidently intended | confidence | as-written member | corrected member |
|---|---|---|---|---|---|---|
| app/routes/cards.py:122-134 | after the loop, `if not card_number` checks the last drawn number, which is always a 16-digit string, so the 500 branch can never run | all 100 draws produce a number that is already issued (e.g. 100 draws of an issued number) | fail with 500 when no unused number was found | high (not executed) | `Cards.AsWrittenIssuesTakenNumber` | `Cards.PickCardNumber` |
| app/routes/statements.py:97-109 | every statement row reads `txn.category.value`, but transfer legs are created with no category (app/routes/transfers.py:93-113), so `None.value` raises and the unhandled exception is a 500 | an owned account with a transfer leg dated inside [start, end], any format | two readings: either build the statement with a null category for transfer legs (the reading `Statements.GenerateStatement` models), or give transfer legs the category TRANSFER, which the listing offers as a filter value (app/routes/transactions.py:166) yet no handler ever sets, so `category=TRANSFER` matches no row as written; either way an unknown format is a 400 | high (not executed) | `Statements.AsWrittenFailsOnUncategorisedRow` | `Statements.GenerateStatement` |
