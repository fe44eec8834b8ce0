/**
 * Cards: creation with its checks and its bounded search for an unused card
 * number, the deterministic CVV, and the freeze / unfreeze / cancel state
 * machine in which CANCELLED is terminal.
 *
 * The random digits of each card-number draw, the HMAC-SHA256 of the CVV,
 * the bcrypt hash of the PIN and the clock are inputs of the operations.
 */
module Cards {
  import opened Models
  import opened Store
  import opened Text

  /** The request body of card creation. */
  datatype CardCreate = CardCreate(
    accountId: int,
    holderName: string,
    pin: string,
    kind: CardType,
    spendingLimit: Option<Cents>)

  /** What create_card answers: the stored row and the CVV, which is never stored. */
  datatype CardCreated = CardCreated(card: Card, cvv: string)

  const CardNumberLength: nat := 16
  const MaxAttempts: nat := 100

  // ----- generate_card_number -----

  /** One draw: sixteen independent decimal digits. */
  predicate IsDraw(draw: seq<Digit>)
  {
    |draw| == CardNumberLength
  }

  predicate AreDraws(draws: seq<seq<Digit>>)
  {
    forall i :: 0 <= i < |draws| ==> IsDraw(draws[i])
  }

  /** generate_card_number: the draw written out, one character per digit. */
  function CardNumber(draw: seq<Digit>): (n: string)
    requires IsDraw(draw)
    ensures |n| == CardNumberLength && IsDigits(n)
    ensures forall i :: 0 <= i < |n| ==> DigitOf(n[i]) == draw[i]
  {
    seq(CardNumberLength, i requires 0 <= i < CardNumberLength => DigitChar(draw[i]))
  }

  /** Distinct draws give distinct card numbers, and every 16-digit string is the number of some draw. */
  lemma {:induction false} CardNumberBijective(a: seq<Digit>, b: seq<Digit>, n: string)
    requires IsDraw(a) && IsDraw(b)
    ensures CardNumber(a) == CardNumber(b) ==> a == b
    ensures |n| == CardNumberLength && IsDigits(n) ==>
      exists d :: IsDraw(d) && CardNumber(d) == n
  {
    if CardNumber(a) == CardNumber(b) {
      forall i | 0 <= i < CardNumberLength
        ensures a[i] == b[i]
      {
        assert DigitOf(CardNumber(a)[i]) == DigitOf(CardNumber(b)[i]);
      }
    }
    if |n| == CardNumberLength && IsDigits(n) {
      var d: seq<Digit> := seq(CardNumberLength, i requires 0 <= i < CardNumberLength => DigitOf(n[i]));
      assert CardNumber(d) == n;
    }
  }

  // ----- the search for an unused number (create_card) -----

  /** The index of the first draw whose number is not taken, if any. */
  function FirstFresh(draws: seq<seq<Digit>>, taken: set<string>): (r: Option<nat>)
    requires AreDraws(draws)
    ensures r.Some? ==> r.value < |draws| && CardNumber(draws[r.value]) !in taken
    ensures r.Some? ==> forall i :: 0 <= i < r.value ==> CardNumber(draws[i]) in taken
    ensures r.None? <==> forall i :: 0 <= i < |draws| ==> CardNumber(draws[i]) in taken
  {
    if draws == [] then None
    else if CardNumber(draws[0]) !in taken then Some(0)
    else
      match FirstFresh(draws[1..], taken)
      case None => None
      case Some(k) => Some(k + 1)
  }

  /**
   * The retry loop: draw, look the number up, stop at the first unused one,
   * and give up after MaxAttempts draws. `cardNumber` is Python's
   * `card_number` (None before the first draw) and `collides` its `exists`.
   */
  method DrawCardNumber(draws: seq<seq<Digit>>, taken: set<string>)
    returns (cardNumber: Option<string>, collides: bool, attempts: nat)
    requires |draws| == MaxAttempts && AreDraws(draws)
    ensures 1 <= attempts <= MaxAttempts
    ensures cardNumber == Some(CardNumber(draws[attempts - 1]))
    ensures collides <==> cardNumber.value in taken
    ensures !collides ==> FirstFresh(draws, taken) == Some(attempts - 1)
    ensures collides ==> attempts == MaxAttempts && FirstFresh(draws, taken).None?
  {
    cardNumber, collides, attempts := None, true, 0;
    while attempts < MaxAttempts
      invariant 0 <= attempts <= MaxAttempts
      invariant collides
      invariant attempts == 0 <==> cardNumber.None?
      invariant attempts > 0 ==> cardNumber == Some(CardNumber(draws[attempts - 1]))
      invariant forall i :: 0 <= i < attempts ==> CardNumber(draws[i]) in taken
    {
      var n := CardNumber(draws[attempts]);
      cardNumber := Some(n);
      collides := n in taken;
      attempts := attempts + 1;
      if !collides {
        return;
      }
    }
  }

  /** The check after the loop as written: `if not card_number`. */
  function CheckAsWritten(cardNumber: Option<string>): (r: Result<string>)
    ensures r.Ok? <==> cardNumber.Some? && cardNumber.value != ""
    ensures r.Ok? ==> cardNumber == Some(r.value)
    ensures r.Err? ==> r.error == NoUniqueCardNumber
  {
    if cardNumber.None? || cardNumber.value == "" then Err(NoUniqueCardNumber) else Ok(cardNumber.value)
  }

  /**
   * As written, the check cannot fire after the loop: when every draw
   * collides the last drawn number, which is taken, is issued anyway.
   */
  lemma AsWrittenIssuesTakenNumber(draws: seq<seq<Digit>>, taken: set<string>)
    requires |draws| == MaxAttempts && AreDraws(draws)
    requires FirstFresh(draws, taken).None?
    ensures var n := CardNumber(draws[MaxAttempts - 1]);
      CheckAsWritten(Some(n)) == Ok(n) && n in taken
  {
  }

  /** A concrete input: all one hundred draws give the one number already issued. */
  lemma {:induction false} AsWrittenCounterexample()
    ensures var zeros: seq<Digit> := seq(CardNumberLength, _ => 0);
      var draws := seq(MaxAttempts, _ => zeros);
      var taken := {CardNumber(zeros)};
      FirstFresh(draws, taken).None? &&
      CheckAsWritten(Some(CardNumber(draws[MaxAttempts - 1]))) == Ok(CardNumber(zeros)) &&
      CardNumber(zeros) in taken
  {
    var zeros: seq<Digit> := seq(CardNumberLength, _ => 0);
    var draws := seq(MaxAttempts, _ => zeros);
    AsWrittenIssuesTakenNumber(draws, {CardNumber(zeros)});
  }

  /**
   * The search with the check the 500 response is meant for: fail when the
   * last lookup still found the number, so a number is issued only if unused.
   */
  method PickCardNumber(draws: seq<seq<Digit>>, taken: set<string>) returns (r: Result<string>)
    requires |draws| == MaxAttempts && AreDraws(draws)
    ensures r.Ok? <==> FirstFresh(draws, taken).Some?
    ensures r.Ok? ==> r.value == CardNumber(draws[FirstFresh(draws, taken).value]) && r.value !in taken
    ensures r.Err? ==> r.error == NoUniqueCardNumber && StatusCode(r.error) == 500
  {
    var cardNumber, collides, _ := DrawCardNumber(draws, taken);
    if collides {
      return Err(NoUniqueCardNumber);
    }
    r := Ok(cardNumber.value);
  }

  // ----- generate_cvv / validate_cvv -----

  type Nibble = n: int | 0 <= n < 16

  /** A SHA-256 hexdigest: 64 hexadecimal digits, most significant first. */
  type HexDigest = s: seq<Nibble> | |s| == 64 witness seq(64, _ => 0)

  /** The value of a string of hexadecimal digits: int(s, 16). */
  function HexValue(s: seq<Nibble>): (v: nat)
    ensures v < Power16(|s|)
  {
    if s == [] then 0 else 16 * HexValue(s[..|s| - 1]) + s[|s| - 1]
  }

  /** 16 to the power n: one more than the largest value of n hexadecimal digits. */
  function Power16(n: nat): (p: nat)
    ensures p >= 1
  {
    if n == 0 then 1 else 16 * Power16(n - 1)
  }

  /** f"{h % 1000:03d}": three decimal digits, zero-padded, of value h mod 1000. */
  function Cvv(h: nat): (c: string)
    ensures |c| == 3 && IsDigits(c)
    ensures DigitsValue(c) == h % 1000
  {
    var v := h % 1000;
    var c := [DigitChar(v / 100), DigitChar(v / 10 % 10), DigitChar(v % 10)];
    ThreeDigitsValue(c);
    c
  }

  /** The value of three decimal digits. */
  lemma {:induction false} ThreeDigitsValue(c: string)
    requires |c| == 3 && IsDigits(c)
    ensures DigitsValue(c) == 100 * DigitOf(c[0]) + 10 * DigitOf(c[1]) + DigitOf(c[2])
  {
    var c1, c2 := c[..1], c[..2];
    assert c2[..1] == c1 && c1[..0] == [];
    assert DigitsValue(c1) == DigitOf(c[0]);
    assert DigitsValue(c2) == 10 * DigitOf(c[0]) + DigitOf(c[1]);
  }

  /** The message the HMAC signs: card number, a colon, and the expiry as YYYYMM. */
  function CvvMessage(number: string, expiryMonth: string): (m: string)
    ensures |m| == |number| + 1 + |expiryMonth|
    ensures m[..|number|] == number && m[|number|] == ':' && m[|number| + 1..] == expiryMonth
  {
    number + ":" + expiryMonth
  }

  /**
   * Card numbers all have sixteen digits, so the signed message determines
   * both the number and the expiry: two cards share a message only when
   * they share both.
   */
  lemma {:induction false} CvvMessageInjective(n1: string, e1: string, n2: string, e2: string)
    requires |n1| == CardNumberLength && |n2| == CardNumberLength
    requires CvvMessage(n1, e1) == CvvMessage(n2, e2)
    ensures n1 == n2 && e1 == e2
  {
    var m := CvvMessage(n1, e1);
    assert n1 == m[..CardNumberLength] == n2;
    assert e1 == m[CardNumberLength + 1..] == e2;
  }

  /**
   * generate_cvv: the first eight hex digits of the HMAC of the message,
   * as a number, reduced modulo 1000 and zero-padded to three digits.
   */
  function GenerateCvv(mac: string -> HexDigest, number: string, expiryMonth: string): (c: string)
    ensures |c| == 3 && IsDigits(c)
    ensures DigitsValue(c) == HexValue(mac(CvvMessage(number, expiryMonth))[..8]) % 1000
  {
    Cvv(HexValue(mac(CvvMessage(number, expiryMonth))[..8]))
  }

  /** validate_cvv: regenerate the CVV and compare. */
  function ValidateCvv(mac: string -> HexDigest, number: string, expiryMonth: string, provided: string): (ok: bool)
    ensures ok ==> |provided| == 3 && IsDigits(provided)
  {
    GenerateCvv(mac, number, expiryMonth) == provided
  }

  /**
   * The CVV handed out at creation is accepted for the same card and expiry,
   * and an accepted CVV is exactly the regenerated one: no other string of
   * the same value (such as "7" for "007") passes.
   */
  lemma {:induction false} ValidateCvvExact(mac: string -> HexDigest, number: string, expiryMonth: string, provided: string)
    ensures ValidateCvv(mac, number, expiryMonth, GenerateCvv(mac, number, expiryMonth))
    ensures ValidateCvv(mac, number, expiryMonth, provided) <==>
      |provided| == 3 && IsDigits(provided) &&
      DigitsValue(provided) == HexValue(mac(CvvMessage(number, expiryMonth))[..8]) % 1000
  {
    var c := GenerateCvv(mac, number, expiryMonth);
    if |provided| == 3 && IsDigits(provided) && DigitsValue(provided) == DigitsValue(c) {
      ThreeDigitsDetermined(provided, c);
    }
  }

  /** Two three-digit strings of the same value are equal. */
  lemma {:induction false} ThreeDigitsDetermined(a: string, b: string)
    requires |a| == 3 && IsDigits(a) && |b| == 3 && IsDigits(b)
    requires DigitsValue(a) == DigitsValue(b)
    ensures a == b
  {
    ThreeDigitsValue(a);
    ThreeDigitsValue(b);
    var a0: int, a1: int, a2: int := DigitOf(a[0]), DigitOf(a[1]), DigitOf(a[2]);
    var b0: int, b1: int, b2: int := DigitOf(b[0]), DigitOf(b[1]), DigitOf(b[2]);
    assert a0 == b0 && a1 == b1 && a2 == b2;
    DigitOfInjective(a[0], b[0]);
    DigitOfInjective(a[1], b[1]);
    DigitOfInjective(a[2], b[2]);
  }

  lemma DigitOfInjective(x: char, y: char)
    requires IsDigit(x) && IsDigit(y) && DigitOf(x) == DigitOf(y)
    ensures x == y
  {
  }

  // ----- the card state machine (freeze_card, unfreeze_card, cancel_card) -----

  datatype CardAction = Freeze | Unfreeze | Cancel

  /** The status each action leads to when it is allowed. */
  function Target(action: CardAction): CardStatus
  {
    match action
    case Freeze => CardStatus.Frozen
    case Unfreeze => CardStatus.Active
    case Cancel => CardStatus.Cancelled
  }

  /**
   * The status checks of the three handlers, in their order: freeze refuses a
   * cancelled and then a frozen card, unfreeze anything but a frozen card,
   * cancel a cancelled card.
   */
  function Transition(status: CardStatus, action: CardAction): (r: Result<CardStatus>)
    ensures r.Ok? ==> r.value == Target(action) && r.value != status
    ensures action == Freeze ==> (r.Ok? <==> status == CardStatus.Active)
    ensures action == Unfreeze ==> (r.Ok? <==> status == CardStatus.Frozen)
    ensures action == Cancel ==> (r.Ok? <==> status != CardStatus.Cancelled)
    ensures status == CardStatus.Cancelled ==> r.Err?
    ensures status == CardStatus.Cancelled && action != Unfreeze ==> r == Err(CardIsCancelled)
    ensures status == CardStatus.Frozen && action == Freeze ==> r == Err(CardIsFrozen)
    ensures r.Err? ==> StatusCode(r.error) == 400
  {
    match action
    case Freeze =>
      if status == CardStatus.Cancelled then Err(CardIsCancelled)
      else if status == CardStatus.Frozen then Err(CardIsFrozen)
      else assert status == CardStatus.Active; Ok(CardStatus.Frozen)
    case Unfreeze =>
      if status != CardStatus.Frozen then Err(CardNotFrozen) else Ok(CardStatus.Active)
    case Cancel =>
      if status == CardStatus.Cancelled then Err(CardIsCancelled) else Ok(CardStatus.Cancelled)
  }

  /** The status after a series of requests; a refused request leaves it as it was. */
  function Run(status: CardStatus, actions: seq<CardAction>): CardStatus
    decreases |actions|
  {
    if actions == [] then status
    else
      var r := Transition(status, actions[0]);
      Run(if r.Ok? then r.value else status, actions[1..])
  }

  /** Running two series one after the other is running their concatenation. */
  lemma {:induction false} RunConcat(status: CardStatus, a: seq<CardAction>, b: seq<CardAction>)
    ensures Run(status, a + b) == Run(Run(status, a), b)
    decreases |a|
  {
    if a == [] {
      assert a + b == b;
    } else {
      assert (a + b)[1..] == a[1..] + b;
      var r := Transition(status, a[0]);
      RunConcat(if r.Ok? then r.value else status, a[1..], b);
    }
  }

  /** No series of requests leaves CANCELLED. */
  lemma {:induction false} NoWayOutOfCancelled(actions: seq<CardAction>)
    ensures Run(CardStatus.Cancelled, actions) == CardStatus.Cancelled
  {
    if actions != [] {
      NoWayOutOfCancelled(actions[1..]);
    }
  }

  /** Once a card has been cancelled, whatever follows, it stays cancelled. */
  lemma {:induction false} CancelIsFinal(status: CardStatus, before: seq<CardAction>, after: seq<CardAction>)
    ensures Run(status, before + [Cancel] + after) == CardStatus.Cancelled
  {
    RunConcat(status, before + [Cancel], after);
    RunConcat(status, before, [Cancel]);
    NoWayOutOfCancelled(after);
  }

  /** Freezing and then unfreezing an active card gives it back, and the reverse for a frozen card. */
  lemma FreezeUnfreezeRoundTrip()
    ensures Run(CardStatus.Active, [Freeze, Unfreeze]) == CardStatus.Active
    ensures Run(CardStatus.Frozen, [Unfreeze, Freeze]) == CardStatus.Frozen
    ensures Run(CardStatus.Active, [Freeze, Freeze]) == CardStatus.Frozen
  {
    assert [Freeze, Unfreeze][1..] == [Unfreeze];
    assert [Unfreeze, Freeze][1..] == [Freeze];
    assert [Freeze, Freeze][1..] == [Freeze];
  }

  // ----- lookups -----

  /** The join `Card.id == card_id AND Account.user_id == caller` finds a row. */
  predicate OwnsCard(accounts: seq<Account>, cards: seq<Card>, caller: UserId, cardId: int)
  {
    1 <= cardId <= |cards| && Owns(accounts, caller, cards[cardId - 1].accountId)
  }

  /** get_card: the card when its account is the caller's, and 404 otherwise. */
  function GetCard(accounts: seq<Account>, cards: seq<Card>, caller: UserId, cardId: int): (r: Result<Card>)
    ensures r.Err? <==> !OwnsCard(accounts, cards, caller, cardId)
    ensures r.Err? ==> r.error == NotFound
    ensures r.Ok? ==> r.value in cards && Owns(accounts, caller, r.value.accountId)
    ensures r.Ok? ==> r.value == cards[cardId - 1]
  {
    if OwnsCard(accounts, cards, caller, cardId) then Ok(cards[cardId - 1]) else Err(NotFound)
  }

  /** get_cards: the cards of the caller's accounts, in key order. */
  function OwnedCards(accounts: seq<Account>, cards: seq<Card>, caller: UserId): (r: seq<Card>)
    ensures forall c :: c in r <==> c in cards && Owns(accounts, caller, c.accountId)
    ensures forall c :: multiset(r)[c] == if Owns(accounts, caller, c.accountId) then multiset(cards)[c] else 0
    ensures |r| <= |cards|
  {
    if cards == [] then []
    else
      var last := cards[|cards| - 1];
      assert cards == cards[..|cards| - 1] + [last];
      OwnedCards(accounts, cards[..|cards| - 1], caller) + (if Owns(accounts, caller, last.accountId) then [last] else [])
  }

  /** The answer of a state-changing card request: 404 first, then the status checks. */
  function CardActionOutcome(accounts: seq<Account>, cards: seq<Card>, caller: UserId, cardId: int, action: CardAction): (r: Result<CardStatus>)
    ensures !OwnsCard(accounts, cards, caller, cardId) ==> r == Err(NotFound)
    ensures OwnsCard(accounts, cards, caller, cardId) ==> r == Transition(cards[cardId - 1].status, action)
    ensures r.Ok? ==> r.value == Target(action) && r.value != cards[cardId - 1].status
  {
    if !OwnsCard(accounts, cards, caller, cardId) then Err(NotFound)
    else Transition(cards[cardId - 1].status, action)
  }

  /** Changing a card's status keeps the card table well formed. */
  lemma {:induction false} StatusChangeKeepsCards(cards: seq<Card>, accountCount: nat, k: nat, status: CardStatus)
    requires CardsWellFormed(cards, accountCount) && k < |cards|
    ensures CardsWellFormed(cards[k := cards[k].(status := status)], accountCount)
  {
    var cards' := cards[k := cards[k].(status := status)];
    assert forall j :: 0 <= j < |cards| ==> cards'[j].number == cards[j].number;
  }

  /**
   * freeze_card, unfreeze_card, cancel_card: on success only the status of
   * the one card changes; on any refusal nothing changes.
   */
  method ApplyCardAction(db: Session, caller: UserId, cardId: int, action: CardAction) returns (r: Result<Card>)
    requires db.Valid()
    modifies db
    ensures db.Valid()
    ensures db.accounts == old(db.accounts) && db.transactions == old(db.transactions) && db.transfers == old(db.transfers)
    ensures r.Err? ==> db.cards == old(db.cards)
    ensures r.Err? ==> Err(r.error) == CardActionOutcome(old(db.accounts), old(db.cards), caller, cardId, action)
    ensures r.Ok? ==> CardActionOutcome(old(db.accounts), old(db.cards), caller, cardId, action) == Ok(r.value.status)
    ensures r.Ok? ==> r.value == old(db.cards)[cardId - 1].(status := Target(action))
    ensures r.Ok? ==> db.cards == old(db.cards)[cardId - 1 := r.value]
  {
    var outcome := CardActionOutcome(db.accounts, db.cards, caller, cardId, action);
    if outcome.Err? {
      return Err(outcome.error);
    }
    var card := db.cards[cardId - 1].(status := outcome.value);
    StatusChangeKeepsCards(db.cards, |db.accounts|, cardId - 1, outcome.value);
    db.cards := db.cards[cardId - 1 := card];
    r := Ok(card);
  }

  // ----- create_card -----

  /** The PIN check: exactly four characters, all decimal digits. */
  predicate ValidPin(pin: string)
  {
    |pin| == 4 && IsDigits(pin)
  }

  /** The checks of create_card before the number search, in their order. */
  function CardGuard(accounts: seq<Account>, caller: UserId, req: CardCreate): (r: Option<Error>)
    ensures r == Some(NotFound) <==> !Owns(accounts, caller, req.accountId)
    ensures r == Some(NotActive) <==>
      Owns(accounts, caller, req.accountId) && accounts[req.accountId - 1].status != AccountStatus.Active
    ensures r == Some(InvalidPin) <==>
      Owns(accounts, caller, req.accountId) && accounts[req.accountId - 1].status == AccountStatus.Active && !ValidPin(req.pin)
    ensures r.None? || r == Some(NotFound) || r == Some(NotActive) || r == Some(InvalidPin)
  {
    if !Owns(accounts, caller, req.accountId) then Some(NotFound)
    else if accounts[req.accountId - 1].status != AccountStatus.Active then Some(NotActive)
    else if !ValidPin(req.pin) then Some(InvalidPin)
    else None
  }

  /** A four-digit PIN never trips the PIN check, and a PIN of any other length always does. */
  lemma PinCheckByLength(accounts: seq<Account>, caller: UserId, req: CardCreate)
    requires Owns(accounts, caller, req.accountId) && accounts[req.accountId - 1].status == AccountStatus.Active
    ensures |req.pin| != 4 ==> CardGuard(accounts, caller, req) == Some(InvalidPin)
    ensures |req.pin| == 4 && IsDigits(req.pin) ==> CardGuard(accounts, caller, req).None?
  {
  }

  /** Adding a card with the next key, an existing account and an unused number keeps the card table well formed. */
  lemma AddCardKeepsCards(cards: seq<Card>, accountCount: nat, c: Card)
    requires CardsWellFormed(cards, accountCount)
    requires c.id == |cards| + 1 && 1 <= c.accountId <= accountCount
    requires c.number !in CardNumbers(cards)
    ensures CardsWellFormed(cards + [c], accountCount)
  {
  }

  /** The row create_card inserts: ACTIVE, with the request's holder, type and limit. */
  function NewCard(id: nat, req: CardCreate, number: string, pinHash: string, expiry: Timestamp): (c: Card)
    requires req.accountId >= 0
    ensures c.id == id && c.accountId == req.accountId && c.number == number
    ensures c.status == CardStatus.Active && c.pinHash == pinHash && c.expiry == expiry
    ensures c.holderName == req.holderName && c.kind == req.kind && c.spendingLimit == req.spendingLimit
  {
    Card(id, req.accountId, number, req.holderName, pinHash, req.kind, expiry, CardStatus.Active, req.spendingLimit)
  }

  /**
   * create_card: the three checks, then the number search; on success one
   * ACTIVE card with an unused number is appended and its CVV returned.
   * The bcrypt hash of the PIN, the expiry three years ahead and its YYYYMM
   * rendering are inputs.
   */
  method CreateCard(db: Session, caller: UserId, req: CardCreate, draws: seq<seq<Digit>>,
                    mac: string -> HexDigest, pinHash: string, expiry: Timestamp, expiryMonth: string)
    returns (r: Result<CardCreated>)
    requires db.Valid()
    requires |draws| == MaxAttempts && AreDraws(draws)
    modifies db
    ensures db.Valid()
    ensures db.accounts == old(db.accounts) && db.transactions == old(db.transactions) && db.transfers == old(db.transfers)
    ensures r.Err? <==> CardGuard(old(db.accounts), caller, req).Some? || FirstFresh(draws, CardNumbers(old(db.cards))).None?
    ensures r.Err? ==> db.cards == old(db.cards)
    ensures r.Err? && CardGuard(old(db.accounts), caller, req).Some? ==> Some(r.error) == CardGuard(old(db.accounts), caller, req)
    ensures r.Err? && CardGuard(old(db.accounts), caller, req).None? ==> r.error == NoUniqueCardNumber
    ensures r.Ok? ==> db.cards == old(db.cards) + [r.value.card]
    ensures r.Ok? ==> r.value.card == NewCard(|old(db.cards)| + 1, req,
      CardNumber(draws[FirstFresh(draws, CardNumbers(old(db.cards))).value]), pinHash, expiry)
    ensures r.Ok? ==> r.value.card.number !in CardNumbers(old(db.cards))
    ensures r.Ok? ==> r.value.cvv == GenerateCvv(mac, r.value.card.number, expiryMonth)
  {
    var failure := CardGuard(db.accounts, caller, req);
    if failure.Some? {
      return Err(failure.value);
    }
    var picked := PickCardNumber(draws, CardNumbers(db.cards));
    if picked.Err? {
      return Err(picked.error);
    }
    var card := NewCard(|db.cards| + 1, req, picked.value, pinHash, expiry);
    AddCardKeepsCards(db.cards, |db.accounts|, card);
    db.cards := db.cards + [card];
    r := Ok(CardCreated(card, GenerateCvv(mac, card.number, expiryMonth)));
  }
}
