/**
  The card record and its failable construction (`Card.init?`): the number, the
  expiration month and year, and the security code are each validated, and any
  validation error makes construction yield `nil`.
*/
module CardModel {
  import opened Wrappers
  import opened Characters
  import StringExtensions

  /** The identity a persisted card is hashed and compared by. */
  type CardId = nat

  /** `CardError`. */
  datatype CardError = InvalidCharacterError | InvalidLengthError

  /** A stored card. The name is carried as given; the other fields are validated text. */
  datatype Card = Card(
    id: CardId,
    name: seq<char>,
    number: seq<char>,
    expirationMonth: seq<char>,
    expirationYear: seq<char>,
    securityCode: seq<char>)

  /** `enforceAllAreDigits(in:)`: passes exactly when every character is numeric. */
  function EnforceAllAreDigits(s: seq<char>): (r: Outcome<CardError>)
    ensures r.Pass? <==> AllNumeric(s)
    ensures r.Fail? ==> r.error == InvalidCharacterError
  {
    FirstNonNumericFindsAny(s);
    if FirstNonNumeric(s) < |s| then Fail(InvalidCharacterError) else Pass
  }

  /** `enforceLength(of:equals:)`. */
  function EnforceLengthEquals(s: seq<char>, length: int): (r: Outcome<CardError>)
    ensures r.Pass? <==> |s| == length
    ensures r.Fail? ==> r.error == InvalidLengthError
  {
    if |s| != length then Fail(InvalidLengthError) else Pass
  }

  /** `enforceLength(of:isAtMost:)`. */
  function EnforceLengthAtMost(s: seq<char>, length: int): (r: Outcome<CardError>)
    ensures r.Pass? <==> |s| <= length
    ensures r.Fail? ==> r.error == InvalidLengthError
  {
    if |s| > length then Fail(InvalidLengthError) else Pass
  }

  /**
    `validatedCardNumber(_:)`: whitespace removed, then the digit check, then the
    length check against 16.
  */
  function ValidatedCardNumber(number: seq<char>): (r: Result<seq<char>, CardError>)
    ensures r.Ok? <==> AllNumeric(StripWhitespace(number)) && |StripWhitespace(number)| == 16
    ensures r.Ok? ==> r.value == StripWhitespace(number)
    ensures !AllNumeric(StripWhitespace(number)) ==> r == Err(InvalidCharacterError)
    ensures AllNumeric(StripWhitespace(number)) && |StripWhitespace(number)| != 16 ==> r == Err(InvalidLengthError)
  {
    var filtered := StripWhitespace(number);
    match EnforceAllAreDigits(filtered)
    case Fail(e) => Err(e)
    case Pass =>
      match EnforceLengthEquals(filtered, 16)
      case Fail(e) => Err(e)
      case Pass => Ok(filtered)
  }

  /**
    `validatedExpirationDate(_:)`: whitespace removed from month and year, both
    digit checks, then month at most 2 and year at most 4 characters.
  */
  function ValidatedExpirationDate(expirationDate: (seq<char>, seq<char>)): (r: Result<(seq<char>, seq<char>), CardError>)
    ensures var month, year := StripWhitespace(expirationDate.0), StripWhitespace(expirationDate.1);
      && (r.Ok? <==> AllNumeric(month) && AllNumeric(year) && |month| <= 2 && |year| <= 4)
      && (r.Ok? ==> r.value == (month, year))
      && (r.Err? ==> (r.error == InvalidCharacterError <==> !(AllNumeric(month) && AllNumeric(year))))
  {
    var month := StripWhitespace(expirationDate.0);
    var year := StripWhitespace(expirationDate.1);
    match EnforceAllAreDigits(month)
    case Fail(e) => Err(e)
    case Pass =>
      match EnforceAllAreDigits(year)
      case Fail(e) => Err(e)
      case Pass =>
        match EnforceLengthAtMost(month, 2)
        case Fail(e) => Err(e)
        case Pass =>
          match EnforceLengthAtMost(year, 4)
          case Fail(e) => Err(e)
          case Pass => Ok((month, year))
  }

  /** `validatedSecurityCode(_:)`: no whitespace removal; digit check, then exactly 3 characters. */
  function ValidatedSecurityCode(code: seq<char>): (r: Result<seq<char>, CardError>)
    ensures r.Ok? <==> AllNumeric(code) && |code| == 3
    ensures r.Ok? ==> r.value == code
    ensures !AllNumeric(code) ==> r == Err(InvalidCharacterError)
    ensures AllNumeric(code) && |code| != 3 ==> r == Err(InvalidLengthError)
  {
    match EnforceAllAreDigits(code)
    case Fail(e) => Err(e)
    case Pass =>
      match EnforceLengthEquals(code, 3)
      case Fail(e) => Err(e)
      case Pass => Ok(code)
  }

  /** The fields of a card that `init?` would have stored. */
  predicate WellFormed(card: Card)
  {
    && AllNumeric(card.number) && |card.number| == 16
    && AllNumeric(card.expirationMonth) && |card.expirationMonth| <= 2
    && AllNumeric(card.expirationYear) && |card.expirationYear| <= 4
    && AllNumeric(card.securityCode) && |card.securityCode| == 3
  }

  /**
    `Card.init?`: `nil` as soon as one validator throws; otherwise each field holds
    its validator's output. The name and the identity are stored as given.
  */
  function NewCard(
    id: CardId,
    name: seq<char>,
    number: seq<char>,
    expirationDate: (seq<char>, seq<char>),
    securityCode: seq<char>): (r: Option<Card>)
    ensures r.Some? <==>
      && ValidatedCardNumber(number).Ok?
      && ValidatedExpirationDate(expirationDate).Ok?
      && ValidatedSecurityCode(securityCode).Ok?
    ensures r.Some? ==>
      && r.value.id == id && r.value.name == name
      && r.value.number == ValidatedCardNumber(number).value
      && (r.value.expirationMonth, r.value.expirationYear) == ValidatedExpirationDate(expirationDate).value
      && r.value.securityCode == ValidatedSecurityCode(securityCode).value
    ensures r.Some? ==> WellFormed(r.value)
  {
    match ValidatedCardNumber(number)
    case Err(_) => None
    case Ok(n) =>
      match ValidatedExpirationDate(expirationDate)
      case Err(_) => None
      case Ok(date) =>
        match ValidatedSecurityCode(securityCode)
        case Err(_) => None
        case Ok(code) => Some(Card(id, name, n, date.0, date.1, code))
  }

  /** The card-number check is `compactNumeric()` followed by a length check against 16. */
  lemma ValidatedCardNumberIsCompactPlusLength(number: seq<char>)
    ensures ValidatedCardNumber(number) ==
      match StringExtensions.CompactNumeric(number)
      case Err(_) => Err(InvalidCharacterError)
      case Ok(r) => if |r| == 16 then Ok(r) else Err(InvalidLengthError)
  {
  }

  /** Whitespace in the input never changes the card-number verdict. */
  lemma ValidatedCardNumberIgnoresWhitespace(number: seq<char>)
    ensures ValidatedCardNumber(StripWhitespace(number)) == ValidatedCardNumber(number)
  {
    StripIdempotent(number);
  }

  /** Feeding a validated card number back in returns it unchanged. */
  lemma ValidatedCardNumberIdempotent(number: seq<char>)
    requires ValidatedCardNumber(number).Ok?
    ensures ValidatedCardNumber(ValidatedCardNumber(number).value) == ValidatedCardNumber(number)
  {
    StripIdempotent(number);
  }

  /** Whitespace in month or year never changes the expiration-date verdict. */
  lemma ValidatedExpirationDateIgnoresWhitespace(month: seq<char>, year: seq<char>)
    ensures ValidatedExpirationDate((StripWhitespace(month), StripWhitespace(year)))
         == ValidatedExpirationDate((month, year))
  {
    StripIdempotent(month);
    StripIdempotent(year);
  }

  /**
    Unlike the other fields, the security code is not stripped: any whitespace in it
    is an invalid character, so " 123" is rejected.
  */
  lemma SecurityCodeRejectsWhitespace(code: seq<char>, k: nat)
    requires k < |code| && IsWhitespace(code[k])
    ensures ValidatedSecurityCode(code) == Err(InvalidCharacterError)
  {
    assert !IsNumber(code[k]);
  }

  /** Construction succeeds on the stored fields of any well-formed card and rebuilds that card. */
  lemma NewCardRoundTrip(card: Card)
    requires WellFormed(card)
    ensures NewCard(card.id, card.name, card.number, (card.expirationMonth, card.expirationYear), card.securityCode)
         == Some(card)
  {
    StripKeepsNumeric(card.number);
    StripKeepsNumeric(card.expirationMonth);
    StripKeepsNumeric(card.expirationYear);
  }

  /** Constructing again from a constructed card's fields gives the same card. */
  lemma NewCardIdempotent(
    id: CardId, name: seq<char>, number: seq<char>,
    expirationDate: (seq<char>, seq<char>), securityCode: seq<char>)
    requires NewCard(id, name, number, expirationDate, securityCode).Some?
    ensures var card := NewCard(id, name, number, expirationDate, securityCode).value;
      NewCard(card.id, card.name, card.number, (card.expirationMonth, card.expirationYear), card.securityCode)
        == Some(card)
  {
    NewCardRoundTrip(NewCard(id, name, number, expirationDate, securityCode).value);
  }
}
