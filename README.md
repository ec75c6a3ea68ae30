# OmniCard card-record logic in Dafny

A model of the logic inside a small payment-card wallet app. The app's own code is Swift. The model covers four pieces:

- **Card validation** (`OmniCard/Models/Card.swift`). The failable `Card.init?` runs three validators. The card number is stripped of whitespace, then must be all digits and exactly 16 long. The expiration month and year are stripped, then must be digits, the month at most 2 characters and the year at most 4. The security code is not stripped, and must be digits and exactly 3 long. Any `CardError` makes the initialiser return `nil`.
- **Payment-network classification** (`OmniCard/Services/CardNetworkResolver.swift`). It is an ordered, first-match-wins chain of prefix and length rules giving visa, mastercard, amex, discover or unknown. It is modelled as written, including the operator-precedence quirk in the amex test (see Findings).
- **`String.compactNumeric()`** (`Diji/Extensions/Extensions.swift`). It removes whitespace, then throws `nonNumericCharacterFound(c)` at the first non-numeric character.
- **The card list screen** (`Cardlet/Views/ContentView.swift`). It keeps a set of revealed card identities and a single/multi mode flag. It has the tap handler, the mode toggle, swipe-to-delete, and the four formatters that show a card's name, number, expiration date and security code either masked or revealed.

Files:
- `Wrappers.dfy`: `Option`, `Result`, `Outcome`.
- `Characters.dfy`: Swift's character classes, the whitespace filter and the numeric scan.
- `StringExtensions.dfy`: `compactNumeric`.
- `CardModel.dfy`: the card record and its validators.
- `CardNetwork.dfy`: the resolver.
- `CardListView.dfy`: the list screen. The screen is a class whose methods change `selectedCards`, `allowMultipleCardDetailsDisplayed` and the listed cards in place. The loops in `cardNameFor` and `cardNumberFor` are methods proved against specification functions.

The model follows the code as written:
- The amex rule applies the length-15 test only to "37" (Findings).
- The security code is not stripped of whitespace (`OmniCard/Models/Card.swift:70-74`).
- The card number must have exactly 16 characters (`OmniCard/Models/Card.swift:43`).

A card is a value with an identity: `id`, `name`, `number`, `expirationMonth`, `expirationYear` and `securityCode`. The list screen compares cards by identity only.

## Model

| member | source | states |
|---|---|---|
| Characters.StripWhitespace | Diji/Extensions/Extensions.swift:17 | the filtered string has no whitespace, is no longer than the input, and holds only characters of the input |
| Characters.StripConcat | Diji/Extensions/Extensions.swift:17 | filtering distributes over concatenation, so the kept characters stay in their original order |
| Characters.StripFixesExactlyNoWhitespace | Diji/Extensions/Extensions.swift:17 | filtering leaves a string unchanged, and keeps its length, exactly when it has no whitespace |
| Characters.StripIdempotent | OmniCard/Models/Card.swift:37 | filtering whitespace twice equals filtering once |
| Characters.FirstNonNumeric | OmniCard/Models/Card.swift:78-82 | the scan stops at the first non-numeric character: everything before it is numeric, and it is not |
| StringExtensions.CompactNumeric | Diji/Extensions/Extensions.swift:15-27 | succeeds exactly when the filtered string is numeric; on success returns the input with whitespace removed in order, all numeric; a thrown character is in the input and is neither whitespace nor numeric |
| StringExtensions.StripNumericIff | Diji/Extensions/Extensions.swift:17-24 | the filtered string is numeric exactly when every input character is whitespace or numeric |
| StringExtensions.CompactNumericSucceedsIff | Diji/Extensions/Extensions.swift:15-27 | no throw exactly when the input holds only whitespace and numeric characters |
| StringExtensions.CompactNumericReportsFirstOffender | Diji/Extensions/Extensions.swift:20-23 | the thrown `nonNumericCharacterFound(c)` carries the first input character, in order, that is neither whitespace nor numeric |
| StringExtensions.CompactNumericIdempotent | Diji/Extensions/Extensions.swift:15-27 | applied to its own successful result it returns that result |
| StringExtensions.CompactNumericLength | Diji/Extensions/Extensions.swift:17 | result length is at most the input length, with equality exactly when the input has no whitespace |
| CardModel.EnforceAllAreDigits | OmniCard/Models/Card.swift:77-83 | passes exactly when every character is numeric, otherwise fails with `invalidCharacterError` |
| CardModel.EnforceLengthEquals | OmniCard/Models/Card.swift:86-90 | fails, with `invalidLengthError`, exactly when the count differs from the length |
| CardModel.EnforceLengthAtMost | OmniCard/Models/Card.swift:93-97 | fails, with `invalidLengthError`, exactly when the count exceeds the length |
| CardModel.ValidatedCardNumber | OmniCard/Models/Card.swift:35-46 | succeeds exactly when the filtered number is numeric and 16 long, returning the filtered number; a non-numeric filtered number fails with `invalidCharacterError` whatever its length; a numeric one of the wrong length fails with `invalidLengthError` |
| CardModel.ValidatedExpirationDate | OmniCard/Models/Card.swift:50-67 | succeeds exactly when both filtered strings are numeric, the month at most 2 and the year at most 4 long (empty accepted), returning the filtered pair; the error is `invalidCharacterError` exactly when a digit check failed |
| CardModel.ValidatedSecurityCode | OmniCard/Models/Card.swift:70-74 | succeeds exactly when the unfiltered code is numeric and 3 long, returning it unchanged; a non-numeric code fails with `invalidCharacterError`, a numeric code of another length with `invalidLengthError` |
| CardModel.NewCard | OmniCard/Models/Card.swift:19-32 | `nil` exactly when one of the three validators throws; otherwise the stored fields are the validators' outputs and the card is well formed |
| CardModel.ValidatedCardNumberIsCompactPlusLength | OmniCard/Models/Card.swift:35-46 | the card-number check equals `compactNumeric()` followed by a length check against 16 |
| CardModel.ValidatedCardNumberIgnoresWhitespace | OmniCard/Models/Card.swift:35-46 | validating the stripped number gives the same verdict as validating the raw number |
| CardModel.ValidatedCardNumberIdempotent | OmniCard/Models/Card.swift:35-46 | a validated number validates to itself |
| CardModel.ValidatedExpirationDateIgnoresWhitespace | OmniCard/Models/Card.swift:50-67 | validating the stripped month and year gives the same verdict as the raw pair |
| CardModel.SecurityCodeRejectsWhitespace | OmniCard/Models/Card.swift:70-74 | a security code holding any whitespace (" 123") fails with `invalidCharacterError` |
| CardModel.NewCardRoundTrip | OmniCard/Models/Card.swift:19-32 | construction from the fields of any well-formed card succeeds and rebuilds that card |
| CardModel.NewCardIdempotent | OmniCard/Models/Card.swift:19-32 | constructing again from a constructed card's fields yields the same card |
| CardNetwork.ParsedPrefixInRange | OmniCard/Services/CardNetworkResolver.swift:29-48 | `Int(prefix(k))` lies in a range starting at a k-digit number exactly when the first k characters are ASCII digits whose value lies in it (a sign never reaches the range, non-digits skip the rule) |
| CardNetwork.ParseInt | OmniCard/Services/CardNetworkResolver.swift:29-48 | `Int(_:)` on a prefix: the empty string and any string with a non-digit after its first character give nil; all-digit strings give their decimal value; a leading sign is the only other accepted first character, and a signed result stays strictly inside plus or minus 10 to the number of digits |
| CardNetwork.MastercardRuleByDigits | OmniCard/Services/CardNetworkResolver.swift:28-36 | the two `Int(prefix)` tests of the mastercard rule hold exactly when the 16-character number's first two digits are 51–55 or its first four 2221–2720 |
| CardNetwork.DiscoverRuleByDigits | OmniCard/Services/CardNetworkResolver.swift:39-51 | the `Int(prefix)` tests of the discover rule hold exactly when the 16–19-character number starts with "6011" or "65", or its first three digits are 644–649, or its first six 622126–622925 |
| CardNetwork.ClassifyAfterAmex | OmniCard/Services/CardNetworkResolver.swift:23-53 | never amex; visa when the visa rule holds, otherwise mastercard, discover or unknown by the first digit rule that holds, each answer exactly when its rule is the first to match |
| CardNetwork.PaymentNetworkFrom | OmniCard/Services/CardNetworkResolver.swift:16-54 | amex exactly when the amex test as written holds; otherwise each network exactly when its rule is the first to match, unknown exactly when none does |
| CardNetwork.IntendedPaymentNetworkFrom | OmniCard/Services/CardNetworkResolver.swift:16-54 | the same chain with the intended amex test: amex exactly when the number starts with "34" or "37" and has 15 characters, each later network exactly when its rule is the first to match |
| CardNetwork.Prefix34IsAmex | OmniCard/Services/CardNetworkResolver.swift:18 | every number starting with "34" is amex, whatever its length |
| CardNetwork.Prefix37IsAmexIffLength15 | OmniCard/Services/CardNetworkResolver.swift:18 | a number starting with "37" is amex exactly when it has 15 characters |
| CardNetwork.VisaIff | OmniCard/Services/CardNetworkResolver.swift:23-25 | visa exactly when the amex test failed, the number starts with "4" and has 13, 16 or 19 characters |
| CardNetwork.MastercardIff | OmniCard/Services/CardNetworkResolver.swift:28-36 | mastercard exactly when no earlier rule matched, the length is 16, and the first two digits are 51–55 or the first four 2221–2720 |
| CardNetwork.DiscoverIff | OmniCard/Services/CardNetworkResolver.swift:39-51 | discover exactly when no earlier rule matched, the length is 16–19, and the number starts with "6011" or "65", or its first three digits are 644–649, or its first six 622126–622925 |
| CardNetwork.UnknownIff | OmniCard/Services/CardNetworkResolver.swift:53 | unknown exactly when no rule matches; the empty string is unknown |
| CardNetwork.VisaShadowsLaterRules | OmniCard/Services/CardNetworkResolver.swift:16-54 | first match wins: a 16-character number starting with "4" is visa, never mastercard or discover |
| CardNetwork.SampleVisa | OmniCard/Services/CardNetworkResolver.swift:23-25 | "4111111111111111" is visa |
| CardNetwork.SampleAmex | OmniCard/Services/CardNetworkResolver.swift:18 | "340000000000000" is amex |
| CardNetwork.SampleDiscover | OmniCard/Services/CardNetworkResolver.swift:39-51 | "6011000000000004" is discover |
| CardNetwork.SampleMastercard | OmniCard/Services/CardNetworkResolver.swift:28-36 | "5500000000000004" is mastercard |
| CardNetwork.AmexQuirkWitness | OmniCard/Services/CardNetworkResolver.swift:18 | "3400000000000000" (16 digits) is amex as written and unknown under the intended rule |
| CardNetwork.IntendedAmexIff | OmniCard/Services/CardNetworkResolver.swift:18 | with the intended parentheses, amex exactly when the number starts with "34" or "37" and has 15 characters |
| CardNetwork.AsWrittenDiffersOnlyOnLong34 | OmniCard/Services/CardNetworkResolver.swift:18 | the written and the intended resolver disagree exactly on numbers starting with "34" that do not have 15 characters |
| CardNetwork.ValidatedNumbersAndAmex | OmniCard/Services/CardNetworkResolver.swift:18 | a number accepted by `validatedCardNumber` is amex as written exactly when it starts with "34", and never amex under the intended rule |
| CardListView.MaskedName | Cardlet/Views/ContentView.swift:93-101 | the masked name has the name's length; each letter or number becomes "*", every other character is kept |
| CardListView.RevealedNumber | Cardlet/Views/ContentView.swift:108-116 | a number of length n groups into n + n/4 characters (one space per complete group of four) |
| CardListView.RevealedNumberLayout | Cardlet/Views/ContentView.swift:108-116 | the number's characters stay in order, character i at position i + i/4, with a space after every 4th character, the trailing one included |
| CardListView.MaskedNumber | Cardlet/Views/ContentView.swift:118 | "**** **** **** " followed by the last min(4, length) characters of the number |
| CardListView.ContentView.constructor | Cardlet/Views/ContentView.swift:16-17 | a new screen reveals nothing and starts in single mode |
| CardListView.ContentView.OnTap | Cardlet/Views/ContentView.swift:138-153 | multi mode flips only the tapped card's membership; single mode empties the selection if the card was revealed, else makes it exactly that card; at most one revealed card in single mode is kept |
| CardListView.ContentView.ToggleMultipleCardDetailsDisplayed | Cardlet/Views/ContentView.swift:174-177 | the mode flag flips and no card stays revealed |
| CardListView.ContentView.DeleteCards | Cardlet/Views/ContentView.swift:201-209 | no card stays revealed; the deleted cards are those at the offsets in list order, and the list keeps the others in order |
| CardListView.ContentView.CardNameFor | Cardlet/Views/ContentView.swift:89-103 | the name when revealed, the masked name otherwise |
| CardListView.ContentView.CardNumberFor | Cardlet/Views/ContentView.swift:106-120 | the grouped number when revealed, the masked number otherwise |
| CardListView.ContentView.ExpirationDateFor | Cardlet/Views/ContentView.swift:122-128 | "MM/YY" when hidden; when revealed, month, "/", year, which splits back into month and year |
| CardListView.ContentView.SecurityCodeFor | Cardlet/Views/ContentView.swift:130-136 | "CVV" when hidden, the code when revealed |
| CardListView.MaskedNameIdempotent | Cardlet/Views/ContentView.swift:93-101 | masking a masked name changes nothing |
| CardListView.MaskedNameHidesLettersAndNumbers | Cardlet/Views/ContentView.swift:93-101 | names that differ only in which letters and numbers they hold mask identically |
| CardListView.RevealedNumberRoundTrip | Cardlet/Views/ContentView.swift:108-116 | deleting the spaces from a revealed whitespace-free number gives back the number |
| CardListView.CardsAtMembership | Cardlet/Views/ContentView.swift:205 | a card is deleted exactly when it stands at one of the offsets |
| CardListView.CardsNotAtMembership | Cardlet/Views/ContentView.swift:201-209 | a card remains exactly when it stands at a position that is not an offset |
| CardListView.DeletionPartitions | Cardlet/Views/ContentView.swift:201-209 | deleted and remaining cards together are the original list as a multiset |
| CardListView.DeletionByIdentity | Cardlet/Views/ContentView.swift:205-208 | with distinct identities, removing by position equals deleting the collected cards by identity |
| CardListView.HiddenRowShowsOnlyShapeAndLastFour | Cardlet/Views/ContentView.swift:89-136 | two hidden cards whose names have the same shape and whose numbers share their last four characters are displayed identically |
| CardListView.WellFormedCardDisplay | Cardlet/Views/ContentView.swift:106-136 | for a card accepted by `init?`: the masked number ends in the last four digits; the revealed number is 20 characters, from which the number is recovered; a revealed security code differs from "CVV" |
| CardListView.TapScenarios | Cardlet/Views/ContentView.swift:138-209 | with two cards: in single mode tapping the second while the first is revealed reveals only the second, and tapping it again hides it; in multi mode taps toggle each card independently; deleting a card leaves no card revealed |

## Findings

| source | as written | input that shows it | evidently intended | confidence | as-written member | corrected member |
|---|---|---|---|---|---|---|
| OmniCard/Services/CardNetworkResolver.swift:18 | prefix "34", or prefix "37" and count 15: `&&` binds tighter than the disjunction, so any number starting with "34" is amex | "3400000000000000" (16 digits): amex as written, unknown as intended | prefix "34" or "37", and in both cases count 15: the 15-digit amex format | high; not executed | CardNetwork.PaymentNetworkFrom, CardNetwork.AmexQuirkWitness | CardNetwork.IntendedPaymentNetworkFrom, CardNetwork.IntendedAmexIff |

`PaymentNetworkFrom` keeps the behaviour as written, since that is what the code computes. Nothing else in the model classifies numbers, so the corrected resolver sits beside it. `ValidatedNumbersAndAmex` shows what the quirk means in practice. Every stored number has 16 digits, so no genuine 15-digit amex number can be stored. The written resolver still calls every stored "34…" number amex.

## Left out

- Characters are Unicode scalar values. Swift's `Character` is a grapheme cluster, and `count` counts clusters. "\r\n" and combining sequences are therefore not modelled.
- `isWhitespace` is the full Unicode White_Space list. `isNumber` and `isLetter` are subsets of the Unicode properties: ASCII plus the blocks listed in `Characters.dfy`. Non-ASCII numerics such as Arabic-Indic digits pass the validators, as in Swift. `Int(_:)` then fails on them, so the resolver skips the integer-prefix rules.
- `Int(_:)` overflow is not modelled. The resolver parses at most 6 characters, so it cannot overflow.
- The validators are modelled as free functions of their arguments. They read no state of the card.
- The source's `init?` takes no name or identity. `NewCard` takes both as given, without checks, because the list screen uses them. The `nickname` shown by the list as-is is not modelled.
- `dateCreated`/`dateAdded`, SwiftData persistence and the query's date ordering are not modelled. The store is the `cards` field in list order. `context.delete` is removal from that list (`DeletionByIdentity` relates the two).
- List layout, animations, the add-card sheet flag and button, the empty-list prompt, menu styling and the OS-version icon branch are left out, because they are presentation only.
- OmniCard/Views/ContentView.swift is not part of this model. Its one computation, the masked number, is the same expression as `MaskedNumber`.
- OmniCard/Views/AddCardView.swift is not part of this model. It is form glue, and it calls an initialiser that `Card.swift` does not declare.
- OmniCard/OmniCardApp.swift is not part of this model, because it is app bootstrapping.
