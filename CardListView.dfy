/**
  The card list screen: which cards are revealed (`selectedCards`), whether several
  may be revealed at once (`allowMultipleCardDetailsDisplayed`), how a tap, the
  mode toggle and a swipe-to-delete change that state, and how each card's fields
  are shown masked or revealed.
*/
module CardListView {
  import opened Characters
  import opened CardModel

  /** The mask for one character of a name: letters and numbers become `*`. */
  function MaskChar(c: char): char
  {
    if IsLetter(c) || IsNumber(c) then '*' else c
  }

  /** A masked name keeps its length and punctuation; every letter or number becomes `*`. */
  function MaskedName(name: seq<char>): (r: seq<char>)
    ensures |r| == |name|
    ensures forall i :: 0 <= i < |name| ==> r[i] == MaskChar(name[i])
  {
    if name == [] then [] else [MaskChar(name[0])] + MaskedName(name[1..])
  }

  /**
    A revealed card number: its characters in order, with a space after the 4th,
    8th, 12th, … character, including after the last one when the length is a
    multiple of 4.
  */
  function RevealedNumber(number: seq<char>): (r: seq<char>)
    ensures |r| == |number| + |number| / 4
  {
    if number == [] then []
    else
      var i := |number| - 1;
      RevealedNumber(number[..i]) + [number[i]] + (if i % 4 == 3 then " " else "")
  }

  /** Where each character lands: character i at position i + i/4, and a space at every 5th position. */
  lemma {:induction false} RevealedNumberLayout(number: seq<char>)
    ensures forall i :: 0 <= i < |number| ==> RevealedNumber(number)[i + i / 4] == number[i]
    ensures forall k :: 0 <= k < |number| / 4 ==> RevealedNumber(number)[5 * k + 4] == ' '
  {
    if number != [] {
      var n := |number| - 1;
      var init := number[..n];
      RevealedNumberLayout(init);
      var r := RevealedNumber(number);
      var prev := RevealedNumber(init);
      assert r == prev + [number[n]] + (if n % 4 == 3 then " " else "");
      forall i | 0 <= i < |number| ensures r[i + i / 4] == number[i] {
        if i < n {
          assert r[i + i / 4] == prev[i + i / 4] == init[i];
        } else {
          assert i + i / 4 == |prev|;
        }
      }
      forall k | 0 <= k < |number| / 4 ensures r[5 * k + 4] == ' ' {
        if k < n / 4 {
          assert r[5 * k + 4] == prev[5 * k + 4];
        } else {
          assert n % 4 == 3 && 5 * k + 4 == |prev| + 1;
        }
      }
    }
  }

  /** `String.suffix(_:)`: the last `k` characters, or all of them when there are fewer. */
  function Suffix(s: seq<char>, k: nat): (r: seq<char>)
    ensures |r| == if |s| <= k then |s| else k
    ensures s == s[..|s| - |r|] + r
  {
    if |s| <= k then s else s[|s| - k..]
  }

  /** A masked card number: three masked groups, then the last four characters. */
  function MaskedNumber(number: seq<char>): (r: seq<char>)
    ensures |r| == 15 + |Suffix(number, 4)|
    ensures r[..15] == "**** **** **** " && r[15..] == Suffix(number, 4)
  {
    "**** **** **** " + Suffix(number, 4)
  }

  /** The identities of the listed cards. */
  function Ids(cards: seq<Card>): set<CardId>
  {
    set c | c in cards :: c.id
  }

  /** The cards at the given offsets, in list order (`offsets.map { cards[$0] }`). */
  function CardsAt(cards: seq<Card>, offsets: set<int>): seq<Card>
  {
    if cards == [] then []
    else
      var i := |cards| - 1;
      CardsAt(cards[..i], offsets) + (if i in offsets then [cards[i]] else [])
  }

  /** The cards at every other offset, in list order: what the list shows after the deletion. */
  function CardsNotAt(cards: seq<Card>, offsets: set<int>): seq<Card>
  {
    if cards == [] then []
    else
      var i := |cards| - 1;
      CardsNotAt(cards[..i], offsets) + (if i in offsets then [] else [cards[i]])
  }

  /** No two listed cards share an identity. */
  predicate DistinctIds(cards: seq<Card>)
  {
    forall i, j :: 0 <= i < j < |cards| ==> cards[i].id != cards[j].id
  }

  /** The list screen's state, with the store's cards in the order the list shows them. */
  class ContentView {
    var cards: seq<Card>
    var selectedCards: set<CardId>
    var allowMultipleCardDetailsDisplayed: bool

    /**
      In single mode at most one card is revealed, and only listed cards are ever
      revealed.
    */
    ghost predicate Valid()
      reads this
    {
      && (!allowMultipleCardDetailsDisplayed ==> |selectedCards| <= 1)
      && selectedCards <= Ids(cards)
    }

    /** A fresh screen: nothing revealed, single mode. */
    constructor (cards: seq<Card>)
      ensures Valid()
      ensures this.cards == cards && selectedCards == {} && !allowMultipleCardDetailsDisplayed
    {
      this.cards := cards;
      selectedCards := {};
      allowMultipleCardDetailsDisplayed := false;
    }

    /** `selectedCards.contains(card)`: the card's details are revealed. */
    predicate IsSelected(card: Card)
      reads this
    {
      card.id in selectedCards
    }

    /** `onTap(of:)`. Taps come from the rows of the list, so the card is a listed one. */
    method OnTap(card: Card)
      requires Valid()
      requires card in cards
      modifies this`selectedCards
      ensures Valid()
      ensures allowMultipleCardDetailsDisplayed ==>
        selectedCards == if card.id in old(selectedCards) then old(selectedCards) - {card.id}
                         else old(selectedCards) + {card.id}
      ensures !allowMultipleCardDetailsDisplayed ==>
        selectedCards == if card.id in old(selectedCards) then {} else {card.id}
    {
      if allowMultipleCardDetailsDisplayed {
        if card.id in selectedCards {
          selectedCards := selectedCards - {card.id};
        } else {
          selectedCards := selectedCards + {card.id};
        }
      } else {
        if card.id in selectedCards {
          selectedCards := {};
        } else {
          selectedCards := {};
          selectedCards := selectedCards + {card.id};
        }
      }
    }

    /** The "Allow multi-display" menu action: flip the mode and hide every card. */
    method ToggleMultipleCardDetailsDisplayed()
      requires Valid()
      modifies this`selectedCards, this`allowMultipleCardDetailsDisplayed
      ensures Valid()
      ensures allowMultipleCardDetailsDisplayed == !old(allowMultipleCardDetailsDisplayed)
      ensures selectedCards == {}
    {
      allowMultipleCardDetailsDisplayed := !allowMultipleCardDetailsDisplayed;
      selectedCards := {};
    }

    /**
      `deleteCards(at:)`: hide every card, collect the cards at the offsets in list
      order, and delete them from the store.
    */
    method DeleteCards(offsets: set<int>) returns (deleted: seq<Card>)
      requires Valid()
      requires forall o :: o in offsets ==> 0 <= o < |cards|
      modifies this`selectedCards, this`cards
      ensures Valid()
      ensures selectedCards == {}
      ensures deleted == CardsAt(old(cards), offsets)
      ensures cards == CardsNotAt(old(cards), offsets)
    {
      selectedCards := {};
      deleted := [];
      var kept := [];
      for i := 0 to |cards|
        invariant deleted == CardsAt(cards[..i], offsets)
        invariant kept == CardsNotAt(cards[..i], offsets)
      {
        assert cards[..i + 1][..i] == cards[..i];
        if i in offsets {
          deleted := deleted + [cards[i]];
        } else {
          kept := kept + [cards[i]];
        }
      }
      assert cards[..|cards|] == cards;
      cards := kept;
    }

    /** `cardNameFor(_:)`. */
    method CardNameFor(card: Card) returns (r: seq<char>)
      ensures r == if IsSelected(card) then card.name else MaskedName(card.name)
    {
      if card.id in selectedCards {
        return card.name;
      }
      r := [];
      for i := 0 to |card.name|
        invariant |r| == i
        invariant forall j :: 0 <= j < i ==> r[j] == MaskChar(card.name[j])
      {
        var c := card.name[i];
        if IsLetter(c) || IsNumber(c) {
          r := r + ['*'];
        } else {
          r := r + [c];
        }
      }
    }

    /** `cardNumberFor(_:)`. */
    method CardNumberFor(card: Card) returns (r: seq<char>)
      ensures r == if IsSelected(card) then RevealedNumber(card.number) else MaskedNumber(card.number)
    {
      if card.id in selectedCards {
        var number := card.number;
        r := [];
        for i := 0 to |number|
          invariant r == RevealedNumber(number[..i])
        {
          assert number[..i + 1][..i] == number[..i];
          r := r + [number[i]];
          if i != 0 && i % 4 == 3 {
            r := r + [' '];
          }
        }
        assert number[..|number|] == number;
      } else {
        r := MaskedNumber(card.number);
      }
    }

    /** `expirationDateFor(_:)`: "MM/YY" when hidden, month "/" year when revealed. */
    function ExpirationDateFor(card: Card): (r: seq<char>)
      reads this
      ensures !IsSelected(card) ==> r == "MM/YY"
      ensures IsSelected(card) ==>
        var month := card.expirationMonth;
        && |r| == |month| + 1 + |card.expirationYear|
        && r[..|month|] == month && r[|month|] == '/' && r[|month| + 1..] == card.expirationYear
    {
      if card.id in selectedCards then card.expirationMonth + "/" + card.expirationYear else "MM/YY"
    }

    /** `securityCodeFor(_:)`: "CVV" when hidden, the code when revealed. */
    function SecurityCodeFor(card: Card): (r: seq<char>)
      reads this
      ensures !IsSelected(card) ==> r == "CVV"
      ensures IsSelected(card) ==> r == card.securityCode
    {
      if card.id in selectedCards then card.securityCode else "CVV"
    }
  }

  /** Masking a masked name changes nothing: `*` is neither a letter nor a number. */
  lemma MaskedNameIdempotent(name: seq<char>)
    ensures MaskedName(MaskedName(name)) == MaskedName(name)
  {
    var m := MaskedName(name);
    forall i | 0 <= i < |name| ensures MaskedName(m)[i] == m[i] {
      assert MaskChar('*') == '*';
    }
  }

  /** Two names that differ only in which letters and numbers they hold mask to the same string. */
  lemma MaskedNameHidesLettersAndNumbers(a: seq<char>, b: seq<char>)
    requires |a| == |b|
    requires forall i :: 0 <= i < |a| ==>
      a[i] == b[i] || ((IsLetter(a[i]) || IsNumber(a[i])) && (IsLetter(b[i]) || IsNumber(b[i])))
    ensures MaskedName(a) == MaskedName(b)
  {
  }

  /** Filtering `a + [c] + t` keeps `c` when `t` is all whitespace and `c` is not. */
  lemma StripAppendKept(a: seq<char>, c: char, t: seq<char>)
    requires !IsWhitespace(c) && StripWhitespace(t) == []
    ensures StripWhitespace(a + [c] + t) == StripWhitespace(a) + [c]
  {
    StripConcat(a + [c], t);
    StripConcat(a, [c]);
    StripSingle(c);
  }

  /** Removing the spaces from a revealed number gives the number back. */
  lemma {:induction false} RevealedNumberRoundTrip(number: seq<char>)
    requires NoWhitespace(number)
    ensures StripWhitespace(RevealedNumber(number)) == number
  {
    if number != [] {
      var i := |number| - 1;
      var init := number[..i];
      assert NoWhitespace(init) by {
        forall j | 0 <= j < i ensures !IsWhitespace(init[j]) { assert init[j] == number[j]; }
      }
      RevealedNumberRoundTrip(init);
      var tail: seq<char> := if i % 4 == 3 then " " else "";
      assert StripWhitespace(tail) == [] by {
        if i % 4 == 3 { StripSingle(' '); }
      }
      StripAppendKept(RevealedNumber(init), number[i], tail);
      assert init + [number[i]] == number;
    }
  }

  /** The cards at the offsets are exactly the cards whose position is one of the offsets. */
  lemma {:induction false} CardsAtMembership(cards: seq<Card>, offsets: set<int>, c: Card)
    ensures c in CardsAt(cards, offsets) <==> exists j :: 0 <= j < |cards| && j in offsets && cards[j] == c
  {
    if cards != [] {
      var i := |cards| - 1;
      CardsAtMembership(cards[..i], offsets, c);
      if exists j :: 0 <= j < |cards| && j in offsets && cards[j] == c {
        var j :| 0 <= j < |cards| && j in offsets && cards[j] == c;
        if j < i { assert cards[..i][j] == c; }
      }
      if exists j :: 0 <= j < i && j in offsets && cards[..i][j] == c {
        var j :| 0 <= j < i && j in offsets && cards[..i][j] == c;
        assert cards[j] == c;
      }
    }
  }

  /** The cards left are exactly the cards whose position is not one of the offsets. */
  lemma {:induction false} CardsNotAtMembership(cards: seq<Card>, offsets: set<int>, c: Card)
    ensures c in CardsNotAt(cards, offsets) <==> exists j :: 0 <= j < |cards| && j !in offsets && cards[j] == c
  {
    if cards != [] {
      var i := |cards| - 1;
      CardsNotAtMembership(cards[..i], offsets, c);
      if exists j :: 0 <= j < |cards| && j !in offsets && cards[j] == c {
        var j :| 0 <= j < |cards| && j !in offsets && cards[j] == c;
        if j < i { assert cards[..i][j] == c; }
      }
      if exists j :: 0 <= j < i && j !in offsets && cards[..i][j] == c {
        var j :| 0 <= j < i && j !in offsets && cards[..i][j] == c;
        assert cards[j] == c;
      }
    }
  }

  /** Deleting splits the list: every card is either deleted or kept, none is lost or duplicated. */
  lemma {:induction false} DeletionPartitions(cards: seq<Card>, offsets: set<int>)
    ensures multiset(CardsAt(cards, offsets)) + multiset(CardsNotAt(cards, offsets)) == multiset(cards)
  {
    if cards != [] {
      var i := |cards| - 1;
      var init := cards[..i];
      DeletionPartitions(init, offsets);
      assert cards == init + [cards[i]];
      assert multiset(cards) == multiset(init) + multiset{cards[i]};
      if i in offsets {
        assert CardsAt(cards, offsets) == CardsAt(init, offsets) + [cards[i]];
        assert CardsNotAt(cards, offsets) == CardsNotAt(init, offsets);
      } else {
        assert CardsAt(cards, offsets) == CardsAt(init, offsets);
        assert CardsNotAt(cards, offsets) == CardsNotAt(init, offsets) + [cards[i]];
      }
    }
  }

  /**
    With distinct identities, the cards left are exactly the listed cards whose
    identity is not among the deleted ones: removing by position is removing by
    identity, as `context.delete` does.
  */
  lemma DeletionByIdentity(cards: seq<Card>, offsets: set<int>, c: Card)
    requires DistinctIds(cards)
    ensures c in CardsNotAt(cards, offsets) <==> c in cards && c.id !in Ids(CardsAt(cards, offsets))
  {
    CardsNotAtMembership(cards, offsets, c);
    if c in cards && c.id in Ids(CardsAt(cards, offsets)) {
      var d :| d in CardsAt(cards, offsets) && d.id == c.id;
      CardsAtMembership(cards, offsets, d);
      var j :| 0 <= j < |cards| && j in offsets && cards[j] == d;
      forall k | 0 <= k < |cards| && cards[k] == c ensures k in offsets {
        assert cards[k].id == cards[j].id;
      }
    }
    if c in cards && c.id !in Ids(CardsAt(cards, offsets)) {
      var k :| 0 <= k < |cards| && cards[k] == c;
      if k in offsets {
        CardsAtMembership(cards, offsets, c);
      }
    }
  }

  /**
    A hidden row shows only the shape of the name and the last four characters of
    the number: two hidden cards that agree on those look the same.
  */
  lemma HiddenRowShowsOnlyShapeAndLastFour(view: ContentView, a: Card, b: Card)
    requires !view.IsSelected(a) && !view.IsSelected(b)
    requires |a.name| == |b.name|
    requires forall i :: 0 <= i < |a.name| ==>
      a.name[i] == b.name[i] || ((IsLetter(a.name[i]) || IsNumber(a.name[i])) && (IsLetter(b.name[i]) || IsNumber(b.name[i])))
    requires Suffix(a.number, 4) == Suffix(b.number, 4)
    ensures MaskedName(a.name) == MaskedName(b.name)
    ensures MaskedNumber(a.number) == MaskedNumber(b.number)
    ensures view.ExpirationDateFor(a) == view.ExpirationDateFor(b)
    ensures view.SecurityCodeFor(a) == view.SecurityCodeFor(b)
  {
    MaskedNameHidesLettersAndNumbers(a.name, b.name);
  }

  /**
    For a card built by `init?`: hidden, the number reads "**** **** **** " and the
    last four digits; revealed, it reads 16 digits in four groups, each followed by
    a space, from which the number is recovered, and the security code differs from
    the "CVV" placeholder.
  */
  lemma WellFormedCardDisplay(view: ContentView, card: Card)
    requires WellFormed(card)
    ensures MaskedNumber(card.number) == "**** **** **** " + card.number[12..]
    ensures |RevealedNumber(card.number)| == 20
    ensures StripWhitespace(RevealedNumber(card.number)) == card.number
    ensures view.IsSelected(card) ==> view.SecurityCodeFor(card) != "CVV"
  {
    StripKeepsNumeric(card.number);
    StripFixesExactlyNoWhitespace(card.number);
    RevealedNumberRoundTrip(card.number);
    if view.IsSelected(card) {
      assert IsNumber(card.securityCode[0]);
    }
  }

  /**
    Single mode: tapping B while A is revealed reveals only B, and tapping B again hides it.
    Multi mode: taps toggle cards independently. Deleting clears the selection.
  */
  method TapScenarios(a: Card, b: Card) returns (single: set<CardId>, multi: set<CardId>, afterDelete: set<CardId>)
    requires a.id != b.id
    ensures single == {b.id}
    ensures multi == {b.id}
    ensures afterDelete == {}
  {
    var view := new ContentView([a, b]);
    view.OnTap(a);
    assert view.selectedCards == {a.id};
    view.OnTap(b);
    single := view.selectedCards;
    view.OnTap(b);
    assert view.selectedCards == {};

    view.ToggleMultipleCardDetailsDisplayed();
    view.OnTap(a);
    view.OnTap(b);
    assert view.selectedCards == {a.id, b.id};
    view.OnTap(a);
    multi := view.selectedCards;

    var gone := view.DeleteCards({0});
    afterDelete := view.selectedCards;
  }
}
