/**
  `CardNetworkResolver.paymentNetwork(from:)`: an ordered chain of prefix and
  length rules, first match wins.
*/
module CardNetwork {
  import opened Wrappers
  import opened Characters
  import CardModel

  /** `PaymentNetwork`. */
  datatype PaymentNetwork = Visa | Mastercard | Amex | Discover | Unknown

  /** `String.hasPrefix(_:)`. */
  predicate HasPrefix(s: seq<char>, p: seq<char>)
  {
    |p| <= |s| && s[..|p|] == p
  }

  /** `String.prefix(_:)`: the first `k` characters, or all of them when there are fewer. */
  function Prefix(s: seq<char>, k: nat): (r: seq<char>)
    ensures |r| == if |s| <= k then |s| else k
    ensures r <= s
  {
    if |s| <= k then s else s[..k]
  }

  function Pow10(n: nat): (p: nat)
    ensures p >= 1
  {
    if n == 0 then 1 else 10 * Pow10(n - 1)
  }

  predicate AllAsciiDigits(s: seq<char>)
  {
    forall i :: 0 <= i < |s| ==> IsAsciiDigit(s[i])
  }

  lemma Pow10Values()
    ensures Pow10(1) == 10 && Pow10(2) == 100 && Pow10(3) == 1000
    ensures Pow10(4) == 10000 && Pow10(5) == 100000
  {
  }

  /** The decimal value of a string of ASCII digits; it has at most `|d|` digits. */
  function DigitsValue(d: seq<char>): (v: nat)
    requires AllAsciiDigits(d)
    ensures v < Pow10(|d|)
  {
    if d == [] then 0
    else 10 * DigitsValue(d[..|d| - 1]) + (d[|d| - 1] as int - '0' as int)
  }

  /** Appending a digit shifts the value one decimal place. */
  lemma DigitsValueAppend(d: seq<char>, c: char)
    requires AllAsciiDigits(d) && IsAsciiDigit(c)
    ensures AllAsciiDigits(d + [c])
    ensures DigitsValue(d + [c]) == 10 * DigitsValue(d) + (c as int - '0' as int)
  {
    assert (d + [c])[..|d|] == d;
  }

  /**
    Swift's `Int(_:)` in radix 10: an optional `+` or `-` followed by at least one
    ASCII digit; anything else yields `nil`.
  */
  function ParseInt(s: seq<char>): (r: Option<int>)
    ensures s == [] ==> r.None?
    ensures r.Some? ==> forall i :: 1 <= i < |s| ==> IsAsciiDigit(s[i])
    ensures s != [] && AllAsciiDigits(s) ==> r == Some(DigitsValue(s))
    ensures r.Some? && s != [] && !IsAsciiDigit(s[0]) ==>
      && (s[0] == '+' || s[0] == '-') && |s| >= 2
      && -(Pow10(|s| - 1) as int) < r.value < Pow10(|s| - 1)
  {
    if s == [] then None
    else if s[0] == '+' || s[0] == '-' then
      var digits := s[1..];
      if digits != [] && AllAsciiDigits(digits) then
        Some(if s[0] == '-' then -(DigitsValue(digits) as int) else DigitsValue(digits))
      else None
    else if AllAsciiDigits(s) then Some(DigitsValue(s))
    else None
  }

  /** `if let v = Int(…), (lo...hi).contains(v)`. */
  predicate InRange(v: Option<int>, lo: int, hi: int)
  {
    v.Some? && lo <= v.value <= hi
  }

  /**
    Reference reading of an integer-prefix rule: the first `k` characters are ASCII
    digits whose value lies in `lo...hi`.
  */
  predicate LeadingDigitsIn(s: seq<char>, k: nat, lo: int, hi: int)
  {
    k <= |s| && AllAsciiDigits(s[..k]) && lo <= DigitsValue(s[..k]) <= hi
  }

  /**
    A sign costs the prefix a digit, so when the range starts at a `k`-digit number a
    signed prefix never lands in it: the parse-based rule is the digit-based rule.
  */
  lemma ParsedPrefixInRange(s: seq<char>, k: nat, lo: int, hi: int)
    requires 1 <= k <= |s|
    requires Pow10(k - 1) <= lo
    ensures InRange(ParseInt(Prefix(s, k)), lo, hi) <==> LeadingDigitsIn(s, k, lo, hi)
  {
    var p := Prefix(s, k);
    assert p == s[..k];
    if p[0] == '+' || p[0] == '-' {
      if p[1..] != [] && AllAsciiDigits(p[1..]) {
        assert DigitsValue(p[1..]) < Pow10(k - 1);
      }
      assert !IsAsciiDigit(p[0]);
    }
  }

  /** The mastercard test read on digits: 16 characters, first two digits 51–55 or first four 2221–2720. */
  predicate MastercardByDigits(n: seq<char>)
  {
    |n| == 16 && (LeadingDigitsIn(n, 2, 51, 55) || LeadingDigitsIn(n, 4, 2221, 2720))
  }

  /**
    The discover test read on digits: 16–19 characters, starting with "6011" or "65",
    or first three digits 644–649, or first six 622126–622925.
  */
  predicate DiscoverByDigits(n: seq<char>)
  {
    && 16 <= |n| <= 19
    && (|| HasPrefix(n, "6011") || HasPrefix(n, "65")
        || LeadingDigitsIn(n, 3, 644, 649) || LeadingDigitsIn(n, 6, 622126, 622925))
  }

  /** The amex test as written at line 18: `34 || (37 && count == 15)`, because `&&` binds tighter. */
  predicate AmexRule(n: seq<char>)
  {
    HasPrefix(n, "34") || (HasPrefix(n, "37") && |n| == 15)
  }

  predicate VisaRule(n: seq<char>)
  {
    HasPrefix(n, "4") && |n| in {13, 16, 19}
  }

  predicate MastercardRule(n: seq<char>)
  {
    |n| == 16 && (InRange(ParseInt(Prefix(n, 2)), 51, 55) || InRange(ParseInt(Prefix(n, 4)), 2221, 2720))
  }

  predicate DiscoverRule(n: seq<char>)
  {
    && 16 <= |n| <= 19
    && (|| HasPrefix(n, "6011") || HasPrefix(n, "65")
        || InRange(ParseInt(Prefix(n, 3)), 644, 649)
        || InRange(ParseInt(Prefix(n, 6)), 622126, 622925))
  }

  /** The `Int(prefix)` tests of the mastercard rule are its digit reading. */
  lemma MastercardRuleByDigits(n: seq<char>)
    ensures MastercardRule(n) <==> MastercardByDigits(n)
  {
    if |n| == 16 {
      Pow10Values();
      ParsedPrefixInRange(n, 2, 51, 55);
      ParsedPrefixInRange(n, 4, 2221, 2720);
    }
  }

  /** The `Int(prefix)` tests of the discover rule are its digit reading. */
  lemma DiscoverRuleByDigits(n: seq<char>)
    ensures DiscoverRule(n) <==> DiscoverByDigits(n)
  {
    if 16 <= |n| {
      Pow10Values();
      ParsedPrefixInRange(n, 3, 644, 649);
      ParsedPrefixInRange(n, 6, 622126, 622925);
    }
  }

  /** The chain after the amex test, first match wins: visa, mastercard, discover, unknown. */
  function ClassifyAfterAmex(n: seq<char>): (r: PaymentNetwork)
    ensures r != Amex
    ensures r == Visa <==> VisaRule(n)
    ensures r == Mastercard <==> !VisaRule(n) && MastercardByDigits(n)
    ensures r == Discover <==> !VisaRule(n) && !MastercardByDigits(n) && DiscoverByDigits(n)
    ensures r == Unknown <==> !VisaRule(n) && !MastercardByDigits(n) && !DiscoverByDigits(n)
  {
    MastercardRuleByDigits(n);
    DiscoverRuleByDigits(n);
    if VisaRule(n) then Visa
    else if MastercardRule(n) then Mastercard
    else if DiscoverRule(n) then Discover
    else Unknown
  }

  /** `paymentNetwork(from:)` as written: amex first, then the rest of the chain. */
  function PaymentNetworkFrom(n: seq<char>): (r: PaymentNetwork)
    ensures r == Amex <==> AmexRule(n)
    ensures r == Visa <==> !AmexRule(n) && VisaRule(n)
    ensures r == Mastercard <==> !AmexRule(n) && !VisaRule(n) && MastercardByDigits(n)
    ensures r == Discover <==> !AmexRule(n) && !VisaRule(n) && !MastercardByDigits(n) && DiscoverByDigits(n)
    ensures r == Unknown <==>
      !AmexRule(n) && !VisaRule(n) && !MastercardByDigits(n) && !DiscoverByDigits(n)
  {
    if AmexRule(n) then Amex else ClassifyAfterAmex(n)
  }

  /** A prefix fixes the leading characters. */
  lemma HasPrefixAt(n: seq<char>, p: seq<char>, i: nat)
    requires HasPrefix(n, p) && i < |p|
    ensures n[i] == p[i]
  {
    assert n[..|p|][i] == n[i];
  }

  /** Every number starting with "34" is amex, whatever its length. */
  lemma Prefix34IsAmex(n: seq<char>)
    requires HasPrefix(n, "34")
    ensures PaymentNetworkFrom(n) == Amex
  {
  }

  /** A number starting with "37" is amex exactly when it has 15 characters. */
  lemma Prefix37IsAmexIffLength15(n: seq<char>)
    requires HasPrefix(n, "37")
    ensures PaymentNetworkFrom(n) == Amex <==> |n| == 15
  {
    HasPrefixAt(n, "37", 0);
    HasPrefixAt(n, "37", 1);
    assert !HasPrefix(n, "34") by { if HasPrefix(n, "34") { HasPrefixAt(n, "34", 1); } }
    assert !HasPrefix(n, "4") by { if HasPrefix(n, "4") { HasPrefixAt(n, "4", 0); } }
  }

  /** Visa exactly when the amex test failed, the number starts with "4" and has 13, 16 or 19 characters. */
  lemma VisaIff(n: seq<char>)
    ensures PaymentNetworkFrom(n) == Visa <==> !AmexRule(n) && HasPrefix(n, "4") && |n| in {13, 16, 19}
  {
  }

  /**
    Among numbers not caught earlier, mastercard exactly when the number has 16
    characters and its first two digits are 51–55 or its first four 2221–2720.
  */
  lemma MastercardIff(n: seq<char>)
    ensures PaymentNetworkFrom(n) == Mastercard <==>
      && !AmexRule(n) && !VisaRule(n) && |n| == 16
      && (LeadingDigitsIn(n, 2, 51, 55) || LeadingDigitsIn(n, 4, 2221, 2720))
  {
    if |n| == 16 {
      Pow10Values();
      ParsedPrefixInRange(n, 2, 51, 55);
      ParsedPrefixInRange(n, 4, 2221, 2720);
    }
  }

  /**
    Among numbers not caught earlier, discover exactly when the number has 16–19
    characters and starts with "6011" or "65", or its first three digits are
    644–649, or its first six are 622126–622925.
  */
  lemma DiscoverIff(n: seq<char>)
    ensures PaymentNetworkFrom(n) == Discover <==>
      && !AmexRule(n) && !VisaRule(n) && !MastercardRule(n) && 16 <= |n| <= 19
      && (|| HasPrefix(n, "6011") || HasPrefix(n, "65")
          || LeadingDigitsIn(n, 3, 644, 649) || LeadingDigitsIn(n, 6, 622126, 622925))
  {
    if 16 <= |n| {
      Pow10Values();
      ParsedPrefixInRange(n, 3, 644, 649);
      ParsedPrefixInRange(n, 6, 622126, 622925);
    }
  }

  /** Unknown exactly when no rule matches; the empty string is unknown. */
  lemma UnknownIff(n: seq<char>)
    ensures PaymentNetworkFrom(n) == Unknown <==>
      !AmexRule(n) && !VisaRule(n) && !MastercardRule(n) && !DiscoverRule(n)
    ensures PaymentNetworkFrom([]) == Unknown
  {
  }

  /** First match wins: a 16-character number starting with "4" is visa, never mastercard or discover. */
  lemma VisaShadowsLaterRules(n: seq<char>)
    requires HasPrefix(n, "4") && |n| == 16
    ensures PaymentNetworkFrom(n) == Visa
  {
    HasPrefixAt(n, "4", 0);
    assert !HasPrefix(n, "34") by { if HasPrefix(n, "34") { HasPrefixAt(n, "34", 0); } }
    assert !HasPrefix(n, "37") by { if HasPrefix(n, "37") { HasPrefixAt(n, "37", 0); } }
  }

  /** A sample visa number. */
  lemma SampleVisa()
    ensures PaymentNetworkFrom("4111111111111111") == Visa
  {
    var v := "4111111111111111";
    assert v[..1] == "4";
    VisaShadowsLaterRules(v);
  }

  /** A sample 15-digit amex number. */
  lemma SampleAmex()
    ensures PaymentNetworkFrom("340000000000000") == Amex
  {
    var a := "340000000000000";
    assert a[..2] == "34";
  }

  /** Neither mastercard range holds 60 or 6011. */
  lemma Sample6011IsNotMastercard(d: seq<char>)
    requires d == "6011000000000004"
    ensures !MastercardRule(d)
  {
    Pow10Values();
    ParsedPrefixInRange(d, 2, 51, 55);
    ParsedPrefixInRange(d, 4, 2221, 2720);
    assert d[..2] == "60" && DigitsValue("60") == 60;
    assert DigitsValue("601") == 601;
    assert d[..4] == "601" + ['1'];
    DigitsValueAppend("601", '1');
  }

  /** A sample discover number. */
  lemma SampleDiscover()
    ensures PaymentNetworkFrom("6011000000000004") == Discover
  {
    var d := "6011000000000004";
    assert d[..4] == "6011";
    assert !AmexRule(d) && !VisaRule(d) by {
      if HasPrefix(d, "34") { HasPrefixAt(d, "34", 0); }
      if HasPrefix(d, "37") { HasPrefixAt(d, "37", 0); }
      if HasPrefix(d, "4") { HasPrefixAt(d, "4", 0); }
    }
    Sample6011IsNotMastercard(d);
  }

  /** A sample mastercard number. */
  lemma SampleMastercard()
    ensures PaymentNetworkFrom("5500000000000004") == Mastercard
  {
    var m := "5500000000000004";
    assert m[..2] == "55" && m[..1] == "5";
    assert DigitsValue("55") == 55;
    MastercardIff(m);
  }

  // The amex test with the parentheses evidently intended: ("34" or "37") and 15 characters.

  predicate IntendedAmexRule(n: seq<char>)
  {
    (HasPrefix(n, "34") || HasPrefix(n, "37")) && |n| == 15
  }

  /** `paymentNetwork(from:)` with the amex test corrected. */
  function IntendedPaymentNetworkFrom(n: seq<char>): (r: PaymentNetwork)
    ensures r == Amex <==> IntendedAmexRule(n)
    ensures r == Visa <==> !IntendedAmexRule(n) && VisaRule(n)
    ensures r == Mastercard <==> !IntendedAmexRule(n) && !VisaRule(n) && MastercardByDigits(n)
    ensures r == Discover <==>
      !IntendedAmexRule(n) && !VisaRule(n) && !MastercardByDigits(n) && DiscoverByDigits(n)
    ensures r == Unknown <==>
      !IntendedAmexRule(n) && !VisaRule(n) && !MastercardByDigits(n) && !DiscoverByDigits(n)
  {
    if IntendedAmexRule(n) then Amex else ClassifyAfterAmex(n)
  }

  /** The corrected resolver calls a number amex exactly when it starts with "34" or "37" and has 15 characters. */
  lemma IntendedAmexIff(n: seq<char>)
    ensures IntendedPaymentNetworkFrom(n) == Amex <==> (HasPrefix(n, "34") || HasPrefix(n, "37")) && |n| == 15
  {
  }

  /** The two resolvers differ only on numbers that start with "34" and do not have 15 characters. */
  lemma AsWrittenDiffersOnlyOnLong34(n: seq<char>)
    ensures PaymentNetworkFrom(n) != IntendedPaymentNetworkFrom(n) <==>
      HasPrefix(n, "34") && |n| != 15
  {
  }

  /** The mastercard ranges do not hold 34 or 3400. */
  lemma Long34IsNotMastercard(n: seq<char>)
    requires n == "3400000000000000"
    ensures !MastercardRule(n)
  {
    Pow10Values();
    ParsedPrefixInRange(n, 2, 51, 55);
    ParsedPrefixInRange(n, 4, 2221, 2720);
    assert n[..2] == "34" && DigitsValue("34") == 34;
    assert DigitsValue("340") == 340;
    assert n[..4] == "340" + ['0'];
    DigitsValueAppend("340", '0');
  }

  /** The discover ranges do not hold 340 or 340000. */
  lemma Long34MissesDiscoverRanges(n: seq<char>)
    requires n == "3400000000000000"
    ensures !InRange(ParseInt(Prefix(n, 3)), 644, 649)
    ensures !InRange(ParseInt(Prefix(n, 6)), 622126, 622925)
  {
    Pow10Values();
    ParsedPrefixInRange(n, 3, 644, 649);
    ParsedPrefixInRange(n, 6, 622126, 622925);
    var p3 := n[..3];
    assert p3 == "340" && DigitsValue("340") == 340;
    DigitsValueAppend(p3, '0');
    DigitsValueAppend(p3 + ['0'], '0');
    DigitsValueAppend(p3 + ['0'] + ['0'], '0');
    assert n[..6] == p3 + ['0'] + ['0'] + ['0'];
  }

  /** Neither discover prefix nor range holds for "3400000000000000". */
  lemma Long34IsNotDiscover(n: seq<char>)
    requires n == "3400000000000000"
    ensures !DiscoverRule(n)
  {
    Long34MissesDiscoverRanges(n);
    assert !HasPrefix(n, "65") by { if HasPrefix(n, "65") { HasPrefixAt(n, "65", 0); } }
    assert !HasPrefix(n, "6011") by { if HasPrefix(n, "6011") { HasPrefixAt(n, "6011", 0); } }
  }

  /** A 16-digit number starting with "34" is amex as written and unknown as intended. */
  lemma AmexQuirkWitness()
    ensures PaymentNetworkFrom("3400000000000000") == Amex
    ensures IntendedPaymentNetworkFrom("3400000000000000") == Unknown
  {
    var n := "3400000000000000";
    assert n[..2] == "34" && n[..1] == "3";
    Long34IsNotMastercard(n);
    Long34IsNotDiscover(n);
  }

  /**
    A validated card number has exactly 16 characters, so as written it is amex
    exactly when it starts with "34", and it is never amex under the intended rule.
  */
  lemma ValidatedNumbersAndAmex(number: seq<char>)
    requires CardModel.ValidatedCardNumber(number).Ok?
    ensures var n := CardModel.ValidatedCardNumber(number).value;
      && (PaymentNetworkFrom(n) == Amex <==> HasPrefix(n, "34"))
      && IntendedPaymentNetworkFrom(n) != Amex
  {
  }
}
