/**
  The character classes Swift's `Character` exposes (`isWhitespace`, `isNumber`,
  `isLetter`) and the two string scans the validators share: removing every
  whitespace character and finding the first non-numeric character.

  A character here is one Unicode scalar value.
*/
module Characters {

  /** Swift's `Character.isWhitespace`: the Unicode White_Space property, listed in full. */
  predicate IsWhitespace(c: char)
  {
    || ('\U{9}' <= c <= '\U{D}')
    || c == ' '
    || c == '\U{85}'
    || c == '\U{A0}'
    || c == '\U{1680}'
    || ('\U{2000}' <= c <= '\U{200A}')
    || c == '\U{2028}'
    || c == '\U{2029}'
    || c == '\U{202F}'
    || c == '\U{205F}'
    || c == '\U{3000}'
  }

  /** An ASCII decimal digit, the only kind of digit Swift's `Int(_:)` parses. */
  predicate IsAsciiDigit(c: char)
  {
    '0' <= c <= '9'
  }

  /**
    Swift's `Character.isNumber`, approximated by a subset of the Unicode Numeric_Type
    characters: ASCII digits, Latin-1 superscripts and fractions, Arabic-Indic,
    extended Arabic-Indic and Devanagari digits, Roman numerals, circled and
    parenthesised numbers, and full-width digits.
  */
  predicate IsNumber(c: char)
  {
    || IsAsciiDigit(c)
    || c == '\U{B2}' || c == '\U{B3}' || c == '\U{B9}'
    || ('\U{BC}' <= c <= '\U{BE}')
    || ('\U{660}' <= c <= '\U{669}')
    || ('\U{6F0}' <= c <= '\U{6F9}')
    || ('\U{966}' <= c <= '\U{96F}')
    || ('\U{2160}' <= c <= '\U{2182}')
    || ('\U{2185}' <= c <= '\U{2188}')
    || ('\U{2460}' <= c <= '\U{249B}')
    || ('\U{FF10}' <= c <= '\U{FF19}')
  }

  /**
    Swift's `Character.isLetter`, approximated by ASCII letters and the letters of
    the Latin-1 Supplement block.
  */
  predicate IsLetter(c: char)
  {
    || ('A' <= c <= 'Z')
    || ('a' <= c <= 'z')
    || c == '\U{AA}' || c == '\U{B5}' || c == '\U{BA}'
    || ('\U{C0}' <= c <= '\U{FF}' && c != '\U{D7}' && c != '\U{F7}')
  }

  /** No whitespace character occurs in `s`. */
  predicate NoWhitespace(s: seq<char>)
  {
    forall i :: 0 <= i < |s| ==> !IsWhitespace(s[i])
  }

  /** Every character of `s` is numeric in Swift's sense. */
  predicate AllNumeric(s: seq<char>)
  {
    forall i :: 0 <= i < |s| ==> IsNumber(s[i])
  }

  /** `s.filter { !$0.isWhitespace }`: the non-whitespace characters of `s`, in order. */
  function StripWhitespace(s: seq<char>): (r: seq<char>)
    ensures |r| <= |s|
    ensures NoWhitespace(r)
    ensures forall c :: c in r ==> c in s
  {
    if s == [] then []
    else (if IsWhitespace(s[0]) then [] else [s[0]]) + StripWhitespace(s[1..])
  }

  /**
    The scan `for char in s { if !char.isNumber { throw … } }`: the index of the
    first non-numeric character, or `|s|` when there is none.
  */
  function FirstNonNumeric(s: seq<char>): (i: nat)
    ensures i <= |s|
    ensures forall j :: 0 <= j < i ==> IsNumber(s[j])
    ensures i < |s| ==> !IsNumber(s[i])
  {
    if s == [] then 0
    else if !IsNumber(s[0]) then 0
    else 1 + FirstNonNumeric(s[1..])
  }

  /** The scan stops early exactly when some character is not numeric. */
  lemma FirstNonNumericFindsAny(s: seq<char>)
    ensures FirstNonNumeric(s) == |s| <==> AllNumeric(s)
  {
  }

  /** Numbers and whitespace are disjoint classes. */
  lemma NumberIsNotWhitespace(c: char)
    requires IsNumber(c)
    ensures !IsWhitespace(c)
  {
  }

  /** Filtering distributes over concatenation: the filter keeps the original order. */
  lemma {:induction false} StripConcat(a: seq<char>, b: seq<char>)
    ensures StripWhitespace(a + b) == StripWhitespace(a) + StripWhitespace(b)
  {
    if a == [] {
      assert a + b == b;
    } else {
      assert (a + b)[1..] == a[1..] + b;
      StripConcat(a[1..], b);
    }
  }

  /** A one-character string is kept exactly when that character is not whitespace. */
  lemma StripSingle(c: char)
    ensures StripWhitespace([c]) == if IsWhitespace(c) then [] else [c]
  {
    assert [c][1..] == [];
  }

  /** A string without whitespace is left unchanged, and only such a string is. */
  lemma {:induction false} StripFixesExactlyNoWhitespace(s: seq<char>)
    ensures StripWhitespace(s) == s <==> NoWhitespace(s)
    ensures |StripWhitespace(s)| == |s| <==> NoWhitespace(s)
  {
    if s != [] {
      StripFixesExactlyNoWhitespace(s[1..]);
      if IsWhitespace(s[0]) {
        assert |StripWhitespace(s)| < |s|;
      } else {
        assert NoWhitespace(s) <==> NoWhitespace(s[1..]) by {
          if NoWhitespace(s[1..]) {
            forall i | 0 <= i < |s| ensures !IsWhitespace(s[i]) {
              if i > 0 { assert s[i] == s[1..][i - 1]; }
            }
          }
        }
      }
    }
  }

  /** Filtering whitespace twice is the same as filtering it once. */
  lemma StripIdempotent(s: seq<char>)
    ensures StripWhitespace(StripWhitespace(s)) == StripWhitespace(s)
  {
    StripFixesExactlyNoWhitespace(StripWhitespace(s));
  }

  /** A numeric string has no whitespace, so filtering leaves it as it is. */
  lemma StripKeepsNumeric(s: seq<char>)
    requires AllNumeric(s)
    ensures StripWhitespace(s) == s
  {
    forall i | 0 <= i < |s| ensures !IsWhitespace(s[i]) {
      NumberIsNotWhitespace(s[i]);
    }
    StripFixesExactlyNoWhitespace(s);
  }
}
