/** `String.compactNumeric()`: remove all whitespace, then insist that what is left is numeric. */
module StringExtensions {
  import opened Wrappers
  import opened Characters

  /** `StringError`: the only failure carries the offending character. */
  datatype StringError = NonNumericCharacterFound(c: char)

  /**
    The string with its whitespace removed, or the first non-numeric character of
    that filtered string as the error.
  */
  function CompactNumeric(s: seq<char>): (r: Result<seq<char>, StringError>)
    ensures r.Ok? <==> AllNumeric(StripWhitespace(s))
    ensures r.Ok? ==> r.value == StripWhitespace(s) && AllNumeric(r.value)
    ensures r.Err? ==> r.error.c in s && !IsNumber(r.error.c) && !IsWhitespace(r.error.c)
  {
    var cleaned := StripWhitespace(s);
    FirstNonNumericFindsAny(cleaned);
    var i := FirstNonNumeric(cleaned);
    if i < |cleaned| then Err(NonNumericCharacterFound(cleaned[i])) else Ok(cleaned)
  }

  /** Every character of `s` is whitespace or numeric. */
  predicate WhitespaceOrNumeric(s: seq<char>)
  {
    forall i :: 0 <= i < |s| ==> IsWhitespace(s[i]) || IsNumber(s[i])
  }

  /** After filtering, a string is numeric exactly when every original character was whitespace or numeric. */
  lemma {:induction false} StripNumericIff(s: seq<char>)
    ensures AllNumeric(StripWhitespace(s)) <==> WhitespaceOrNumeric(s)
  {
    if s != [] {
      StripNumericIff(s[1..]);
      assert WhitespaceOrNumeric(s) <==> (IsWhitespace(s[0]) || IsNumber(s[0])) && WhitespaceOrNumeric(s[1..]) by {
        if (IsWhitespace(s[0]) || IsNumber(s[0])) && WhitespaceOrNumeric(s[1..]) {
          forall i | 0 <= i < |s| ensures IsWhitespace(s[i]) || IsNumber(s[i]) {
            if i > 0 { assert s[i] == s[1..][i - 1]; }
          }
        }
      }
      var rest := StripWhitespace(s[1..]);
      if !IsWhitespace(s[0]) {
        assert StripWhitespace(s) == [s[0]] + rest;
        assert AllNumeric([s[0]] + rest) <==> IsNumber(s[0]) && AllNumeric(rest) by {
          if IsNumber(s[0]) && AllNumeric(rest) {
            forall i | 0 <= i < |rest| + 1 ensures IsNumber(([s[0]] + rest)[i]) {
              if i > 0 { assert ([s[0]] + rest)[i] == rest[i - 1]; }
            }
          }
          if AllNumeric([s[0]] + rest) {
            assert ([s[0]] + rest)[0] == s[0];
            forall i | 0 <= i < |rest| ensures IsNumber(rest[i]) {
              assert rest[i] == ([s[0]] + rest)[i + 1];
            }
          }
        }
      } else {
        assert StripWhitespace(s) == rest;
      }
    }
  }

  /** The scan over `a + [c] + b` stops at `c` when `a` is numeric and `c` is not. */
  lemma FirstNonNumericAt(a: seq<char>, c: char, b: seq<char>)
    requires AllNumeric(a) && !IsNumber(c)
    ensures FirstNonNumeric(a + [c] + b) == |a|
  {
    var s := a + [c] + b;
    assert s[|a|] == c;
    assert forall j :: 0 <= j < |a| ==> s[j] == a[j];
  }

  /** `compactNumeric()` succeeds exactly when the input holds only whitespace and numeric characters. */
  lemma CompactNumericSucceedsIff(s: seq<char>)
    ensures CompactNumeric(s).Ok? <==> WhitespaceOrNumeric(s)
  {
    StripNumericIff(s);
  }

  /**
    It throws `nonNumericCharacterFound(c)` where `c` is the first character of the
    input, in order, that is neither whitespace nor numeric.
  */
  lemma CompactNumericReportsFirstOffender(s: seq<char>, k: nat)
    requires k < |s| && !IsWhitespace(s[k]) && !IsNumber(s[k])
    requires WhitespaceOrNumeric(s[..k])
    ensures CompactNumeric(s) == Err(NonNumericCharacterFound(s[k]))
  {
    assert s == s[..k] + [s[k]] + s[k + 1..];
    StripConcat(s[..k] + [s[k]], s[k + 1..]);
    StripConcat(s[..k], [s[k]]);
    StripSingle(s[k]);
    StripNumericIff(s[..k]);
    var a := StripWhitespace(s[..k]);
    assert StripWhitespace(s) == a + [s[k]] + StripWhitespace(s[k + 1..]);
    FirstNonNumericAt(a, s[k], StripWhitespace(s[k + 1..]));
  }

  /** Applying it to its own successful result returns that result unchanged. */
  lemma CompactNumericIdempotent(s: seq<char>)
    requires CompactNumeric(s).Ok?
    ensures CompactNumeric(CompactNumeric(s).value) == CompactNumeric(s)
  {
    StripIdempotent(s);
  }

  /** The result is never longer than the input, and as long only when the input had no whitespace. */
  lemma CompactNumericLength(s: seq<char>)
    requires CompactNumeric(s).Ok?
    ensures |CompactNumeric(s).value| <= |s|
    ensures |CompactNumeric(s).value| == |s| <==> NoWhitespace(s)
  {
    StripFixesExactlyNoWhitespace(s);
  }
}
