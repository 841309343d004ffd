/**
 * `isDigit` of src/utils/isDigit.ts: the empty string, or a match of `^\d+(\.\d+)?$` — one or
 * more ASCII digits, optionally followed by a dot and one or more ASCII digits.
 */
module IsDigit {
  import opened Text

  /** `isDigit(value)`: the empty string, or a text the regular expression's scan accepts. */
  function IsDigit(value: string): (b: bool)
    ensures b <==> IsDecimalText(value)
  {
    if value == "" then true
    else
      ScanAgreesWithShape(value);
      ScanAccepts(value)
  }

  /** The anchored scan of `\d+(\.\d+)?`: a digit run, then the end or a dot and a digit run reaching the end. */
  predicate ScanAccepts(value: string)
  {
    var whole := DigitPrefix(value);
    var rest := value[|whole|..];
    whole != "" && (rest == "" || (rest[0] == '.' && RunToEnd(rest[1..])))
  }

  /** `\d+$`: a non-empty digit run that reaches the end of `t`. */
  predicate RunToEnd(t: string)
  {
    DigitPrefix(t) != "" && |DigitPrefix(t)| == |t|
  }

  /** The accepted shape stated directly: empty, all digits, or digits, one dot, digits. */
  predicate IsDecimalText(s: string)
  {
    s == "" || AllDigits(s) || (exists k :: 0 < k < |s| - 1 && s[k] == '.' && AllDigits(s[..k]) && AllDigits(s[k + 1..]))
  }

  lemma RunToEndIsDigits(t: string)
    ensures RunToEnd(t) <==> t != "" && AllDigits(t)
  {
    if AllDigits(t) {
      DigitPrefixOfDigits(t);
    }
    if |DigitPrefix(t)| == |t| {
      assert DigitPrefix(t) == t;
    }
  }

  lemma ScanAgreesWithShape(value: string)
    requires value != ""
    ensures ScanAccepts(value) <==> IsDecimalText(value)
  {
    if IsDecimalText(value) {
      ShapeImpliesScan(value);
    }
    if ScanAccepts(value) {
      ScanImpliesShape(value);
    }
  }

  lemma ShapeImpliesScan(value: string)
    requires value != "" && IsDecimalText(value)
    ensures ScanAccepts(value)
  {
    if AllDigits(value) {
      DigitPrefixOfDigits(value);
    } else {
      var k :| 0 < k < |value| - 1 && value[k] == '.' && AllDigits(value[..k]) && AllDigits(value[k + 1..]);
      DigitPrefixStopsAt(value, k);
      var rest := value[k..];
      assert rest[1..] == value[k + 1..];
      RunToEndIsDigits(rest[1..]);
    }
  }

  lemma ScanImpliesShape(value: string)
    requires value != "" && ScanAccepts(value)
    ensures IsDecimalText(value)
  {
    var whole := DigitPrefix(value);
    var rest := value[|whole|..];
    if rest == "" {
      assert value == whole;
    } else {
      RunToEndIsDigits(rest[1..]);
      var k := |whole|;
      assert value[..k] == whole;
      assert value[k + 1..] == rest[1..];
    }
  }

  /** When `s[..k]` is all digits and `s[k]` is not a digit, the digit run of `s` is `s[..k]`. */
  lemma {:induction false} DigitPrefixStopsAt(s: string, k: nat)
    requires k < |s| && AllDigits(s[..k]) && !IsDigitChar(s[k])
    ensures DigitPrefix(s) == s[..k]
    decreases k
  {
    if k > 0 {
      assert AllDigits(s[1..][..k - 1]) by {
        assert s[1..][..k - 1] == s[..k][1..];
      }
      DigitPrefixStopsAt(s[1..], k - 1);
      assert IsDigitChar(s[..k][0]);
      assert s[..k] == [s[0]] + s[1..][..k - 1];
    }
  }

  /** Digits, one dot, digits: each side must be non-empty. */
  lemma DecimalAccepted(a: string, b: string)
    requires AllDigits(a) && AllDigits(b)
    ensures IsDigit(a + b)
    ensures a != "" && b != "" ==> IsDigit(a + "." + b)
  {
    AllDigitsAppend(a, b);
    if a != "" && b != "" {
      var s := a + "." + b;
      assert s[..|a|] == a && s[|a| + 1..] == b && s[|a|] == '.';
    }
  }

  /** A leading or a trailing dot is rejected, whatever follows or precedes it. */
  lemma EdgeDotRejected(s: string)
    requires s != "" && (s[0] == '.' || s[|s| - 1] == '.')
    ensures !IsDigit(s)
  {
  }

  /** An accepted text holds at most one dot. */
  lemma {:induction false} AtMostOneDot(s: string)
    requires IsDigit(s)
    ensures DotCount(s) <= 1
  {
    if AllDigits(s) {
      NoDotsInDigits(s);
    } else if s != "" {
      var k :| 0 < k < |s| - 1 && s[k] == '.' && AllDigits(s[..k]) && AllDigits(s[k + 1..]);
      NoDotsInDigits(s[..k]);
      NoDotsInDigits(s[k + 1..]);
      assert s == s[..k] + "." + s[k + 1..];
      DotCountAppend(s[..k] + ".", s[k + 1..]);
      DotCountAppend(s[..k], ".");
    }
  }

  /** A character other than a digit or a dot anywhere in the text is rejected. */
  lemma ForeignCharRejected(s: string, i: nat)
    requires i < |s| && !IsDigitChar(s[i]) && s[i] != '.'
    ensures !IsDigit(s)
  {
  }
}
