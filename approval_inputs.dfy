/**
 * The input sanitisers of src/components/ShipmentApprovalBottomSheet.tsx: `handleIntegerChange`
 * for the pile and boom numbers, and `handlePercentageChange` with `validatePercentage` for the
 * contamination and sugar percentages. Each decides whether the field's setter is called, and
 * with what; the percentage handler also sets or clears the range message.
 */
module ApprovalInputs {
  import opened Wrappers
  import opened Text

  const MaxIntegerDigits: nat := 9
  const MaxInt32: int := 2147483647
  const MaxFractionDigits: nat := 2
  const RangeMessage: string := "Значение должно быть от 0 до 100"

  /** `s.replace(/[^0-9]/g, '')`. */
  function DigitsOnly(s: string): (r: string)
    ensures AllDigits(r) && |r| <= |s|
  {
    if s == "" then ""
    else DigitsOnly(s[..|s| - 1]) + (if IsDigitChar(s[|s| - 1]) then [s[|s| - 1]] else "")
  }

  predicate IsDigitOrDot(c: char)
  {
    IsDigitChar(c) || c == '.'
  }

  predicate DigitsAndDots(s: string)
  {
    forall i :: 0 <= i < |s| ==> IsDigitOrDot(s[i])
  }

  /** `s.replace(/[^0-9.]/g, '')`. */
  function DigitsAndDotsOnly(s: string): (r: string)
    ensures DigitsAndDots(r) && |r| <= |s|
  {
    if s == "" then ""
    else DigitsAndDotsOnly(s[..|s| - 1]) + (if IsDigitOrDot(s[|s| - 1]) then [s[|s| - 1]] else "")
  }

  // handleIntegerChange

  /**
   * `handleIntegerChange(value, setter)`: `Some(v)` when the setter is called with `v`, `None`
   * when the handler returns early.
   */
  function IntegerChange(value: string): (r: Option<string>)
    ensures r.Some? <==> |DigitsOnly(value)| <= MaxIntegerDigits
    ensures r.Some? ==> r.value == DigitsOnly(value)
    ensures r.Some? && r.value != "" ==> DigitsValue(r.value) < 1000000000
  {
    var clean := DigitsOnly(value);
    if |clean| > MaxIntegerDigits then None
    else
      IntGuardNeverFires(clean);
      if clean != "" && ParseInt(clean).Some? && ParseInt(clean).value > MaxInt32 then None
      else Some(clean)
  }

  /** After the length check, `parseInt(clean) > 2147483647` can never hold: nine digits stay below 10^9. */
  lemma IntGuardNeverFires(clean: string)
    requires AllDigits(clean) && |clean| <= MaxIntegerDigits
    ensures clean != "" ==> ParseInt(clean) == Some(DigitsValue(clean)) && DigitsValue(clean) < 1000000000 <= MaxInt32
  {
    if clean != "" {
      ParseIntOfDigits(clean);
      DigitsValueBound(clean);
      Pow10Monotone(|clean|, MaxIntegerDigits);
      Pow10Nine();
    }
  }

  lemma Pow10Nine()
    ensures Pow10(9) == 1000000000
  {
    assert Pow10(0) == 1;
    assert Pow10(3) == 1000;
    assert Pow10(6) == 1000000;
  }

  lemma {:induction false} Pow10Monotone(a: nat, b: nat)
    requires a <= b
    ensures Pow10(a) <= Pow10(b)
    decreases b
  {
    if a < b {
      Pow10Monotone(a, b - 1);
    }
  }

  /** Cleaning removes exactly the non-digits: it keeps a digit string as it is and distributes over concatenation. */
  lemma {:induction false} DigitsOnlyFilters(a: string, b: string)
    ensures AllDigits(a) ==> DigitsOnly(a) == a
    ensures DigitsOnly(a + b) == DigitsOnly(a) + DigitsOnly(b)
    decreases |b|
  {
    if AllDigits(a) {
      KeepsDigits(a);
    }
    if b == "" {
      assert a + b == a;
    } else {
      var b' := b[..|b| - 1];
      assert (a + b)[..|a + b| - 1] == a + b';
      DigitsOnlyFilters(a, b');
    }
  }

  lemma {:induction false} KeepsDigits(a: string)
    requires AllDigits(a)
    ensures DigitsOnly(a) == a
  {
    if a != "" {
      KeepsDigits(a[..|a| - 1]);
      assert IsDigitChar(a[|a| - 1]);
      assert a == a[..|a| - 1] + [a[|a| - 1]];
    }
  }

  // handlePercentageChange

  /** The outcome of one percentage edit. */
  datatype PercentChange =
    | Rejected                                           // early return: no setter call, message untouched
    | Accepted(value: string, errorMessage: string)      // setter(value), then setErrorMessage(errorMessage)

  /** The digit run right after the first dot, i.e. `clean.split('.')[1]`; `None` when there is no dot. */
  function SecondPart(clean: string): Option<string>
    requires DigitsAndDots(clean)
  {
    var whole := DigitPrefix(clean);
    if |whole| == |clean| then None else Some(DigitPrefix(clean[|whole| + 1..]))
  }

  /**
   * `parseFloat(clean)` for a text of digits and dots: the digits before the first dot, plus
   * the digit run after it as a fraction; `None` stands for `NaN` (no digit on either side).
   */
  function ParseFloat(clean: string): Option<real>
    requires DigitsAndDots(clean)
  {
    var whole := DigitPrefix(clean);
    var fraction := if SecondPart(clean).Some? then SecondPart(clean).value else "";
    if whole == "" && fraction == "" then None
    else Some(DigitsValue(whole) as real + DigitsValue(fraction) as real / Pow10(|fraction|) as real)
  }

  /** `validatePercentage(v)`: a number between 0 and 100 inclusive. */
  predicate ValidPercentage(clean: string)
    requires DigitsAndDots(clean)
  {
    var num := ParseFloat(clean);
    num.Some? && 0.0 <= num.value <= 100.0
  }

  /** `handlePercentageChange(value, setter)`. */
  function PercentageChange(value: string): (r: PercentChange)
    ensures r.Accepted? ==> r.value == DigitsAndDotsOnly(value) && DotCount(r.value) <= 1
    ensures r.Accepted? ==> r.errorMessage == "" || r.errorMessage == RangeMessage
    ensures r.Rejected? <==> (DotCount(DigitsAndDotsOnly(value)) > 1 ||
      (SecondPart(DigitsAndDotsOnly(value)).Some? && |SecondPart(DigitsAndDotsOnly(value)).value| > MaxFractionDigits))
  {
    var clean := DigitsAndDotsOnly(value);
    if DotCount(clean) > 1 then Rejected
    else
      var second := SecondPart(clean);
      if second.Some? && second.value != "" && |second.value| > MaxFractionDigits then Rejected
      else Accepted(clean, if clean != "" && !ValidPercentage(clean) then RangeMessage else "")
  }

  /** The fraction digits `parseFloat` reads: the second part, or none. */
  function FractionOf(clean: string): string
    requires DigitsAndDots(clean)
  {
    if SecondPart(clean).Some? then SecondPart(clean).value else ""
  }

  /** An accepted value scaled by 100, exactly: at most two fraction digits, padded to two. */
  function Hundredths(clean: string): nat
    requires DigitsAndDots(clean) && |FractionOf(clean)| <= MaxFractionDigits
  {
    DigitsValue(DigitPrefix(clean)) * 100 + DigitsValue(FractionOf(clean)) * Pow10(MaxFractionDigits - |FractionOf(clean)|)
  }

  /**
   * After an accepted edit the range message is shown exactly when the value is non-empty and
   * either is the lone dot, which `parseFloat` reads as `NaN`, or exceeds 100 — compared on
   * integers scaled by 100, with no rounding.
   */
  lemma PercentMessageExact(value: string)
    requires PercentageChange(value).Accepted?
    ensures var c := PercentageChange(value).value;
      |FractionOf(c)| <= MaxFractionDigits &&
      (PercentageChange(value).errorMessage != "" <==> c != "" && (c == "." || Hundredths(c) > 10000))
  {
    var c := DigitsAndDotsOnly(value);
    if c != "" {
      NaNOnlyForLoneDot(c);
      var whole, fraction := DigitPrefix(c), FractionOf(c);
      if ParseFloat(c).Some? {
        ScaledComparison(DigitsValue(whole), DigitsValue(fraction), |fraction|);
      }
    }
  }

  /** In a non-empty text of digits with at most one dot, `parseFloat` finds no number only in `"."`. */
  lemma NaNOnlyForLoneDot(c: string)
    requires c != "" && DigitsAndDots(c) && DotCount(c) <= 1
    ensures ParseFloat(c).None? <==> c == "."
  {
    if ParseFloat(c).None? {
      var whole := DigitPrefix(c);
      assert whole == "" && c[0] == '.';
      if |c| > 1 {
        assert !IsDigitChar(c[1..][0]);
        assert c == c[..2] + c[2..];
        assert c[..2] == ".." by {
          assert c[1] == '.';
        }
        DotCountAppend(c[..2], c[2..]);
      }
    }
    if c == "." {
      assert DigitPrefix(c) == "";
      assert c[1..] == "";
    }
  }

  /** For at most two fraction digits, comparing `w + f / 10^k` with 100 is comparing hundredths with 10000. */
  lemma ScaledComparison(w: nat, f: nat, k: nat)
    requires k <= MaxFractionDigits
    ensures (w as real + f as real / Pow10(k) as real <= 100.0) <==> w * 100 + f * Pow10(MaxFractionDigits - k) <= 10000
  {
    assert Pow10(0) == 1 && Pow10(1) == 10 && Pow10(2) == 100;
  }

  /** An input with neither digits nor dots sets the field to `''` and clears the message. */
  lemma NothingNumeric(value: string)
    requires forall i :: 0 <= i < |value| ==> !IsDigitOrDot(value[i])
    ensures PercentageChange(value) == Accepted("", "")
    ensures IntegerChange(value) == Some("")
  {
    NothingKept(value);
  }

  lemma {:induction false} NothingKept(value: string)
    requires forall i :: 0 <= i < |value| ==> !IsDigitOrDot(value[i])
    ensures DigitsAndDotsOnly(value) == "" && DigitsOnly(value) == ""
  {
    if value != "" {
      NothingKept(value[..|value| - 1]);
      assert !IsDigitOrDot(value[|value| - 1]);
    }
  }

  /** A text already made of digits and at most one dot, with at most two digits after it, is accepted unchanged. */
  lemma CleanPercentagePassesThrough(value: string)
    requires DigitsAndDots(value) && DotCount(value) <= 1 && |FractionOf(value)| <= MaxFractionDigits
    ensures PercentageChange(value).Accepted? && PercentageChange(value).value == value
  {
    KeepsDigitsAndDots(value);
  }

  lemma {:induction false} KeepsDigitsAndDots(a: string)
    requires DigitsAndDots(a)
    ensures DigitsAndDotsOnly(a) == a
  {
    if a != "" {
      KeepsDigitsAndDots(a[..|a| - 1]);
      assert IsDigitOrDot(a[|a| - 1]);
      assert a == a[..|a| - 1] + [a[|a| - 1]];
    }
  }
}
