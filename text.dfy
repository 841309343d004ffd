/** Character and number helpers for the string handling the subsystem does. */
module Text {
  import opened Wrappers

  predicate IsDigitChar(c: char)
  {
    '0' <= c <= '9'
  }

  predicate AllDigits(s: string)
  {
    forall i :: 0 <= i < |s| ==> IsDigitChar(s[i])
  }

  predicate StartsWith(s: string, prefix: string)
  {
    |prefix| <= |s| && s[..|prefix|] == prefix
  }

  /** The value of a string of decimal digits, most significant first. */
  function DigitsValue(s: string): nat
    requires AllDigits(s)
  {
    if s == [] then 0 else DigitsValue(s[..|s| - 1]) * 10 + (s[|s| - 1] - '0') as nat
  }

  function Pow10(n: nat): (r: nat)
    ensures r >= 1
  {
    if n == 0 then 1 else 10 * Pow10(n - 1)
  }

  /** A number of `n` digits is below `10^n`. */
  lemma {:induction false} DigitsValueBound(s: string)
    requires AllDigits(s)
    ensures DigitsValue(s) < Pow10(|s|)
  {
    if s != [] {
      DigitsValueBound(s[..|s| - 1]);
    }
  }

  lemma AllDigitsAppend(a: string, b: string)
    requires AllDigits(a) && AllDigits(b)
    ensures AllDigits(a + b)
  {
    forall i | 0 <= i < |a + b| ensures IsDigitChar((a + b)[i]) {
      if i < |a| { assert (a + b)[i] == a[i]; } else { assert (a + b)[i] == b[i - |a|]; }
    }
  }

  lemma ShiftStep(x: nat, p: nat, y: nat, d: nat)
    ensures (x * p + y) * 10 + d == x * (p * 10) + (y * 10 + d)
  {
    assert (x * p) * 10 == x * (p * 10);
  }

  /** Appending digits shifts the value of the prefix: `value(a + b) == value(a) * 10^|b| + value(b)`. */
  lemma {:induction false} DigitsValueAppend(a: string, b: string)
    requires AllDigits(a) && AllDigits(b)
    ensures AllDigits(a + b)
    ensures DigitsValue(a + b) == DigitsValue(a) * Pow10(|b|) + DigitsValue(b)
  {
    AllDigitsAppend(a, b);
    if b == [] {
      assert a + b == a;
    } else {
      var b' := b[..|b| - 1];
      var ab := a + b;
      assert ab[..|ab| - 1] == a + b';
      assert ab[|ab| - 1] == b[|b| - 1];
      DigitsValueAppend(a, b');
      var x, p, y, d := DigitsValue(a), Pow10(|b'|), DigitsValue(b'), (b[|b| - 1] - '0') as nat;
      assert DigitsValue(ab) == DigitsValue(a + b') * 10 + d;
      assert DigitsValue(ab) == (x * p + y) * 10 + d;
      assert Pow10(|b|) == p * 10;
      assert DigitsValue(b) == y * 10 + d;
      ShiftStep(x, p, y, d);
    }
  }

  /** The decimal text of a natural number, as JavaScript's `String(n)` writes it. */
  function NatToString(n: nat): (s: string)
    ensures |s| >= 1 && AllDigits(s)
    ensures DigitsValue(s) == n
    ensures |s| > 1 ==> s[0] != '0'
  {
    var last := ['0' + (n % 10) as char];
    if n < 10 then last
    else
      var front := NatToString(n / 10);
      assert (front + last)[..|front + last| - 1] == front;
      front + last
  }

  /** The number of dots in `s`: `(s.match(/\./g) || []).length`. */
  function DotCount(s: string): nat
  {
    if s == "" then 0 else DotCount(s[..|s| - 1]) + (if s[|s| - 1] == '.' then 1 else 0)
  }

  lemma {:induction false} DotCountAppend(a: string, b: string)
    ensures DotCount(a + b) == DotCount(a) + DotCount(b)
    decreases |b|
  {
    if b == "" {
      assert a + b == a;
    } else {
      assert (a + b)[..|a + b| - 1] == a + b[..|b| - 1];
      DotCountAppend(a, b[..|b| - 1]);
    }
  }

  lemma {:induction false} NoDotsInDigits(s: string)
    requires AllDigits(s)
    ensures DotCount(s) == 0
  {
    if s != "" {
      assert IsDigitChar(s[|s| - 1]);
      NoDotsInDigits(s[..|s| - 1]);
    }
  }

  predicate IsSpace(c: char)
  {
    c == ' ' || c == '\t' || c == '\n' || c == '\r'
  }

  function SkipSpaces(s: string): (r: string)
    ensures |r| <= |s| && r == s[|s| - |r|..]
    ensures r == [] || !IsSpace(r[0])
  {
    if s != [] && IsSpace(s[0]) then SkipSpaces(s[1..]) else s
  }

  /** The longest prefix of `s` made of digits. */
  function DigitPrefix(s: string): (r: string)
    ensures AllDigits(r) && |r| <= |s| && r == s[..|r|]
    ensures |r| < |s| ==> !IsDigitChar(s[|r|])
  {
    if s != [] && IsDigitChar(s[0]) then [s[0]] + DigitPrefix(s[1..]) else []
  }

  /**
   * JavaScript's `parseInt(s)` without a radix: leading white space, an optional sign, then the
   * longest run of decimal digits; `None` stands for `NaN` (no digit at all).
   */
  function ParseInt(s: string): (r: Option<int>)
    ensures r.None? <==> DigitPrefix(Unsigned(SkipSpaces(s))) == []
  {
    var t := SkipSpaces(s);
    var digits := DigitPrefix(Unsigned(t));
    if digits == [] then None
    else if t[0] == '-' then Some(0 - DigitsValue(digits) as int)
    else Some(DigitsValue(digits))
  }

  /** `t` without one leading sign character. */
  function Unsigned(t: string): string
  {
    if t != [] && (t[0] == '-' || t[0] == '+') then t[1..] else t
  }

  /** `parseInt(s) || 0`: `NaN` and `0` both become 0. */
  function IntOrZero(n: Option<int>): int
  {
    if n.Some? then n.value else 0
  }

  /** A digit string parses to its own value. */
  lemma ParseIntOfDigits(s: string)
    requires s != [] && AllDigits(s)
    ensures ParseInt(s) == Some(DigitsValue(s))
  {
    assert SkipSpaces(s) == s;
    assert Unsigned(s) == s;
    DigitPrefixOfDigits(s);
  }

  lemma {:induction false} DigitPrefixOfDigits(s: string)
    requires AllDigits(s)
    ensures DigitPrefix(s) == s
  {
    if s != [] {
      DigitPrefixOfDigits(s[1..]);
    }
  }

  /**
   * `parseInt` on blanks, an optional sign, a digit run and anything that does not continue the
   * run: the blanks are skipped, the sign is applied, and the text after the run is ignored.
   */
  lemma ParseIntSigned(w: string, sign: string, d: string, rest: string)
    requires forall i :: 0 <= i < |w| ==> IsSpace(w[i])
    requires sign == "" || sign == "+" || sign == "-"
    requires d != [] && AllDigits(d)
    requires rest == [] || !IsDigitChar(rest[0])
    ensures ParseInt(w + sign + d + rest) == Some(if sign == "-" then 0 - DigitsValue(d) as int else DigitsValue(d))
  {
    var t := sign + (d + rest);
    var x := w + sign + d + rest;
    assert x == w + t by {
      Regroup(w, sign, d, rest);
    }
    SignedRun(sign, d, rest);
    SkipBlanks(w, t);
    ParseIntAfterBlanks(x, t, d);
  }

  lemma Regroup(a: string, b: string, c: string, e: string)
    ensures a + b + c + e == a + (b + (c + e))
  {
  }

  /** The text after the blanks: a sign or nothing, then the digit run `d`, then a non-digit or the end. */
  lemma SignedRun(sign: string, d: string, rest: string)
    requires sign == "" || sign == "+" || sign == "-"
    requires d != [] && AllDigits(d)
    requires rest == [] || !IsDigitChar(rest[0])
    ensures var t := sign + (d + rest);
      t != [] && !IsSpace(t[0]) && DigitPrefix(Unsigned(t)) == d && (t[0] == '-' <==> sign == "-")
  {
    var u := d + rest;
    assert IsDigitChar(u[0]) by {
      assert u[0] == d[0];
    }
    DigitPrefixThen(d, rest);
    if sign == "" {
      assert sign + u == u;
    } else {
      var c := sign[0];
      assert sign == [c];
      assert c == '+' || c == '-';
      SignedText(c, u);
    }
  }

  lemma SignedText(c: char, u: string)
    requires c == '+' || c == '-'
    requires u != [] && IsDigitChar(u[0])
    ensures ([c] + u)[0] == c && Unsigned([c] + u) == u
  {
    assert ([c] + u)[1..] == u;
  }

  lemma ParseIntAfterBlanks(x: string, t: string, d: string)
    requires SkipSpaces(x) == t && t != [] && d != [] && DigitPrefix(Unsigned(t)) == d
    ensures ParseInt(x) == Some(if t[0] == '-' then 0 - DigitsValue(d) as int else DigitsValue(d))
  {
  }

  /** Skipping a run of blanks in front of a text that does not start with one. */
  lemma {:induction false} SkipBlanks(w: string, t: string)
    requires forall i :: 0 <= i < |w| ==> IsSpace(w[i])
    requires t != [] && !IsSpace(t[0])
    ensures SkipSpaces(w + t) == t
  {
    if w == [] {
      assert w + t == t;
    } else {
      assert (w + t)[1..] == w[1..] + t;
      SkipBlanks(w[1..], t);
    }
  }

  /** The digit run of `d + rest` is `d` when `rest` does not continue it. */
  lemma {:induction false} DigitPrefixThen(d: string, rest: string)
    requires AllDigits(d)
    requires rest == [] || !IsDigitChar(rest[0])
    ensures DigitPrefix(d + rest) == d
  {
    if d == [] {
      assert d + rest == rest;
    } else {
      assert (d + rest)[1..] == d[1..] + rest;
      DigitPrefixThen(d[1..], rest);
    }
  }
}
