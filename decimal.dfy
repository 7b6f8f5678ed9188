/**
 * Decimal text of integers, as Python's `str(int)` writes it (and as an
 * f-string `{n}` interpolates it), and Python's `int(str)` conversion of a
 * base-10 literal, which raises `ValueError` on text that is not one.
 */
module Decimal {
  import opened Wrappers

  predicate IsDigit(c: char) {
    '0' <= c <= '9'
  }

  function DigitValue(c: char): (d: nat)
    requires IsDigit(c)
    ensures d < 10
  {
    c as int - '0' as int
  }

  function DigitChar(d: nat): (c: char)
    requires d < 10
    ensures IsDigit(c) && DigitValue(c) == d
  {
    (d + '0' as int) as char
  }

  /** The decimal digits of `n`, most significant first, without leading zeros. */
  function NatToString(n: nat): (s: string)
    ensures |s| > 0 && IsDigit(s[0])
  {
    if n < 10 then [DigitChar(n)] else NatToString(n / 10) + [DigitChar(n % 10)]
  }

  /** The text is all digits, and a leading zero occurs only in "0" itself. */
  lemma {:induction false} NatToStringDigits(n: nat)
    ensures var s := NatToString(n);
      && |s| > 0
      && (forall i :: 0 <= i < |s| ==> IsDigit(s[i]))
      && (|s| > 1 <==> n >= 10)
      && (|s| > 1 ==> s[0] != '0')
  {
    if n >= 10 {
      NatToStringDigits(n / 10);
    }
  }

  /**
   * Python's `str(i)`, as an f-string `{i}` writes it: a minus sign exactly
   * for negative numbers, then the digits.
   */
  function IntToString(i: int): (s: string)
    ensures |s| > 0 && (s[0] == '-' <==> i < 0)
    ensures i < 0 ==> |s| > 1 && IsDigit(s[1])
    ensures i >= 0 ==> IsDigit(s[0])
  {
    if i < 0 then "-" + NatToString(-i) else NatToString(i)
  }

  /**
   * The text of an integer starts with a digit or a minus sign, ends with a
   * digit, and holds no space and no newline.
   */
  lemma IntToStringShape(i: int)
    ensures var s := IntToString(i);
      && |s| > 0 && (IsDigit(s[0]) || s[0] == '-') && IsDigit(s[|s| - 1])
      && (forall k :: 0 <= k < |s| ==> s[k] != ' ' && s[k] != '\n')
  {
    if i < 0 {
      NatToStringDigits(-i);
    } else {
      NatToStringDigits(i);
    }
  }

  /**
   * The white space Python's `int()` strips from both ends of its argument:
   * the ASCII characters tab, line feed, vertical tab, form feed, carriage
   * return and space, and the non-ASCII characters for which `str.isspace()`
   * holds. The ASCII separators U+001C to U+001F, for which `str.isspace()`
   * also holds, are not stripped.
   */
  predicate IsPySpace(c: char) {
    var n := c as int;
    (9 <= n <= 13) || n == 32 || n == 0x85 || n == 0xA0 || n == 0x1680
    || (0x2000 <= n <= 0x200A) || n == 0x2028 || n == 0x2029 || n == 0x202F
    || n == 0x205F || n == 0x3000
  }

  function StripLeft(s: string): string {
    if |s| > 0 && IsPySpace(s[0]) then StripLeft(s[1..]) else s
  }

  function StripRight(s: string): string {
    if |s| > 0 && IsPySpace(s[|s| - 1]) then StripRight(s[..|s| - 1]) else s
  }

  function Strip(s: string): string {
    StripRight(StripLeft(s))
  }

  predicate DigitsOrUnderscores(s: string) {
    forall i :: 0 <= i < |s| ==> IsDigit(s[i]) || s[i] == '_'
  }

  /**
   * The digit part of a base-10 literal: digits, where a single underscore
   * may separate two of them.
   */
  predicate IsDigitPart(s: string) {
    && |s| > 0
    && IsDigit(s[0])
    && IsDigit(s[|s| - 1])
    && DigitsOrUnderscores(s)
    && forall i :: 0 <= i < |s| - 1 && s[i] == '_' ==> IsDigit(s[i + 1])
  }

  /** The number a run of digits denotes, underscores ignored. */
  function DecimalValue(s: string): nat
    requires DigitsOrUnderscores(s)
  {
    if s == "" then 0
    else
      var init := DecimalValue(s[..|s| - 1]);
      var c := s[|s| - 1];
      if c == '_' then init else 10 * init + DigitValue(c)
  }

  /**
   * Python's `int(s)` for a string `s` in base 10: surrounding white space is
   * ignored, an optional sign precedes the digit part; anything else is a
   * `ValueError`, here `None`.
   */
  function PyInt(s: string): (r: Option<int>)
    ensures r.Some? ==> |Strip(s)| > 0
    ensures r.Some? && r.value < 0 ==> Strip(s)[0] == '-'
    ensures Strip(s) == "" ==> r == None
  {
    var t := Strip(s);
    if |t| > 0 && t[0] == '-' && IsDigitPart(t[1..]) then Some(-(DecimalValue(t[1..]) as int))
    else if |t| > 0 && t[0] == '+' && IsDigitPart(t[1..]) then Some(DecimalValue(t[1..]))
    else if IsDigitPart(t) then Some(DecimalValue(t))
    else None
  }

  lemma {:induction false} DecimalValueOfNatToString(n: nat)
    ensures DigitsOrUnderscores(NatToString(n))
    ensures DecimalValue(NatToString(n)) == n
  {
    NatToStringDigits(n);
    if n >= 10 {
      var s := NatToString(n);
      assert s[..|s| - 1] == NatToString(n / 10);
      DecimalValueOfNatToString(n / 10);
    }
  }

  /** Text that starts and ends with something other than white space is not stripped. */
  lemma StripKeeps(s: string)
    requires |s| > 0 && !IsPySpace(s[0]) && !IsPySpace(s[|s| - 1])
    ensures Strip(s) == s
  {
  }

  lemma NatToStringDigitPart(n: nat)
    ensures IsDigitPart(NatToString(n))
    ensures DecimalValue(NatToString(n)) == n
  {
    NatToStringDigits(n);
    DecimalValueOfNatToString(n);
  }

  /** `int(str(i)) == i`: the text written for an integer converts back to it. */
  lemma PyIntOfIntToString(i: int)
    ensures PyInt(IntToString(i)) == Some(i)
  {
    var s := IntToString(i);
    IntToStringShape(i);
    StripKeeps(s);
    if i < 0 {
      assert s[1..] == NatToString(-i);
      NatToStringDigitPart(-i);
    } else {
      NatToStringDigitPart(i);
    }
  }

  lemma {:induction false} StripLeftSnoc(s: string, c: char)
    requires IsPySpace(c)
    ensures StripLeft(s + [c]) == if StripLeft(s) == "" then "" else StripLeft(s) + [c]
  {
    if |s| > 0 && IsPySpace(s[0]) {
      assert (s + [c])[1..] == s[1..] + [c];
      StripLeftSnoc(s[1..], c);
    } else if s == "" {
      assert [c][1..] == "";
    }
  }

  /** White space around the literal does not change what `int()` returns. */
  lemma PyIntIgnoresSurroundingSpace(s: string, c: char)
    requires IsPySpace(c)
    ensures PyInt([c] + s) == PyInt(s)
    ensures PyInt(s + [c]) == PyInt(s)
  {
    assert ([c] + s)[1..] == s;
    assert StripLeft([c] + s) == StripLeft(s);
    StripLeftSnoc(s, c);
    var l := StripLeft(s);
    if l != "" {
      assert (l + [c])[..|l|] == l;
    }
    assert Strip(s + [c]) == Strip(s);
  }

  /**
   * `int()` rejects the empty answer, misplaced underscores, a space after
   * the sign, and an ASCII separator character around the digits.
   */
  lemma PyIntRejects()
    ensures PyInt("") == None
    ensures PyInt("1__0") == None
    ensures PyInt("_1") == None
    ensures PyInt("1_") == None
    ensures PyInt("- 5") == None
    ensures PyInt("\U{1C}5") == None
    ensures PyInt("192\U{1F}") == None
  {
    assert Strip("- 5") == "- 5";
    assert Strip("\U{1C}5") == "\U{1C}5";
    assert Strip("192\U{1F}") == "192\U{1F}";
    assert !IsDigitPart("1__0") by { assert "1__0"[1] == '_' && "1__0"[2] == '_'; }
  }

  /** `int()` accepts padding, a sign, leading zeros and digit separators. */
  lemma PyIntAccepts()
    ensures PyInt(" 0192 ") == Some(192)
    ensures PyInt("-7") == Some(-7)
    ensures PyInt("+1_000") == Some(1000)
  {
    PyIntAcceptsPadded();
    PyIntAcceptsSigned();
  }

  lemma PyIntAcceptsPadded()
    ensures PyInt(" 0192 ") == Some(192)
  {
    assert " 0192 "[1..] == "0192 ";
    assert StripLeft(" 0192 ") == "0192 ";
    assert "0192 "[..4] == "0192";
    assert StripRight("0192 ") == "0192";
    assert Strip(" 0192 ") == "0192";
    assert IsDigitPart("0192");
    assert "0192"[..3] == "019";
    assert "019"[..2] == "01";
    assert "01"[..1] == "0";
    assert DecimalValue("0192") == 192 by {
      assert DecimalValue("0") == 0;
      assert DecimalValue("01") == 1;
      assert DecimalValue("019") == 19;
    }
  }

  lemma PyIntAcceptsSigned()
    ensures PyInt("-7") == Some(-7)
    ensures PyInt("+1_000") == Some(1000)
  {
    assert Strip("-7") == "-7";
    assert "-7"[1..] == "7";
    assert Strip("+1_000") == "+1_000";
    assert "+1_000"[1..] == "1_000";
    assert "1_000"[..4] == "1_00";
    assert "1_00"[..3] == "1_0";
    assert "1_0"[..2] == "1_";
    assert "1_"[..1] == "1";
  }
}
