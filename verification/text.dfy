/** Python's text conversions as the core uses them: `str(n)` and `int(s)` for
    integers, `float(s)` for plain decimal text, and `str.split` on one character. */
module Text {
  import opened Common

  predicate IsDigit(c: char)
  {
    '0' <= c <= '9'
  }

  function DigitValue(c: char): (d: nat)
    requires IsDigit(c)
    ensures d < 10
  {
    (c as int - '0' as int)
  }

  function DigitChar(d: nat): (c: char)
    requires d < 10
    ensures IsDigit(c) && DigitValue(c) == d
  {
    ('0' as int + d) as char
  }

  /** Decimal digits of a natural number, most significant first, no leading zeros. */
  function NatToString(n: nat): (s: string)
    ensures |s| > 0
    ensures forall i :: 0 <= i < |s| ==> IsDigit(s[i])
    decreases n
  {
    if n < 10 then [DigitChar(n)] else NatToString(n / 10) + [DigitChar(n % 10)]
  }

  /** Python `str(n)` for an integer. */
  function IntToString(n: int): (s: string)
    ensures |s| > 0
  {
    if n < 0 then "-" + NatToString(-n) else NatToString(n)
  }

  /** Every character is a decimal digit. */
  predicate AllDigits(s: string)
  {
    forall i :: 0 <= i < |s| ==> IsDigit(s[i])
  }

  /** Value of a run of decimal digits, most significant first. */
  function DigitsValue(s: string): nat
    requires forall i :: 0 <= i < |s| ==> IsDigit(s[i])
  {
    if s == [] then 0 else DigitsValue(s[..|s| - 1]) * 10 + DigitValue(s[|s| - 1])
  }

  /** The whitespace Python's `int`, `float` and `str.strip` remove (ASCII subset). */
  predicate IsSpace(c: char)
  {
    c == ' ' || c == '\t' || c == '\n' || c == '\r' || c == '\U{B}' || c == '\U{C}'
  }

  function StripLeft(s: string): (r: string)
    ensures r == [] || !IsSpace(r[0])
    ensures |r| <= |s|
  {
    if s != [] && IsSpace(s[0]) then StripLeft(s[1..]) else s
  }

  function StripRight(s: string): (r: string)
    ensures r == [] || !IsSpace(r[|r| - 1])
    ensures |r| <= |s|
  {
    if s != [] && IsSpace(s[|s| - 1]) then StripRight(s[..|s| - 1]) else s
  }

  /** Python `s.strip()`. */
  function Strip(s: string): string
  {
    StripRight(StripLeft(s))
  }

  /** Digits with single underscores between them, as Python's `int` accepts. */
  predicate IsDigitRun(s: string)
  {
    && |s| > 0 && IsDigit(s[0]) && IsDigit(s[|s| - 1])
    && (forall i :: 0 <= i < |s| ==> IsDigit(s[i]) || s[i] == '_')
    && (forall i :: 0 <= i < |s| - 1 ==> !(s[i] == '_' && s[i + 1] == '_'))
  }

  function DropUnderscores(s: string): (r: string)
    requires forall i :: 0 <= i < |s| ==> IsDigit(s[i]) || s[i] == '_'
    ensures forall i :: 0 <= i < |r| ==> IsDigit(r[i])
  {
    if s == [] then []
    else (if s[0] == '_' then [] else [s[0]]) + DropUnderscores(s[1..])
  }

  /** Python `int(s)` for a string: `None` where Python raises `ValueError`. */
  function ParseInt(s: string): Option<int>
  {
    ParseSigned(Strip(s))
  }

  /** An optional sign followed by a digit run, with nothing around it. */
  function ParseSigned(t: string): Option<int>
  {
    if t == [] then None
    else
      var neg := t[0] == '-';
      var body := if t[0] == '-' || t[0] == '+' then t[1..] else t;
      if !IsDigitRun(body) then None
      else
        var v: int := DigitsValue(DropUnderscores(body));
        Some(if neg then -v else v)
  }

  lemma {:induction false} NatToStringValue(n: nat)
    ensures DigitsValue(NatToString(n)) == n
    decreases n
  {
    var s := NatToString(n);
    if n >= 10 {
      NatToStringValue(n / 10);
      assert s[..|s| - 1] == NatToString(n / 10);
    }
  }

  lemma {:induction false} DropUnderscoresOfDigits(s: string)
    requires forall i :: 0 <= i < |s| ==> IsDigit(s[i])
    ensures DropUnderscores(s) == s
  {
    if s != [] {
      DropUnderscoresOfDigits(s[1..]);
    }
  }

  lemma StripOfTrimmed(s: string)
    requires s == [] || (!IsSpace(s[0]) && !IsSpace(s[|s| - 1]))
    ensures Strip(s) == s
  {
  }

  /** The digits of `m` read back as `m`. */
  lemma DigitsParse(m: nat)
    ensures IsDigitRun(NatToString(m))
    ensures DigitsValue(DropUnderscores(NatToString(m))) == m
  {
    var d := NatToString(m);
    NatToStringValue(m);
    DropUnderscoresOfDigits(d);
  }

  /** `int(str(n)) == n` for every integer. */
  lemma IntToStringRoundTrip(n: int)
    ensures ParseInt(IntToString(n)) == Some(n)
  {
    var s := IntToString(n);
    var m: nat := if n < 0 then -n else n;
    var d := NatToString(m);
    assert IsDigit(d[0]) && IsDigit(d[|d| - 1]);
    DigitsParse(m);
    if n < 0 {
      assert s == "-" + d && s[1..] == d;
      StripOfTrimmed(s);
      assert ParseSigned(s) == Some(n);
    } else {
      assert s == d;
      StripOfTrimmed(s);
      assert ParseSigned(s) == Some(m);
    }
  }

  function Pow10(k: nat): (p: nat)
    ensures p >= 1
  {
    if k == 0 then 1 else 10 * Pow10(k - 1)
  }

  /** Python `float(s)` restricted to plain decimal text: `[+|-]digits[.digits]`
      or `[+|-].digits` around whitespace, read as an exact real. Every other
      text is `None`, including forms Python accepts (an exponent such as
      "1e3", "inf", "nan", digits grouped with `_`). */
  function ParseDecimal(s: string): Option<real>
  {
    ParseSignedDecimal(Strip(s))
  }

  /** An optional sign followed by a decimal numeral, with nothing around it. */
  function ParseSignedDecimal(t: string): Option<real>
  {
    if t == [] then None
    else
      var neg := t[0] == '-';
      var body := if t[0] == '-' || t[0] == '+' then t[1..] else t;
      if '.' in body then
        var k := IndexOf(body, '.');
        var whole, frac := body[..k], body[k + 1..];
        if (whole == [] && frac == [])
           || !AllDigits(whole) || !AllDigits(frac)
        then None
        else
          var v := (DigitsValue(whole) as real) + (DigitsValue(frac) as real) / (Pow10(|frac|) as real);
          Some(if neg then -v else v)
      else if body == [] || !AllDigits(body) then None
      else
        var v := DigitsValue(body) as real;
        Some(if neg then -v else v)
  }

  /** Index of the first occurrence of `c` in `s`. */
  function IndexOf(s: string, c: char): (i: nat)
    requires c in s
    ensures i < |s| && s[i] == c && c !in s[..i]
  {
    if s[0] == c then 0 else 1 + IndexOf(s[1..], c)
  }

  /** Python `s.split(c)` for a one-character separator. */
  function Split(s: string, c: char): (parts: seq<string>)
    ensures |parts| >= 1
    ensures forall k :: 0 <= k < |parts| ==> c !in parts[k]
    decreases |s|
  {
    if c !in s then [s]
    else var i := IndexOf(s, c); [s[..i]] + Split(s[i + 1..], c)
  }

  /** Python `c.join(parts)`. */
  function Join(parts: seq<string>, c: char): string
    requires |parts| >= 1
  {
    if |parts| == 1 then parts[0] else parts[0] + [c] + Join(parts[1..], c)
  }

  /** Splitting and joining again gives back the text. */
  lemma {:induction false} SplitJoin(s: string, c: char)
    ensures Join(Split(s, c), c) == s
    decreases |s|
  {
    if c in s {
      var i := IndexOf(s, c);
      SplitJoin(s[i + 1..], c);
      assert s == s[..i] + [c] + s[i + 1..];
    }
  }

  /** The first `c` in `p + [c] + q` is the one after `p` when `p` has none. */
  lemma {:induction false} IndexOfAfter(p: string, q: string, c: char)
    requires c !in p
    ensures c in p + [c] + q && IndexOf(p + [c] + q, c) == |p|
  {
    var s := p + [c] + q;
    assert s[|p|] == c;
    if p != [] {
      IndexOfAfter(p[1..], q, c);
      assert s[1..] == p[1..] + [c] + q;
    }
  }

  /** Joining parts that do not contain the separator and splitting again gives
      back the parts. */
  lemma {:induction false} JoinSplit(parts: seq<string>, c: char)
    requires |parts| >= 1
    requires forall k :: 0 <= k < |parts| ==> c !in parts[k]
    ensures Split(Join(parts, c), c) == parts
    decreases |parts|
  {
    if |parts| > 1 {
      var rest := parts[1..];
      JoinSplit(rest, c);
      var s := Join(parts, c);
      var p := parts[0];
      assert s == p + [c] + Join(rest, c);
      IndexOfAfter(p, Join(rest, c), c);
      var i := IndexOf(s, c);
      assert s[..i] == p;
      assert s[i + 1..] == Join(rest, c);
      assert parts == [p] + rest;
    }
  }

  /** Text without the separator splits into exactly one part. */
  lemma SplitNoSeparator(s: string, c: char)
    requires c !in s
    ensures Split(s, c) == [s]
  {
  }
}

/** Concrete readings of Python's `int` and `float` conversions. */
module TextExamples {
  import opened Common
  import opened Text

  /** The words `int` rejects: blank text, a lone sign, text with a letter and a
      doubled underscore. */
  lemma ParseIntRejects()
    ensures ParseInt("") == None
    ensures ParseInt("  ") == None
    ensures ParseInt("-") == None
    ensures ParseInt("12a") == None
    ensures ParseInt("1__0") == None
  {
    assert Strip("") == "";
    assert "  "[1..] == " " && " "[1..] == "";
    assert StripLeft(" ") == "";
    assert Strip("  ") == "";
    StripOfTrimmed("-");
    assert "-"[0] == '-' && "-"[1..] == "";
    assert ParseSigned("-") == None;
    StripOfTrimmed("12a");
    assert "12a"[0] == '1' && !IsDigit("12a"[2]);
    assert ParseSigned("12a") == None;
    assert Strip("1__0") == "1__0" by { StripOfTrimmed("1__0"); }
    assert "1__0"[1] == '_' && "1__0"[2] == '_';
  }

  /** `int` strips surrounding whitespace. */
  lemma ParseIntStrips()
    ensures ParseInt(" 42\n") == Some(42)
  {
    assert " 42\n"[1..] == "42\n";
    assert StripLeft(" 42\n") == "42\n";
    assert "42\n"[..2] == "42";
    assert StripRight("42\n") == "42";
    DropUnderscoresOfDigits("42");
    assert DigitsValue("42") == 42 by {
      assert "42"[..1] == "4";
    }
    assert "42"[0] == '4';
    assert IsDigitRun("42");
    assert ParseSigned("42") == Some(42);
  }

  /** `int` accepts a leading sign. */
  lemma ParseIntSign()
    ensures ParseInt("-7") == Some(-7)
  {
    StripOfTrimmed("-7");
    assert "-7"[0] == '-' && "-7"[1..] == "7";
    DropUnderscoresOfDigits("7");
    assert IsDigitRun("7");
    assert ParseSigned("-7") == Some(-7);
  }

  /** `int` accepts single underscores between digits. */
  lemma ParseIntUnderscores()
    ensures ParseInt("+1_000") == Some(1000)
  {
    StripOfTrimmed("+1_000");
    assert "+1_000"[0] == '+' && "+1_000"[1..] == "1_000";
    assert IsDigitRun("1_000");
    assert DropUnderscores("1_000") == "1000" by {
      assert "1_000"[1..] == "_000" && "_000"[1..] == "000";
      DropUnderscoresOfDigits("000");
    }
    assert DigitsValue("1000") == 1000 by {
      assert "1000"[..3] == "100";
      assert "100"[..2] == "10";
      assert "10"[..1] == "1";
    }
    assert ParseSigned("+1_000") == Some(1000);
  }

  /** `float` reads a whole number. */
  lemma ParseDecimalWhole()
    ensures ParseDecimal("37") == Some(37.0)
  {
    StripOfTrimmed("37");
    assert "37"[0] == '3' && '.' !in "37";
    assert DigitsValue("37") == 37 by { assert "37"[..1] == "3"; }
  }

  /** `float` reads a decimal fraction. */
  lemma ParseDecimalFraction()
    ensures ParseDecimal("2.5") == Some(2.5)
  {
    StripOfTrimmed("2.5");
    assert "2.5"[0] == '2' && "2.5"[1] == '.';
    assert IndexOf("2.5", '.') == 1;
    assert "2.5"[..1] == "2" && "2.5"[2..] == "5";
    assert DigitsValue("2") == 2 && DigitsValue("5") == 5;
  }

  /** `float` rejects text that is not a number. */
  lemma ParseDecimalRejects()
    ensures ParseDecimal("N/A") == None
    ensures ParseDecimal(".") == None
  {
    assert ParseDecimal("N/A") == None by {
      StripOfTrimmed("N/A");
      var t := "N/A";
      assert t[0] == 'N' && t[1] == '/' && t[2] == 'A';
      assert '.' !in t;
      assert !IsDigit(t[0]);
      assert !AllDigits(t);
      assert ParseSignedDecimal(t) == None;
    }
    assert ParseDecimal(".") == None by {
      StripOfTrimmed(".");
      assert "."[0] == '.' && IndexOf(".", '.') == 0;
      assert "."[..0] == [] && "."[1..] == [];
    }
  }
}
