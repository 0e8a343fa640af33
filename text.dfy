/** Python's text conversions used by the pipeline scripts: `str(int)`,
    `int(str)` (which strips surrounding whitespace first) and `str.split`
    with an explicit one-character separator. */
module Text {
  import opened Wrappers

  predicate IsDigit(c: char) { '0' <= c <= '9' }

  predicate AllDigits(s: string) { forall i :: 0 <= i < |s| ==> IsDigit(s[i]) }

  function DigitChar(d: nat): (c: char)
    requires d < 10
    ensures IsDigit(c) && (c as int) - ('0' as int) == d
  {
    ('0' as int + d) as char
  }

  /** The decimal digits of `n`, most significant first, without leading zeros. */
  function Digits(n: nat): (s: string)
    ensures |s| >= 1 && AllDigits(s)
    decreases n
  {
    if n < 10 then [DigitChar(n)] else Digits(n / 10) + [DigitChar(n % 10)]
  }

  /** The number a string of decimal digits denotes. */
  function DigitsValue(s: string): nat
    requires AllDigits(s)
    decreases |s|
  {
    if s == [] then 0 else DigitsValue(s[..|s| - 1]) * 10 + ((s[|s| - 1] as int) - ('0' as int))
  }

  lemma {:induction false} DigitsValueOfDigits(n: nat)
    ensures DigitsValue(Digits(n)) == n
    decreases n
  {
    if n >= 10 {
      DigitsValueOfDigits(n / 10);
      var s := Digits(n);
      assert s[..|s| - 1] == Digits(n / 10);
    }
  }

  /** `str(i)` for a Python integer. */
  function IntToString(i: int): string
  {
    if i < 0 then "-" + Digits(-i) else Digits(i)
  }

  /** The characters `str.strip()` removes: space, tab, newline, carriage
      return, vertical tab and form feed. */
  predicate IsSpace(c: char)
  {
    c == ' ' || c == '\t' || c == '\n' || c == '\r' || c as int == 11 || c as int == 12
  }

  function StripLeft(s: string): (r: string)
    ensures |r| <= |s| && r == s[|s| - |r|..]
    ensures r == [] || !IsSpace(r[0])
    decreases |s|
  {
    if s != [] && IsSpace(s[0]) then StripLeft(s[1..]) else s
  }

  function StripRight(s: string): (r: string)
    ensures |r| <= |s| && r == s[..|r|]
    ensures r == [] || !IsSpace(r[|r| - 1])
    decreases |s|
  {
    if s != [] && IsSpace(s[|s| - 1]) then StripRight(s[..|s| - 1]) else s
  }

  function Strip(s: string): string
  {
    StripRight(StripLeft(s))
  }

  /** A base-10 integer literal as Python 2's `int` reads one after the
      surrounding white space is gone: an optional sign, then optional white
      space, then at least one digit. */
  predicate IsIntLiteral(t: string)
  {
    if |t| >= 1 && (t[0] == '-' || t[0] == '+') then |StripLeft(t[1..])| >= 1 && AllDigits(StripLeft(t[1..]))
    else |t| >= 1 && AllDigits(t)
  }

  /** `int(s)` on a string: `None` where Python raises ValueError. */
  function ParseInt(s: string): (r: Option<int>)
    ensures r.Some? <==> IsIntLiteral(Strip(s))
  {
    ParseLiteral(Strip(s))
  }

  /** The value of a literal that has already been stripped. */
  function ParseLiteral(t: string): (r: Option<int>)
    ensures r.Some? <==> IsIntLiteral(t)
  {
    if |t| >= 1 && (t[0] == '-' || t[0] == '+') then
      var d := StripLeft(t[1..]);
      if |d| >= 1 && AllDigits(d) then
        Some(if t[0] == '-' then 0 - DigitsValue(d) else DigitsValue(d) as int)
      else None
    else if |t| >= 1 && AllDigits(t) then
      Some(DigitsValue(t))
    else
      None
  }

  /** White space between the sign and the digits is skipped: `int("- 5")`
      is -5 and `int("+\t7")` is 7. */
  lemma SpaceAfterSign(sign: char, ws: string, d: string)
    requires sign == '-' || sign == '+'
    requires forall k :: 0 <= k < |ws| ==> IsSpace(ws[k])
    requires |d| >= 1 && AllDigits(d)
    ensures ParseLiteral([sign] + ws + d) == Some(if sign == '-' then 0 - DigitsValue(d) else DigitsValue(d) as int)
  {
    var t := [sign] + (ws + d);
    assert [sign] + ws + d == t;
    assert t[1..] == ws + d;
    StripLeftSpaces(ws, d);
    SignedLiteral(t, d);
  }

  lemma SignedLiteral(t: string, d: string)
    requires |t| >= 1 && (t[0] == '-' || t[0] == '+')
    requires StripLeft(t[1..]) == d && |d| >= 1 && AllDigits(d)
    ensures ParseLiteral(t) == Some(if t[0] == '-' then 0 - DigitsValue(d) else DigitsValue(d) as int)
  {
  }

  /** Leading white space in front of a digit is exactly what `lstrip` removes. */
  lemma {:induction false} StripLeftSpaces(ws: string, d: string)
    requires forall k :: 0 <= k < |ws| ==> IsSpace(ws[k])
    requires |d| >= 1 && IsDigit(d[0])
    ensures StripLeft(ws + d) == d
    decreases |ws|
  {
    var s := ws + d;
    if ws == [] {
      assert s == d && !IsSpace(s[0]);
    } else {
      assert s[0] == ws[0] && IsSpace(s[0]);
      assert s[1..] == ws[1..] + d;
      StripLeftSpaces(ws[1..], d);
    }
  }

  /** `int(str(i)) == i`. */
  lemma IntToStringRoundTrip(i: int)
    ensures ParseInt(IntToString(i)) == Some(i)
  {
    var n: nat := if i < 0 then -i else i;
    var d := Digits(n);
    DigitsValueOfDigits(n);
    if i < 0 {
      var s := "-" + d;
      assert s[1..] == d;
      LiteralNegative(s);
      StripIdentity(s);
    } else {
      LiteralUnsigned(d);
      StripIdentity(d);
    }
  }

  lemma LiteralUnsigned(t: string)
    requires |t| >= 1 && AllDigits(t)
    ensures ParseLiteral(t) == Some(DigitsValue(t) as int)
    ensures !IsSpace(t[0]) && !IsSpace(t[|t| - 1])
  {
    assert IsDigit(t[0]) && IsDigit(t[|t| - 1]);
  }

  lemma LiteralNegative(t: string)
    requires |t| >= 2 && t[0] == '-' && AllDigits(t[1..])
    ensures ParseLiteral(t) == Some(0 - DigitsValue(t[1..]))
    ensures !IsSpace(t[0]) && !IsSpace(t[|t| - 1])
  {
    var d := t[1..];
    assert IsDigit(d[0]) && IsDigit(d[|d| - 1]);
    assert [] + d == d;
    StripLeftSpaces([], d);
    SignedLiteral(t, d);
  }

  /** A string that neither starts nor ends with white space is its own strip. */
  lemma StripIdentity(s: string)
    requires s != [] && !IsSpace(s[0]) && !IsSpace(s[|s| - 1])
    ensures Strip(s) == s
  {
    assert StripLeft(s) == s;
  }

  /** `s.split(sep)`: the pieces between occurrences of `sep`, so there is
      always at least one piece and none of them contains the separator. */
  function Split(s: string, sep: char): (parts: seq<string>)
    ensures |parts| >= 1
    ensures forall i :: 0 <= i < |parts| ==> sep !in parts[i]
    decreases |s|
  {
    if s == [] then [""]
    else
      var rest := Split(s[1..], sep);
      if s[0] == sep then [""] + rest else [[s[0]] + rest[0]] + rest[1..]
  }

  /** `sep.join(parts)`. */
  function JoinWith(parts: seq<string>, sep: char): string
    decreases |parts|
  {
    if parts == [] then ""
    else if |parts| == 1 then parts[0]
    else parts[0] + [sep] + JoinWith(parts[1..], sep)
  }

  /** Splitting loses nothing: joining the pieces back gives the original. */
  lemma {:induction false} SplitJoinRoundTrip(s: string, sep: char)
    ensures JoinWith(Split(s, sep), sep) == s
    decreases |s|
  {
    if s != [] {
      SplitJoinRoundTrip(s[1..], sep);
      var rest := Split(s[1..], sep);
      if s[0] == sep {
        assert Split(s, sep) == [""] + rest;
        assert ([""] + rest)[1..] == rest;
      } else {
        var parts := Split(s, sep);
        assert parts == [[s[0]] + rest[0]] + rest[1..];
        if |rest| == 1 {
          assert parts == [[s[0]] + rest[0]];
        } else {
          assert parts[1..] == rest[1..];
          assert JoinWith(rest, sep) == rest[0] + [sep] + JoinWith(rest[1..], sep);
        }
        assert s == [s[0]] + s[1..];
      }
    }
  }
}
