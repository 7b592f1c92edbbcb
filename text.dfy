/**
 * The string operations the program relies on: PHP's conversion of whole
 * numbers and of one-decimal numbers to text, `explode` and `implode`, and
 * a message assembled line by line.
 */
module Text {

  function DigitChar(d: nat): (c: char)
    requires d < 10
    ensures '0' <= c <= '9' && (c as int) - ('0' as int) == d
  {
    "0123456789"[d]
  }

  ghost predicate AllDigits(s: string) {
    forall i | 0 <= i < |s| :: '0' <= s[i] <= '9'
  }

  /** Decimal digits of `n`, most significant first, no leading zero. */
  function NatToString(n: nat): (s: string)
    ensures |s| > 0 && AllDigits(s)
    ensures n > 0 ==> s[0] != '0'
  {
    if n < 10 then [DigitChar(n)] else NatToString(n / 10) + [DigitChar(n % 10)]
  }

  /** PHP's text for a whole number: an optional minus sign, then the digits. */
  function IntToString(n: int): (s: string)
    ensures |s| > 0
  {
    if n < 0 then "-" + NatToString(-n) else NatToString(n)
  }

  /** The number a string of decimal digits denotes. */
  function DigitsValue(s: string): nat
    requires AllDigits(s)
  {
    if s == [] then 0 else DigitsValue(s[..|s| - 1]) * 10 + ((s[|s| - 1] as int) - ('0' as int))
  }

  /** Reads back what IntToString writes. */
  function ParseInt(s: string): int
    requires |s| > 0
    requires s[0] == '-' ==> AllDigits(s[1..])
    requires s[0] != '-' ==> AllDigits(s)
  {
    if s[0] == '-' then 0 - (DigitsValue(s[1..]) as int) else DigitsValue(s)
  }

  lemma {:induction false} NatToStringRoundTrip(n: nat)
    ensures DigitsValue(NatToString(n)) == n
  {
    if n >= 10 {
      var s := NatToString(n);
      assert s[..|s| - 1] == NatToString(n / 10);
      NatToStringRoundTrip(n / 10);
    }
  }

  /** The text of a whole number denotes that number. */
  lemma {:induction false} IntToStringRoundTrip(n: int)
    ensures ParseInt(IntToString(n)) == n
  {
    if n < 0 {
      NatToStringRoundTrip(-n);
      ParseNegative(NatToString(-n));
    } else {
      NatToStringRoundTrip(n);
    }
  }

  lemma {:induction false} ParseNegative(digits: string)
    requires AllDigits(digits)
    ensures ParseInt("-" + digits) == 0 - DigitsValue(digits)
  {
    assert ("-" + digits)[1..] == digits;
  }

  /**
   * PHP's text for the float `t / 10` (a value rounded to one decimal): the
   * whole part, then a point and the tenths digit unless that digit is 0.
   */
  function TenthsToString(t: int): (s: string)
    ensures t % 10 == 0 ==> s == IntToString(t / 10)
  {
    var a := if t < 0 then -t else t;
    var whole := NatToString(a / 10) + (if a % 10 == 0 then "" else "." + [DigitChar(a % 10)]);
    assert t % 10 == 0 ==> a % 10 == 0 && (if t < 0 then -(t / 10) else t / 10) == a / 10 by {
      if t % 10 == 0 {
        var k := t / 10;
        assert t == 10 * k;
        assert a == 10 * (if t < 0 then -k else k);
      }
    }
    if t < 0 then "-" + whole else whole
  }

  /**
   * A text of the shape `TenthsToString` writes: an optional minus sign,
   * then decimal digits, optionally followed by a point and one digit.
   */
  ghost predicate IsTenthsText(s: string) {
    IsUnsignedTenths(if |s| > 0 && s[0] == '-' then s[1..] else s)
  }

  ghost predicate IsUnsignedTenths(u: string) {
    || (|u| > 0 && AllDigits(u))
    || (|u| >= 3 && AllDigits(u[..|u| - 2]) && u[|u| - 2] == '.' && '0' <= u[|u| - 1] <= '9')
  }

  /** The number of tenths such a text denotes. */
  function TenthsValue(s: string): int
    requires IsTenthsText(s)
  {
    if |s| > 0 && s[0] == '-' then 0 - (UnsignedTenthsValue(s[1..]) as int) else UnsignedTenthsValue(s)
  }

  function UnsignedTenthsValue(u: string): nat
    requires IsUnsignedTenths(u)
  {
    if |u| >= 2 && u[|u| - 2] == '.' then DigitsValue(u[..|u| - 2]) * 10 + ((u[|u| - 1] as int) - ('0' as int))
    else DigitsValue(u) * 10
  }

  /** The text of t tenths reads back as t, and starts with a minus sign exactly when t is negative. */
  lemma {:induction false} TenthsToStringRoundTrip(t: int)
    ensures IsTenthsText(TenthsToString(t)) && TenthsValue(TenthsToString(t)) == t
    ensures TenthsToString(t)[0] == '-' <==> t < 0
  {
    var a := if t < 0 then -t else t;
    var w := NatToString(a / 10);
    var u := w + (if a % 10 == 0 then "" else "." + [DigitChar(a % 10)]);
    NatToStringRoundTrip(a / 10);
    if a % 10 == 0 {
      assert u == w;
      assert UnsignedTenthsValue(u) == a;
    } else {
      assert u[..|u| - 2] == w && u[|u| - 2] == '.' && u[|u| - 1] == DigitChar(a % 10);
      assert UnsignedTenthsValue(u) == a;
    }
    assert u[0] != '-';
    if t < 0 {
      assert TenthsToString(t) == "-" + u;
      assert ("-" + u)[1..] == u;
    } else {
      assert TenthsToString(t) == u;
    }
  }

  /** PHP `implode($sep, $parts)`. */
  function Join(parts: seq<string>, sep: string): string {
    if |parts| == 0 then ""
    else if |parts| == 1 then parts[0]
    else parts[0] + sep + Join(parts[1..], sep)
  }

  /** PHP `explode($sep, $s)` for a one-character separator. */
  function Split(s: string, sep: char): (parts: seq<string>)
    ensures |parts| > 0
  {
    if s == [] then [""]
    else
      var rest := Split(s[1..], sep);
      if s[0] == sep then [""] + rest else [[s[0]] + rest[0]] + rest[1..]
  }

  /** Joining the pieces of an explode with the same separator gives the string back. */
  lemma {:induction false} JoinSplit(s: string, sep: char)
    ensures Join(Split(s, sep), [sep]) == s
  {
    if s != [] {
      var rest := Split(s[1..], sep);
      JoinSplit(s[1..], sep);
      var parts := Split(s, sep);
      if s[0] == sep {
        assert parts == [""] + rest;
        assert parts[1..] == rest;
        assert Join(parts, [sep]) == "" + [sep] + Join(rest, [sep]);
      } else if |rest| == 1 {
        assert parts == [[s[0]] + rest[0]];
        assert Join(parts, [sep]) == [s[0]] + s[1..];
      } else {
        assert parts == [[s[0]] + rest[0]] + rest[1..];
        assert parts[1..] == rest[1..];
        assert Join(parts, [sep]) == [s[0]] + (rest[0] + [sep] + Join(rest[1..], [sep]));
      }
      assert s == [s[0]] + s[1..];
    }
  }

  /** Exploding pieces that do not contain the separator gives the pieces back. */
  lemma {:induction false} SplitJoin(parts: seq<string>, sep: char)
    requires |parts| > 0
    requires forall i | 0 <= i < |parts| :: sep !in parts[i]
    ensures Split(Join(parts, [sep]), sep) == parts
  {
    if |parts| == 1 {
      SplitNoSeparator(parts[0], sep);
    } else {
      SplitJoin(parts[1..], sep);
      SplitPrefix(parts[0], Join(parts[1..], [sep]), sep);
      assert parts == [parts[0]] + parts[1..];
    }
  }

  lemma {:induction false} SplitNoSeparator(p: string, sep: char)
    requires sep !in p
    ensures Split(p, sep) == [p]
  {
    if p != [] {
      SplitNoSeparator(p[1..], sep);
      assert p == [p[0]] + p[1..];
    }
  }

  lemma {:induction false} SplitPrefix(p: string, t: string, sep: char)
    requires sep !in p
    ensures Split(p + [sep] + t, sep) == [p] + Split(t, sep)
  {
    if p == [] {
      assert p + [sep] + t == [sep] + t;
      assert ([sep] + t)[1..] == t;
    } else {
      SplitPrefix(p[1..], t, sep);
      assert (p + [sep] + t)[1..] == p[1..] + [sep] + t;
      assert p == [p[0]] + p[1..];
    }
  }

  /** `explode` gives a single piece exactly when the separator does not occur. */
  lemma {:induction false} SplitSingle(s: string, sep: char)
    ensures |Split(s, sep)| == 1 <==> sep !in s
  {
    if s != [] {
      SplitSingle(s[1..], sep);
      assert sep in s <==> s[0] == sep || sep in s[1..];
    }
  }

  /** A message built line by line: every line followed by "\n". */
  function JoinLines(lines: seq<string>): string {
    if lines == [] then "" else JoinLines(lines[..|lines| - 1]) + lines[|lines| - 1] + "\n"
  }

  lemma {:induction false} JoinLinesAppend(a: seq<string>, b: seq<string>)
    ensures JoinLines(a + b) == JoinLines(a) + JoinLines(b)
  {
    if b != [] {
      assert (a + b)[..|a + b| - 1] == a + b[..|b| - 1];
      JoinLinesAppend(a, b[..|b| - 1]);
    } else {
      assert a + b == a;
    }
  }

  /** A line added to a message built line by line. */
  lemma {:induction false} JoinLinesSnoc(lines: seq<string>, line: string)
    ensures JoinLines(lines + [line]) == JoinLines(lines) + line + "\n"
  {
    assert (lines + [line])[..|lines|] == lines;
  }

  lemma {:induction false} JoinLinesThree(x: string, y: string, z: string)
    ensures JoinLines([x, y]) == x + "\n" + y + "\n"
    ensures JoinLines([x, y, z]) == x + "\n" + y + "\n" + z + "\n"
  {
    assert [x, y, z][..2] == [x, y] && [x, y][..1] == [x] && [x][..0] == [];
    assert JoinLines([x]) == x + "\n";
    assert JoinLines([x, y]) == x + "\n" + y + "\n";
  }
}
