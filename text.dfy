/**
 * Text primitives the controllers are built from: Python's `str(int)` and
 * its inverse, `sep.join(items)`, and the substring test `pattern in text`.
 */
module Text {

  datatype Option<+T> = None | Some(value: T)

  predicate IsDigit(c: char) {
    '0' <= c <= '9'
  }

  predicate AllDigits(s: string) {
    forall i :: 0 <= i < |s| ==> IsDigit(s[i])
  }

  function Digit(d: int): (c: char)
    requires 0 <= d < 10
    ensures IsDigit(c) && c as int - '0' as int == d
  {
    (('0' as int) + d) as char
  }

  /** Decimal digits of `n`, most significant first, no leading zero (Python's `str(n)` for n >= 0). */
  function NatToString(n: nat): (s: string)
    ensures |s| >= 1 && AllDigits(s)
    ensures s[0] == '0' ==> n == 0
    decreases n
  {
    if n < 10 then [Digit(n)] else NatToString(n / 10) + [Digit(n % 10)]
  }

  /** Python's `str(i)` for an int: a minus sign before the digits of a negative number. */
  function IntToString(i: int): (s: string)
    ensures |s| >= 1
    ensures i < 0 <==> s[0] == '-'
    ensures '\'' !in s
  {
    if i < 0 then "-" + NatToString(-i) else NatToString(i)
  }

  /** The number a string of decimal digits denotes. */
  function DigitsValue(s: string): nat
    requires AllDigits(s)
  {
    if s == [] then 0 else DigitsValue(s[..|s| - 1]) * 10 + (s[|s| - 1] as int - '0' as int)
  }

  function ParseNat(s: string): Option<nat> {
    if s != [] && AllDigits(s) then Some(DigitsValue(s)) else None
  }

  /** Python's `int(s)` restricted to an optional minus sign followed by decimal digits. */
  function ParseInt(s: string): Option<int> {
    var negative := |s| > 0 && s[0] == '-';
    match ParseNat(if negative then s[1..] else s)
    case Some(n) => Some(if negative then 0 - n else n)
    case None => None
  }

  lemma {:induction false} NatToStringRoundTrip(n: nat)
    ensures DigitsValue(NatToString(n)) == n
    decreases n
  {
    var s := NatToString(n);
    if n >= 10 {
      NatToStringRoundTrip(n / 10);
      assert s[..|s| - 1] == NatToString(n / 10);
    }
  }

  /** Parsing what `IntToString` prints gives the number back. */
  lemma IntToStringRoundTrip(i: int)
    ensures ParseInt(IntToString(i)) == Some(i)
  {
    var s := IntToString(i);
    if i < 0 {
      NatToStringRoundTrip(-i);
      assert s[1..] == NatToString(-i);
    } else {
      NatToStringRoundTrip(i);
    }
  }

  /** Distinct numbers print differently, so a printed number identifies its value. */
  lemma IntToStringInjective(a: int, b: int)
    ensures IntToString(a) == IntToString(b) ==> a == b
  {
    IntToStringRoundTrip(a);
    IntToStringRoundTrip(b);
  }

  /** `str(255)`, the largest byte. */
  lemma ByteMaxText()
    ensures IntToString(255) == "255"
  {
    assert Digit(2) == '2' && Digit(5) == '5';
    assert NatToString(25) == "25";
  }

  /** Python's `sep.join(xs)`. */
  function Join(sep: string, xs: seq<string>): string
    decreases |xs|
  {
    if |xs| == 0 then ""
    else if |xs| == 1 then xs[0]
    else xs[0] + sep + Join(sep, xs[1..])
  }

  /** Every item preceded by `sep`: the reference reading of a join. */
  function Prefixed(sep: string, xs: seq<string>): string
    decreases |xs|
  {
    if xs == [] then "" else sep + xs[0] + Prefixed(sep, xs[1..])
  }

  /** A join is the first item followed by every other item preceded by the separator. */
  lemma {:induction false} JoinIsFirstThenPrefixed(sep: string, xs: seq<string>)
    requires |xs| >= 1
    ensures Join(sep, xs) == xs[0] + Prefixed(sep, xs[1..])
    decreases |xs|
  {
    if |xs| >= 2 {
      JoinIsFirstThenPrefixed(sep, xs[1..]);
      assert xs[1..][1..] == xs[2..];
    }
  }

  /** A join between delimiters: the opening text, the first item, the prefixed rest, the closing text. */
  lemma DelimitedJoin(open: string, sep: string, xs: seq<string>, close: string)
    requires |xs| >= 1
    ensures open + Join(sep, xs) + close == open + xs[0] + Prefixed(sep, xs[1..]) + close
  {
    JoinIsFirstThenPrefixed(sep, xs);
  }

  /** Three items joined: `a`, the separator, `b`, the separator, `c`. */
  lemma JoinThree(sep: string, a: string, b: string, c: string)
    ensures Join(sep, [a, b, c]) == a + sep + b + sep + c
  {
    assert [a, b, c][1..] == [b, c];
    assert [b, c][1..] == [c];
    assert Join(sep, [b, c]) == b + sep + c;
  }

  lemma {:induction false} PrefixedAppend(sep: string, xs: seq<string>, ys: seq<string>)
    ensures Prefixed(sep, xs + ys) == Prefixed(sep, xs) + Prefixed(sep, ys)
    decreases |xs|
  {
    if xs != [] {
      PrefixedAppend(sep, xs[1..], ys);
      assert (xs + ys)[1..] == xs[1..] + ys;
    } else {
      assert xs + ys == ys;
    }
  }

  /** `pattern` occurs in `text` starting at position `i`. */
  predicate OccursAt(text: string, pattern: string, i: int) {
    0 <= i <= |text| - |pattern| && text[i..i + |pattern|] == pattern
  }

  /** Python's `pattern in text` for strings. */
  predicate Contains(text: string, pattern: string)
    decreases |text|
  {
    pattern <= text || (text != [] && Contains(text[1..], pattern))
  }

  /** `Contains` holds exactly when the pattern occurs at some position of the text. */
  lemma {:induction false} ContainsIffOccurs(text: string, pattern: string)
    ensures Contains(text, pattern) <==> exists i :: OccursAt(text, pattern, i)
    decreases |text|
  {
    if pattern <= text {
      assert OccursAt(text, pattern, 0);
    } else if text == [] {
    } else {
      ContainsIffOccurs(text[1..], pattern);
      if exists i :: OccursAt(text, pattern, i) {
        var i :| OccursAt(text, pattern, i);
        assert OccursAt(text[1..], pattern, i - 1);
      }
      if Contains(text[1..], pattern) {
        var j :| OccursAt(text[1..], pattern, j);
        assert OccursAt(text, pattern, j + 1);
      }
    }
  }

  /** The prefix of `s` before its first `'`, or `None` when `s` has no `'`. */
  function UpToQuote(s: string): Option<string>
    decreases |s|
  {
    if s == [] then None
    else if s[0] == '\'' then Some([])
    else match UpToQuote(s[1..])
      case Some(t) => Some([s[0]] + t)
      case None => None
  }

  /** What precedes the first `'` of a text that has one right after a quote-free `t`. */
  lemma {:induction false} UpToQuoteOf(t: string, rest: string)
    requires '\'' !in t && |rest| > 0 && rest[0] == '\''
    ensures UpToQuote(t + rest) == Some(t)
    decreases |t|
  {
    var s := t + rest;
    if t == [] {
      assert s == rest;
    } else {
      assert s[0] == t[0] && t[0] != '\'';
      assert s[1..] == t[1..] + rest;
      UpToQuoteOf(t[1..], rest);
      assert [t[0]] + t[1..] == t;
    }
  }
}
