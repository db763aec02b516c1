/** Python 2's `int(text)` on a form value, base 10: surrounding whitespace is
    ignored, one optional sign, then one or more decimal digits; anything else
    raises `ValueError` (here: `None`). */
module PyInt {
  import opened Wrappers

  /** The characters C's `isspace` accepts. */
  predicate IsSpace(c: char) {
    c == ' ' || c == '\t' || c == '\n' || c == '\r' || c == '\U{B}' || c == '\U{C}'
  }

  predicate IsDigit(c: char) {
    '0' <= c <= '9'
  }

  predicate AllDigits(s: string) {
    forall i :: 0 <= i < |s| ==> IsDigit(s[i])
  }

  function TrimLeft(s: string): (r: string)
    ensures |r| <= |s|
    decreases |s|
  {
    if s != [] && IsSpace(s[0]) then TrimLeft(s[1..]) else s
  }

  function TrimRight(s: string): (r: string)
    ensures |r| <= |s|
    decreases |s|
  {
    if s != [] && IsSpace(s[|s| - 1]) then TrimRight(s[..|s| - 1]) else s
  }

  /** The value of a string of decimal digits, most significant first. */
  function DigitsValue(s: string): (n: nat)
    requires AllDigits(s)
    decreases |s|
  {
    if s == [] then 0
    else DigitsValue(s[..|s| - 1]) * 10 + (s[|s| - 1] - '0') as int
  }

  /** The numeral grammar `int()` accepts once the whitespace is trimmed: one
      optional sign followed by one or more decimal digits. */
  predicate Numeral(t: string) {
    var digits := if t != [] && (t[0] == '-' || t[0] == '+') then t[1..] else t;
    digits != [] && AllDigits(digits)
  }

  /** `int(text)`: `Some(value)` when Python accepts the text, `None` when it raises. */
  function ParseInt(text: string): (r: Option<int>)
    ensures r.Some? <==> Numeral(TrimRight(TrimLeft(text)))
    ensures r.Some? && r.value < 0 ==> TrimRight(TrimLeft(text))[0] == '-'
  {
    ParseNumeral(TrimRight(TrimLeft(text)))
  }

  /** The value of text that has already been trimmed of whitespace. */
  function ParseNumeral(t: string): Option<int> {
    if t == [] then None
    else if t[0] == '-' || t[0] == '+' then
      var d := t[1..];
      if d != [] && AllDigits(d) then
        var v: int := DigitsValue(d);
        Some(if t[0] == '-' then -v else v)
      else None
    else if AllDigits(t) then Some(DigitsValue(t))
    else None
  }

  /** The decimal digits of `n` without leading zeros. */
  function NatToDigits(n: nat): (s: string)
    ensures s != [] && AllDigits(s)
    decreases n
  {
    if n < 10 then [('0' as int + n) as char]
    else NatToDigits(n / 10) + [('0' as int + n % 10) as char]
  }

  /** `str(n)` for an integer. */
  function IntToString(n: int): string {
    if n < 0 then "-" + NatToDigits(-n) else NatToDigits(n)
  }

  lemma {:induction false} DigitsRoundTrip(n: nat)
    ensures DigitsValue(NatToDigits(n)) == n
    decreases n
  {
    if n >= 10 {
      var s := NatToDigits(n);
      DigitsRoundTrip(n / 10);
      assert s[..|s| - 1] == NatToDigits(n / 10);
    }
  }

  /** Every integer written in decimal is read back as the same integer. */
  lemma ParseIntRoundTrip(n: int)
    ensures ParseInt(IntToString(n)) == Some(n)
  {
    var s := IntToString(n);
    var d := NatToDigits(if n < 0 then -n else n);
    assert !IsSpace(s[0]) && !IsSpace(s[|s| - 1]);
    assert TrimRight(TrimLeft(s)) == s;
    DigitsRoundTrip(if n < 0 then -n else n);
    if n < 0 {
      assert s[1..] == d;
    } else {
      assert s[0] != '-' && s[0] != '+';
    }
  }

  /** Text that is empty or only whitespace is rejected. */
  lemma {:induction false} BlankIsRejected(text: string)
    requires forall i :: 0 <= i < |text| ==> IsSpace(text[i])
    ensures ParseInt(text) == None
  {
    BlankTrimsToEmpty(text);
  }

  lemma {:induction false} BlankTrimsToEmpty(text: string)
    requires forall i :: 0 <= i < |text| ==> IsSpace(text[i])
    ensures TrimLeft(text) == []
    decreases |text|
  {
    if text != [] {
      BlankTrimsToEmpty(text[1..]);
    }
  }

  predicate AllSpace(w: string) {
    forall i :: 0 <= i < |w| ==> IsSpace(w[i])
  }

  /** A string of digits needs no trimming and reads as its digit value. */
  lemma DigitsParse(d: string)
    requires d != [] && AllDigits(d)
    ensures ParseInt(d) == Some(DigitsValue(d))
  {
    assert !IsSpace(d[0]) && !IsSpace(d[|d| - 1]);
    assert TrimRight(TrimLeft(d)) == d;
  }

  /** A sign followed by digits needs no trimming. */
  lemma SignedNeedsNoTrim(c: char, d: string)
    requires c == '-' || c == '+'
    requires d != [] && AllDigits(d)
    ensures TrimRight(TrimLeft([c] + d)) == [c] + d
  {
    var t := [c] + d;
    assert !IsSpace(t[0]) && t[|t| - 1] == d[|d| - 1];
  }

  lemma {:induction false} LeadingZeroValue(d: string)
    requires AllDigits(d)
    ensures AllDigits("0" + d) && DigitsValue("0" + d) == DigitsValue(d)
    decreases |d|
  {
    var z := "0" + d;
    assert AllDigits(z);
    if d != [] {
      LeadingZeroValue(d[..|d| - 1]);
      assert z[..|z| - 1] == "0" + d[..|d| - 1];
    }
  }

  /** A leading zero does not change the value. */
  lemma LeadingZeroIgnored(d: string)
    requires d != [] && AllDigits(d)
    ensures ParseInt("0" + d) == ParseInt(d)
  {
    LeadingZeroValue(d);
    DigitsParse("0" + d);
    DigitsParse(d);
  }

  /** A leading `+` does not change the value. */
  lemma PlusIgnored(d: string)
    requires d != [] && AllDigits(d)
    ensures ParseInt("+" + d) == ParseInt(d)
  {
    SignedNeedsNoTrim('+', d);
    assert ("+" + d)[1..] == d;
    DigitsParse(d);
  }

  /** A leading `-` negates the value. */
  lemma MinusNegates(d: string)
    requires d != [] && AllDigits(d)
    ensures ParseInt(d).Some? && ParseInt("-" + d) == Some(-ParseInt(d).value)
  {
    var t := "-" + d;
    SignedNeedsNoTrim('-', d);
    assert t[0] == '-' && t[1..] == d;
    DigitsParse(d);
    var v: int := DigitsValue(d);
    assert ParseInt(t) == Some(-v);
  }

  lemma {:induction false} TrimLeftSpaces(w: string, x: string)
    requires AllSpace(w)
    ensures TrimLeft(w + x) == TrimLeft(x)
    decreases |w|
  {
    if w == [] {
      assert w + x == x;
    } else {
      assert IsSpace((w + x)[0]) && (w + x)[1..] == w[1..] + x;
      TrimLeftSpaces(w[1..], x);
    }
  }

  lemma {:induction false} TrimRightSpaces(x: string, w: string)
    requires AllSpace(w)
    ensures TrimRight(x + w) == TrimRight(x)
    decreases |w|
  {
    if w == [] {
      assert x + w == x;
    } else {
      var xw := x + w;
      assert IsSpace(xw[|xw| - 1]) && xw[..|xw| - 1] == x + w[..|w| - 1];
      TrimRightSpaces(x, w[..|w| - 1]);
    }
  }

  lemma {:induction false} TrimBothSpaces(t: string, w: string)
    requires AllSpace(w)
    ensures TrimRight(TrimLeft(t + w)) == TrimRight(TrimLeft(t))
    decreases |t|
  {
    if t == [] {
      assert t + w == w;
      BlankTrimsToEmpty(w);
    } else if IsSpace(t[0]) {
      assert (t + w)[1..] == t[1..] + w;
      TrimBothSpaces(t[1..], w);
    } else {
      TrimRightSpaces(t, w);
    }
  }

  /** Whitespace around the text does not change what `int()` makes of it. */
  lemma PaddingIgnored(w1: string, t: string, w2: string)
    requires AllSpace(w1) && AllSpace(w2)
    ensures ParseInt(w1 + t + w2) == ParseInt(t)
  {
    assert w1 + t + w2 == w1 + (t + w2);
    TrimLeftSpaces(w1, t + w2);
    TrimBothSpaces(t, w2);
    assert TrimRight(TrimLeft(w1 + t + w2)) == TrimRight(TrimLeft(t));
  }
}
