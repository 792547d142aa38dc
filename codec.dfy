/** The comma-grouped number text of the request form's number inputs
    (`formatNumberInput` and `parseLocaleNumber` in js/ui.js). Amounts are
    non-negative integers; `toLocaleString()` groups digits by three with commas. */
module NumberCodec {

  predicate IsDigit(c: char) {
    '0' <= c <= '9'
  }

  predicate AllDigits(s: string) {
    forall i :: 0 <= i < |s| ==> IsDigit(s[i])
  }

  /** Text the codec reads back: digits and grouping commas only. */
  predicate IsNumberText(s: string) {
    forall i :: 0 <= i < |s| ==> IsDigit(s[i]) || s[i] == ','
  }

  function DigitChar(d: nat): (c: char)
    requires d < 10
    ensures IsDigit(c)
  {
    ('0' as int + d) as char
  }

  function DigitValue(c: char): nat
    requires IsDigit(c)
  {
    c as int - '0' as int
  }

  function Pow10(k: nat): nat {
    if k == 0 then 1 else 10 * Pow10(k - 1)
  }

  /** `value.replace(/,/g, '')`. */
  function StripCommas(s: string): (r: string)
    ensures |r| <= |s|
    ensures IsNumberText(s) ==> AllDigits(r)
    ensures AllDigits(s) ==> r == s
  {
    if s == [] then []
    else StripCommas(s[..|s| - 1]) + (if s[|s| - 1] == ',' then [] else [s[|s| - 1]])
  }

  /** `value.replace(/[^0-9]/g, '')`. */
  function DigitsOnly(s: string): (r: string)
    ensures AllDigits(r)
    ensures |r| <= |s|
    ensures AllDigits(s) ==> r == s
  {
    if s == [] then []
    else DigitsOnly(s[..|s| - 1]) + (if IsDigit(s[|s| - 1]) then [s[|s| - 1]] else [])
  }

  /** `Number(s)` of a string of decimal digits (0 for the empty string). */
  function Value(s: string): nat
    requires AllDigits(s)
  {
    if s == [] then 0 else Value(s[..|s| - 1]) * 10 + DigitValue(s[|s| - 1])
  }

  /** The decimal digits of `n`, without leading zeros. */
  function Digits(n: nat): (r: string)
    ensures AllDigits(r) && 0 < |r|
  {
    if n < 10 then [DigitChar(n)] else Digits(n / 10) + [DigitChar(n % 10)]
  }

  /** A group of three digits, with leading zeros. */
  function Pad3(m: nat): (r: string)
    requires m < 1000
    ensures AllDigits(r) && |r| == 3
  {
    [DigitChar(m / 100), DigitChar(m / 10 % 10), DigitChar(m % 10)]
  }

  /** `Number(n).toLocaleString()`: the digits of `n` grouped by three with commas. */
  function Group(n: nat): (r: string)
    ensures IsNumberText(r) && 0 < |r|
  {
    if n < 1000 then Digits(n) else Group(n / 1000) + [','] + Pad3(n % 1000)
  }

  /** `parseLocaleNumber`: 0 for the empty string, otherwise the number the
      text denotes once every comma is removed. On number text the commas
      carry no value: the result is the value of the digits alone. */
  function Parse(s: string): (r: nat)
    requires IsNumberText(s)
    ensures r == Value(DigitsOnly(s))
  {
    StripCommasNumberText(s);
    if s == "" then 0 else Value(StripCommas(s))
  }

  /** On number text, removing the commas is keeping the digits. */
  lemma {:induction false} StripCommasNumberText(s: string)
    requires IsNumberText(s)
    ensures StripCommas(s) == DigitsOnly(s)
  {
    if s != [] {
      var p := s[..|s| - 1];
      assert IsNumberText(p) by {
        forall i | 0 <= i < |p|
          ensures IsDigit(p[i]) || p[i] == ','
        {
          assert p[i] == s[i];
        }
      }
      StripCommasNumberText(p);
    }
  }

  /** `formatNumberInput` on an input holding `s`: strip commas; when what is
      left is not a number (or is empty), drop every non-digit; write back ''
      when nothing is left and the comma-grouped value otherwise. The result
      is always text `Parse` reads, and it is empty exactly when `s` has no digit. */
  function Format(s: string): (r: string)
    ensures IsNumberText(r)
    ensures r == "" <==> DigitsOnly(s) == ""
  {
    var v := StripCommas(s);
    var v' := if !AllDigits(v) || v == "" then DigitsOnly(v) else v;
    DigitsOnlyStripCommas(s);
    if v' != "" then Group(Value(v')) else ""
  }

  lemma {:induction false} DigitsOnlyStripCommas(s: string)
    ensures DigitsOnly(StripCommas(s)) == DigitsOnly(s)
  {
    if s != [] {
      var p := s[..|s| - 1];
      var c := s[|s| - 1];
      var tail: string := if c == ',' then [] else [c];
      assert StripCommas(s) == StripCommas(p) + tail;
      DigitsOnlyStripCommas(p);
      DigitsOnlyConcat(StripCommas(p), tail);
      assert [c][..0] == [];
      assert DigitsOnly(tail) == (if IsDigit(c) then [c] else []);
    }
  }

  lemma {:induction false} DigitsOnlyConcat(a: string, b: string)
    ensures DigitsOnly(a + b) == DigitsOnly(a) + DigitsOnly(b)
  {
    if b != [] {
      DigitsOnlyConcat(a, b[..|b| - 1]);
      assert (a + b)[..|a + b| - 1] == a + b[..|b| - 1];
    } else {
      assert a + b == a;
    }
  }

  lemma {:induction false} StripCommasConcat(a: string, b: string)
    ensures StripCommas(a + b) == StripCommas(a) + StripCommas(b)
  {
    if b != [] {
      StripCommasConcat(a, b[..|b| - 1]);
      assert (a + b)[..|a + b| - 1] == a + b[..|b| - 1];
    } else {
      assert a + b == a;
    }
  }

  /** One decimal shift of x * p + y. */
  lemma ShiftDigit(x: int, p: int, y: int, d: int)
    ensures (x * p + y) * 10 + d == x * (p * 10) + (y * 10 + d)
  {
  }

  lemma {:induction false} ValueConcat(a: string, b: string)
    requires AllDigits(a) && AllDigits(b)
    ensures AllDigits(a + b)
    ensures Value(a + b) == Value(a) * Pow10(|b|) + Value(b)
  {
    if b != [] {
      var b' := b[..|b| - 1];
      var d := DigitValue(b[|b| - 1]);
      ValueConcat(a, b');
      var ab := a + b;
      assert ab[..|ab| - 1] == a + b';
      assert ab[|ab| - 1] == b[|b| - 1];
      assert Value(ab) == Value(a + b') * 10 + d;
      assert Value(b) == Value(b') * 10 + d;
      assert Pow10(|b|) == Pow10(|b'|) * 10;
      ShiftDigit(Value(a), Pow10(|b'|), Value(b'), d);
    } else {
      assert a + b == a;
    }
  }

  lemma {:induction false} ValueDigits(n: nat)
    ensures Value(Digits(n)) == n
  {
    if n >= 10 {
      ValueDigits(n / 10);
      var d := Digits(n / 10) + [DigitChar(n % 10)];
      assert d[..|d| - 1] == Digits(n / 10);
    }
  }

  lemma ValuePad3(m: nat)
    requires m < 1000
    ensures Value(Pad3(m)) == m
  {
    var p := Pad3(m);
    var d0, d1, d2 := DigitChar(m / 100), DigitChar(m / 10 % 10), DigitChar(m % 10);
    assert p[..|p| - 1] == [d0, d1];
    assert [d0, d1][..1] == [d0];
    assert [d0][..0] == [];
    assert Value([d0]) == m / 100;
    assert Value([d0, d1]) == m / 100 * 10 + m / 10 % 10;
    assert m / 10 == m / 100 * 10 + m / 10 % 10;
    assert m == m / 10 * 10 + m % 10;
  }

  /** Removing the commas from a grouped number leaves its digit groups side by side. */
  lemma StripGroupStep(n: nat)
    requires n >= 1000
    ensures StripCommas(Group(n)) == StripCommas(Group(n / 1000)) + Pad3(n % 1000)
  {
    var hi, lo := Group(n / 1000), Pad3(n % 1000);
    assert Group(n) == hi + [','] + lo;
    StripCommasConcat(hi + [','], lo);
    StripCommasConcat(hi, [',']);
    assert StripCommas([',']) == [] by {
      assert [','][..0] == [];
    }
    assert StripCommas(hi + [',']) == StripCommas(hi);
  }

  /** Removing the commas from a grouped number leaves a digit string. */
  lemma {:induction false} StripGroupDigits(n: nat)
    ensures AllDigits(StripCommas(Group(n))) && StripCommas(Group(n)) != ""
  {
    if n >= 1000 {
      StripGroupDigits(n / 1000);
      StripGroupStep(n);
    }
  }

  /** Round trip: reading back the grouped text of `n` gives `n` (js/ui.js:230, 236-239). */
  lemma {:induction false} ParseGroup(n: nat)
    ensures Parse(Group(n)) == n
  {
    var g := Group(n);
    StripGroupDigits(n);
    assert Parse(g) == Value(StripCommas(g));
    if n < 1000 {
      ValueDigits(n);
    } else {
      var q, m := n / 1000, n % 1000;
      var hi, lo := StripCommas(Group(q)), Pad3(m);
      ParseGroup(q);
      StripGroupDigits(q);
      assert Value(hi) == q;
      StripGroupStep(n);
      ValueConcat(hi, lo);
      ValuePad3(m);
      assert Pow10(3) == 1000;
      assert Value(StripCommas(g)) == q * 1000 + m;
    }
  }

  /** What the input handler relies on when it formats and then re-parses
      (js/ui.js:201-204): the formatted text reads back as the number the
      digits of the typed text denote. */
  lemma ParseFormat(s: string)
    ensures Parse(Format(s)) == Value(DigitsOnly(s))
  {
    var v := StripCommas(s);
    DigitsOnlyStripCommas(s);
    if DigitsOnly(s) != "" {
      var v' := if !AllDigits(v) || v == "" then DigitsOnly(v) else v;
      assert v' == DigitsOnly(s);
      ParseGroup(Value(v'));
    }
  }

  /** For a string of digits, format-then-parse gives its numeric value. */
  lemma ParseFormatDigits(s: string)
    requires AllDigits(s)
    ensures Parse(Format(s)) == Value(s)
  {
    ParseFormat(s);
  }

  /** Formatting twice is formatting once: the input handler can run on its
      own output without changing it. */
  lemma FormatIdempotent(s: string)
    ensures Format(Format(s)) == Format(s)
  {
    var f := Format(s);
    if f != "" {
      var v := StripCommas(s);
      var v' := if !AllDigits(v) || v == "" then DigitsOnly(v) else v;
      DigitsOnlyStripCommas(s);
      var n := Value(v');
      assert f == Group(n);
      StripGroupDigits(n);
      ParseGroup(n);
      assert Format(f) == Group(Value(StripCommas(f)));
    }
  }
}
