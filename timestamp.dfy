/**
 * `format_timestamp`, which both entry points define identically: elapsed seconds
 * rendered as `HH:MM:SS`. Seconds are a `real` (Python's float without rounding);
 * the fields come from Python's floor division and modulo, and each is rendered
 * with `02d`, so the hours field widens instead of wrapping.
 */
module Timestamp {
  import opened Wrappers

  /** The three decoded fields of a timestamp. */
  datatype Clock = Clock(hours: int, minutes: int, seconds: int)

  predicate IsDigit(c: char) { '0' <= c <= '9' }

  predicate AllDigits(s: string) { forall i :: 0 <= i < |s| ==> IsDigit(s[i]) }

  /** The characters a rendered timestamp is made of. */
  predicate TimeChar(c: char) { IsDigit(c) || c == ':' || c == '-' }

  predicate TimeChars(s: string) { forall i :: 0 <= i < |s| ==> TimeChar(s[i]) }

  lemma TimeCharsConcat(a: string, b: string)
    requires TimeChars(a) && TimeChars(b)
    ensures TimeChars(a + b)
  {
    forall i | 0 <= i < |a + b| ensures TimeChar((a + b)[i]) {
      if i >= |a| { assert (a + b)[i] == b[i - |a|]; }
    }
  }

  function DigitChar(d: int): (c: char)
    requires 0 <= d < 10
    ensures IsDigit(c) && c as int - '0' as int == d
  {
    ('0' as int + d) as char
  }

  function DigitValue(c: char): (d: nat)
    requires IsDigit(c)
    ensures d < 10 && DigitChar(d) == c
  {
    c as int - '0' as int
  }

  /** Python's `x // d` on a float and a positive integer is the floor of the quotient. */
  lemma FloorQuotient(x: real, d: int)
    requires d > 0
    ensures (x / d as real).Floor == x.Floor / d
  {
    var f := x.Floor;
    var q, r := f / d, f % d;
    assert f == d * q + r && 0 <= r < d;
    var y := x / d as real;
    assert y * d as real == x;
    assert (q * d) as real <= x < (q * d + d) as real;
    assert q as real <= y < (q + 1) as real;
  }

  /**
   * The fields `format_timestamp` computes: `int(s // 3600)`, `int((s % 3600) // 60)`
   * and `int(s % 60)`, with Python's `%` on floats (`x - d * (x // d)`, never negative
   * for a positive divisor). They are the hours, minutes and seconds of the whole
   * seconds `s.Floor`: truncation, not rounding.
   */
  function Fields(s: real): (c: Clock)
    ensures c.hours * 3600 + c.minutes * 60 + c.seconds == s.Floor
    ensures 0 <= c.minutes < 60 && 0 <= c.seconds < 60
    ensures c.hours == s.Floor / 3600 && c.minutes == s.Floor % 3600 / 60 && c.seconds == s.Floor % 60
    ensures s >= 0.0 <==> c.hours >= 0
  {
    var hours := (s / 3600.0).Floor;
    var rest := s - 3600.0 * hours as real;
    var minutes := (rest / 60.0).Floor;
    var seconds := (s - 60.0 * (s / 60.0).Floor as real).Floor;
    FloorRemainder(s, 3600);
    FloorRemainder(s, 60);
    FloorQuotient(rest, 60);
    ClockArithmetic(s.Floor);
    assert hours == s.Floor / 3600 && rest.Floor == s.Floor % 3600;
    assert minutes == s.Floor % 3600 / 60 && seconds == s.Floor % 60;
    Clock(hours, minutes, seconds)
  }

  /** Python's `x % d` on a float and a positive integer (`x - d * (x // d)`) keeps the remainder of the floor. */
  lemma FloorRemainder(x: real, d: int)
    requires d > 0
    ensures (x / d as real).Floor == x.Floor / d
    ensures (x - d as real * (x / d as real).Floor as real).Floor == x.Floor % d
  {
    FloorQuotient(x, d);
    var q := x.Floor / d;
    assert x - d as real * q as real == x - (d * q) as real;
    FloorMinusInt(x, d * q);
  }

  /** Subtracting a whole number shifts the floor by it. */
  lemma FloorMinusInt(x: real, n: int)
    ensures (x - n as real).Floor == x.Floor - n
  {
  }

  /** Hours, minutes and seconds of a whole number of seconds add back up to it. */
  lemma ClockArithmetic(f: int)
    ensures f / 3600 * 3600 + f % 3600 / 60 * 60 + f % 60 == f
    ensures 0 <= f % 3600 / 60 < 60 && 0 <= f % 60 < 60
    ensures f % 3600 % 60 == f % 60
    ensures f >= 0 <==> f / 3600 >= 0
  {
    var h, r := f / 3600, f % 3600;
    var m, x := r / 60, r % 60;
    assert f == 3600 * h + r && r == 60 * m + x;
    assert f == 60 * (60 * h + m) + x;
  }

  /** Decimal digits of a natural number, without leading zeros (Python's `str` on an int). */
  function Decimal(n: nat): (s: string)
    ensures AllDigits(s)
    ensures 1 <= |s| && (|s| == 1 <==> n < 10) && (|s| <= 2 <==> n < 100)
    ensures s[0] == '0' ==> n == 0
    decreases n
  {
    if n < 10 then [DigitChar(n)] else Decimal(n / 10) + [DigitChar(n % 10)]
  }

  /** Python's `f"{n:02d}"`: zero-filled to two characters; a sign, if any, counts towards the width. */
  function Pad2(n: int): (s: string)
    ensures 2 <= |s| && TimeChars(s) && ':' !in s
    ensures n >= 0 <==> '-' !in s
    ensures n >= 0 ==> AllDigits(s)
    ensures n < 0 ==> s[0] == '-' && AllDigits(s[1..])
    ensures 0 <= n < 100 ==> |s| == 2
    ensures s[0] == '0' ==> 0 <= n < 10
    ensures n < 0 ==> s[1] != '0' && |s| == |Decimal(-n)| + 1
    ensures n >= 10 ==> |s| == |Decimal(n)|
  {
    if n < 0 then "-" + Decimal(-n)
    else if n < 10 then "0" + Decimal(n)
    else Decimal(n)
  }

  /** Three fields joined by ':' have the rendered shape. */
  lemma JoinedShape(h: string, m: string, x: string)
    requires 2 <= |h| && |m| == 2 && |x| == 2
    requires TimeChars(h) && TimeChars(m) && TimeChars(x)
    requires ':' !in h && ':' !in m && ':' !in x
    ensures var t := h + ":" + m + ":" + x;
      && 8 <= |t| && t[|t| - 6] == ':' && t[|t| - 3] == ':'
      && (forall i :: 0 <= i < |t| ==> (t[i] == ':' <==> i == |t| - 6 || i == |t| - 3))
      && TimeChars(t)
      && ('-' in t <==> '-' in h || '-' in m || '-' in x)
  {
    var t := h + ":" + m + ":" + x;
    forall i | 0 <= i < |t| ensures t[i] == ':' <==> i == |t| - 6 || i == |t| - 3 {
      if i < |h| { assert t[i] == h[i]; }
      else if |h| < i < |t| - 3 { assert t[i] == m[i - |h| - 1]; }
      else if i > |t| - 3 { assert t[i] == x[i - |t| + 2]; }
    }
    TimeCharsConcat(h, ":");
    TimeCharsConcat(h + ":", m);
    TimeCharsConcat(h + ":" + m, ":");
    TimeCharsConcat(h + ":" + m + ":", x);
  }

  /** The three fields padded and joined by ':'. */
  function Render(c: Clock): (t: string)
    requires 0 <= c.minutes < 60 && 0 <= c.seconds < 60
    ensures 8 <= |t| && t[|t| - 6] == ':' && t[|t| - 3] == ':'
    ensures forall i :: 0 <= i < |t| ==> (t[i] == ':' <==> i == |t| - 6 || i == |t| - 3)
    ensures TimeChars(t)
    ensures c.hours >= 0 <==> '-' !in t
  {
    JoinedShape(Pad2(c.hours), Pad2(c.minutes), Pad2(c.seconds));
    Pad2(c.hours) + ":" + Pad2(c.minutes) + ":" + Pad2(c.seconds)
  }

  /** `format_timestamp(s)`: made of digits and two ':'s, with a '-' only for negative input. */
  function FormatTimestamp(s: real): (t: string)
    ensures 8 <= |t| && t[|t| - 6] == ':' && t[|t| - 3] == ':'
    ensures forall i :: 0 <= i < |t| ==> (t[i] == ':' <==> i == |t| - 6 || i == |t| - 3)
    ensures TimeChars(t)
    ensures s >= 0.0 <==> '-' !in t
  {
    var c := Fields(s);
    assert 0 <= c.minutes < 60 && 0 <= c.seconds < 60;
    assert s >= 0.0 <==> c.hours >= 0;
    Render(c)
  }

  /** Value of a string of decimal digits, most significant first; leading zeros are allowed. */
  function DigitsValue(s: string): nat
    requires AllDigits(s)
  {
    if s == [] then 0 else 10 * DigitsValue(s[..|s| - 1]) + DigitValue(s[|s| - 1])
  }

  /** Reads a field back: an optional '-' followed by at least one digit. */
  function ParseField(s: string): (r: Option<int>)
  {
    if 2 <= |s| && s[0] == '-' && AllDigits(s[1..]) then Some(-(DigitsValue(s[1..]) as int))
    else if 1 <= |s| && AllDigits(s) then Some(DigitsValue(s))
    else None
  }

  /**
   * Reads a rendered timestamp back to whole seconds: a signed hours field of any
   * width, then ':', two minute digits, ':' and two second digits.
   */
  function ParseTimestamp(t: string): (r: Option<int>)
  {
    if |t| < 8 || t[|t| - 6] != ':' || t[|t| - 3] != ':' then None
    else ParseParts(t[..|t| - 6], t[|t| - 5..|t| - 3], t[|t| - 2..])
  }

  /** Whole seconds from the three fields of a timestamp, if each is well formed. */
  function ParseParts(h: string, m: string, x: string): (r: Option<int>)
  {
    var hours := ParseField(h);
    if hours.Some? && AllDigits(m) && AllDigits(x)
    then Some(hours.value * 3600 + DigitsValue(m) * 60 + DigitsValue(x))
    else None
  }

  lemma {:induction false} DecimalValue(n: nat)
    ensures DigitsValue(Decimal(n)) == n
    decreases n
  {
    if n >= 10 {
      var s := Decimal(n);
      assert s[..|s| - 1] == Decimal(n / 10);
      DecimalValue(n / 10);
    }
  }

  /** Every padded field reads back as the number it renders. */
  lemma Pad2Value(n: int)
    ensures ParseField(Pad2(n)) == Some(n)
  {
    if n < 0 {
      assert Pad2(n) == "-" + Decimal(-n);
      NegativeFieldValue(-n);
    } else if n < 10 {
      assert Pad2(n) == "0" + Decimal(n);
      PaddedDigitValue(n);
    } else {
      assert Pad2(n) == Decimal(n);
      PlainFieldValue(n);
    }
  }

  /** Digits without a sign read back as their value. */
  lemma PlainFieldValue(n: nat)
    ensures ParseField(Decimal(n)) == Some(n)
  {
    assert Decimal(n)[0] != '-';
    DecimalValue(n);
  }

  /** A '-' followed by the digits of k reads back as -k. */
  lemma NegativeFieldValue(k: nat)
    requires k > 0
    ensures ParseField("-" + Decimal(k)) == Some(-(k as int))
  {
    assert ("-" + Decimal(k))[1..] == Decimal(k);
    DecimalValue(k);
  }

  /** A single digit after a padding '0' reads back as that digit. */
  lemma PaddedDigitValue(n: nat)
    requires n < 10
    ensures ParseField("0" + Decimal(n)) == Some(n)
  {
    var d := DigitChar(n);
    assert "0" + Decimal(n) == ['0', d];
    assert ['0', d][..1] == ['0'];
    assert DigitsValue(['0']) == 0 by {
      assert ['0'][..0] == [];
    }
  }


  /** A string of the rendered shape reads back field by field. */
  lemma ParseJoined(h: string, m: string, x: string)
    requires 2 <= |h| && |m| == 2 && |x| == 2
    ensures ParseTimestamp(h + ":" + m + ":" + x) == ParseParts(h, m, x)
  {
    var t := h + ":" + m + ":" + x;
    SplitFields(h, m, x);
    assert 8 <= |t| && t[|t| - 6] == ':' && t[|t| - 3] == ':';
  }

  lemma SplitFields(h: string, m: string, x: string)
    requires |m| == 2 && |x| == 2
    ensures var t := h + ":" + m + ":" + x;
      t[..|t| - 6] == h && t[|t| - 5..|t| - 3] == m && t[|t| - 2..] == x
  {
  }

  /** Rendered fields read back as the seconds they stand for. */
  lemma RenderRoundTrip(c: Clock)
    requires 0 <= c.minutes < 60 && 0 <= c.seconds < 60
    ensures ParseTimestamp(Render(c)) == Some(c.hours * 3600 + c.minutes * 60 + c.seconds)
  {
    var h, m, x := Pad2(c.hours), Pad2(c.minutes), Pad2(c.seconds);
    Pad2Value(c.hours);
    Pad2Value(c.minutes);
    Pad2Value(c.seconds);
    PartsValue(h, m, x, c.hours, c.minutes, c.seconds);
    ParseJoined(h, m, x);
  }

  /** Fields that read back one by one read back together, minutes and seconds unsigned. */
  lemma PartsValue(h: string, m: string, x: string, hv: int, mv: int, xv: int)
    requires ParseField(h) == Some(hv) && ParseField(m) == Some(mv) && ParseField(x) == Some(xv)
    requires |m| == 2 && |x| == 2 && m[0] != '-' && x[0] != '-'
    ensures ParseParts(h, m, x) == Some(hv * 3600 + mv * 60 + xv)
  {
  }

  /**
   * Round trip: the rendered timestamp determines exactly the whole seconds of the
   * input, for every input. In particular the hours field is never wrapped.
   */
  lemma FormatRoundTrip(s: real)
    ensures ParseTimestamp(FormatTimestamp(s)) == Some(s.Floor)
  {
    RenderRoundTrip(Fields(s));
  }

  /** Two inputs render alike exactly when they have the same whole seconds. */
  lemma FormatSameIffSameSecond(a: real, b: real)
    ensures FormatTimestamp(a) == FormatTimestamp(b) <==> a.Floor == b.Floor
  {
    FormatRoundTrip(a);
    FormatRoundTrip(b);
  }

  /**
   * From 100 hours on, the hours field takes more than two characters: exactly the
   * decimal digits of the hours, with no padding, so the timestamp is never cut or wrapped.
   */
  lemma HoursFieldWidens(s: real)
    requires s >= 360000.0
    ensures |FormatTimestamp(s)| == |Decimal(s.Floor / 3600)| + 6
    ensures |FormatTimestamp(s)| > 8
  {
    var c := Fields(s);
    assert c.hours >= 100;
    assert FormatTimestamp(s) == Pad2(c.hours) + ":" + Pad2(c.minutes) + ":" + Pad2(c.seconds);
  }

  /** The worked examples: zero, one of each field, truncation of 59.9, and 100 hours. */
  lemma Examples()
    ensures FormatTimestamp(0.0) == "00:00:00"
    ensures FormatTimestamp(3661.0) == "01:01:01"
    ensures FormatTimestamp(59.9) == "00:00:59"
    ensures FormatTimestamp(360000.0) == "100:00:00"
  {
    FieldsExamples();
    RenderExamples();
  }

  lemma FieldsExamples()
    ensures Fields(0.0) == Clock(0, 0, 0)
    ensures Fields(3661.0) == Clock(1, 1, 1)
    ensures Fields(59.9) == Clock(0, 0, 59)
    ensures Fields(360000.0) == Clock(100, 0, 0)
  {
  }

  lemma RenderExamples()
    ensures Render(Clock(0, 0, 0)) == "00:00:00"
    ensures Render(Clock(1, 1, 1)) == "01:01:01"
    ensures Render(Clock(0, 0, 59)) == "00:00:59"
    ensures Render(Clock(100, 0, 0)) == "100:00:00"
  {
    assert Pad2(0) == "00" && Pad2(1) == "01" && Pad2(59) == "59";
    assert Decimal(100) == "100" by {
      assert Decimal(10) == "10";
    }
  }
}
