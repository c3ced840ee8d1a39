/**
 * The part of Rust's `str::parse::<usize>` that the pagination resolver relies on:
 * a decimal digit string, optionally preceded by a single '+', denotes its value;
 * anything else is a `ParseIntError`. The width of `usize` is not modelled (values are `nat`).
 */
module UsizeParse {
  import opened Wrappers

  /** The kinds of `ParseIntError` an unsigned parse without overflow can report. */
  datatype IntErrorKind = Empty | InvalidDigit

  /** The cause carried by the resolver's parse error. */
  datatype ParseIntError = ParseIntError(kind: IntErrorKind)

  /** The `Display` text of a `ParseIntError`; the two kinds read differently. */
  function Describe(e: ParseIntError): (t: string)
    ensures e.kind == Empty <==> "cannot parse integer" <= t
  {
    match e.kind
    case Empty => "cannot parse integer from empty string"
    case InvalidDigit =>
      var t := "invalid digit found in string";
      assert t[0] != 'c';
      t
  }

  predicate IsDigit(c: char) {
    '0' <= c <= '9'
  }

  predicate AllDigits(s: string) {
    forall i :: 0 <= i < |s| ==> IsDigit(s[i])
  }

  function DigitValue(c: char): (d: nat)
    requires IsDigit(c)
    ensures d < 10
  {
    c as int - '0' as int
  }

  function DigitChar(d: nat): (c: char)
    requires d < 10
    ensures IsDigit(c) && DigitValue(c) == d
  {
    ('0' as int + d) as char
  }

  function Pow10(k: nat): (p: nat)
    ensures p >= 1
  {
    if k == 0 then 1 else 10 * Pow10(k - 1)
  }

  /**
   * The value of a digit string read most significant digit first; the empty string reads as 0.
   * A string of `k` digits is below 10^k, and at least 10^(k-1) when it does not start with '0'.
   */
  function DigitsValue(s: string): (v: nat)
    requires AllDigits(s)
    ensures v < Pow10(|s|)
    ensures |s| > 0 && s[0] != '0' ==> v >= Pow10(|s| - 1)
    decreases |s|
  {
    if s == [] then 0
    else
      var init := s[..|s| - 1];
      assert |init| > 0 ==> init[0] == s[0];
      DigitsValue(init) * 10 + DigitValue(s[|s| - 1])
  }

  /** How `usize`'s `Display` writes `n`: decimal digits, no sign, no leading zero except for 0 itself. */
  function Show(n: nat): (s: string)
    ensures |s| > 0 && AllDigits(s)
    ensures s[0] == '0' ==> n == 0
    decreases n
  {
    if n < 10 then [DigitChar(n)] else Show(n / 10) + [DigitChar(n % 10)]
  }

  /** The string without the single '+' the parser allows in front. */
  function Magnitude(s: string): (m: string)
    ensures m == s || "+" + m == s
  {
    if |s| > 0 && s[0] == '+' then s[1..] else s
  }

  /** A digit string with its leading zeros dropped, keeping one digit. */
  function TrimZeros(s: string): (t: string)
    requires AllDigits(s)
    ensures AllDigits(t) && |t| <= |s| && t == s[|s| - |t|..]
    ensures |s| > 0 ==> |t| > 0 && (t[0] == '0' ==> |t| == 1)
    decreases |s|
  {
    if |s| > 1 && s[0] == '0' then TrimZeros(s[1..]) else s
  }

  /** `s.parse::<usize>()` */
  function ParseUsize(s: string): (r: Result<nat, ParseIntError>)
    ensures r == Err(ParseIntError(Empty)) <==> s == []
    ensures r.Ok? <==> (s != [] && AllDigits(s)) || (|s| > 1 && s[0] == '+' && AllDigits(s[1..]))
  {
    if s == [] then Err(ParseIntError(Empty))
    else if s == "+" || s == "-" then
      assert !IsDigit(s[0]);
      Err(ParseIntError(InvalidDigit))
    else
      var digits := Magnitude(s);
      if AllDigits(digits) then Ok(DigitsValue(digits)) else Err(ParseIntError(InvalidDigit))
  }

  lemma DigitsValueAppend(s: string, c: char)
    requires AllDigits(s) && IsDigit(c)
    ensures AllDigits(s + [c])
    ensures DigitsValue(s + [c]) == DigitsValue(s) * 10 + DigitValue(c)
  {
  }

  /** Reading back what `Show` writes gives the number again. */
  lemma {:induction false} DigitsValueShow(n: nat)
    ensures DigitsValue(Show(n)) == n
    decreases n
  {
    if n >= 10 {
      DigitsValueShow(n / 10);
      DigitsValueAppend(Show(n / 10), DigitChar(n % 10));
    }
  }

  /** Parsing the decimal rendering of a number yields that number. */
  lemma ParseShow(n: nat)
    ensures ParseUsize(Show(n)) == Ok(n)
  {
    DigitsValueShow(n);
  }

  /** An explicit '+' sign is accepted and does not change the value. */
  lemma ParsePlusShow(n: nat)
    ensures ParseUsize("+" + Show(n)) == Ok(n)
  {
    var s := "+" + Show(n);
    assert s[1..] == Show(n);
    DigitsValueShow(n);
  }

  /** An unsigned parse rejects every negative number as an invalid digit. */
  lemma ParseNegative(n: nat)
    ensures ParseUsize("-" + Show(n)) == Err(ParseIntError(InvalidDigit))
  {
  }

  /** Leading zeros do not change the value of a digit string. */
  lemma {:induction false} LeadingZero(s: string)
    requires AllDigits(s)
    ensures AllDigits("0" + s) && DigitsValue("0" + s) == DigitsValue(s)
    decreases |s|
  {
    if s != [] {
      var init, last := s[..|s| - 1], s[|s| - 1];
      assert s == init + [last];
      LeadingZero(init);
      assert "0" + s == ("0" + init) + [last];
      DigitsValueAppend("0" + init, last);
      DigitsValueAppend(init, last);
    }
  }

  /** Dropping leading zeros keeps the value. */
  lemma {:induction false} TrimZerosValue(s: string)
    requires AllDigits(s)
    ensures DigitsValue(TrimZeros(s)) == DigitsValue(s)
    decreases |s|
  {
    if |s| > 1 && s[0] == '0' {
      TrimZerosValue(s[1..]);
      assert s == "0" + s[1..];
      LeadingZero(s[1..]);
    }
  }

  /** A digit string without a leading zero is what `Show` writes for its value. */
  lemma {:induction false} ShowDigitsValue(t: string)
    requires AllDigits(t) && |t| > 0 && (t[0] == '0' ==> |t| == 1)
    ensures Show(DigitsValue(t)) == t
    decreases |t|
  {
    var init, last := t[..|t| - 1], t[|t| - 1];
    if |t| == 1 {
      assert DigitChar(DigitValue(last)) == last;
      assert t == [last];
    } else {
      assert init[0] == t[0];
      ShowDigitsValue(init);
      var n := DigitsValue(t);
      assert n == DigitsValue(init) * 10 + DigitValue(last);
      assert n >= 10;
      assert n / 10 == DigitsValue(init) && n % 10 == DigitValue(last);
      assert DigitChar(DigitValue(last)) == last;
      assert t == init + [last];
    }
  }

  /**
   * The other half of the round trip: rendering a parsed value gives back the input
   * without its '+' and its leading zeros (so "+007" parses to the number written "7").
   */
  lemma ShowParse(s: string)
    requires ParseUsize(s).Ok?
    ensures AllDigits(Magnitude(s)) && Show(ParseUsize(s).value) == TrimZeros(Magnitude(s))
  {
    var m := Magnitude(s);
    TrimZerosValue(m);
    ShowDigitsValue(TrimZeros(m));
  }
}
