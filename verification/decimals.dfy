/** The `decimal` quantity of an update message, and the two library calls the
    wire codec makes on it: `decimal.Parse` and `decimal.ToString()`. Both
    follow the current culture; the model takes a culture whose decimal
    separator is '.' and whose negative sign is '-'. A .NET decimal keeps its
    scale, so "1.50" parses to 150 hundredths and prints back as "1.50". */
module Decimals {
  import opened Wrappers
  import opened Text

  /** The number `mantissa` / 10^`scale`. */
  datatype Decimal = Decimal(mantissa: int, scale: nat)

  predicate IsDigit(c: char) { '0' <= c <= '9' }

  predicate AllDigits(s: string) { forall i :: 0 <= i < |s| ==> IsDigit(s[i]) }

  /** The value of a string of decimal digits, most significant first. */
  function DigitsValue(s: string): (n: nat)
    requires AllDigits(s)
    decreases |s|
  {
    if s == [] then 0
    else DigitsValue(s[..|s| - 1]) * 10 + (s[|s| - 1] - '0') as nat
  }

  /** The shortest decimal digit string of `n`. */
  function NatDigits(n: nat): (s: string)
    ensures |s| >= 1 && AllDigits(s)
    ensures DigitsValue(s) == n
  {
    if n < 10 then [('0' as int + n) as char]
    else
      var s := NatDigits(n / 10) + [('0' as int + n % 10) as char];
      assert s[..|s| - 1] == NatDigits(n / 10);
      s
  }

  function Zeros(k: nat): (s: string)
    ensures |s| == k && AllDigits(s)
  {
    if k == 0 then [] else Zeros(k - 1) + ['0']
  }

  /** Leading zeros do not change the value of a digit string. */
  lemma {:induction false} LeadingZeros(k: nat, s: string)
    requires AllDigits(s)
    ensures AllDigits(Zeros(k) + s) && DigitsValue(Zeros(k) + s) == DigitsValue(s)
    decreases |s|
  {
    var z := Zeros(k);
    if s == [] {
      assert z + s == z;
      ZerosValue(k);
    } else {
      LeadingZeros(k, s[..|s| - 1]);
      assert (z + s)[..|z + s| - 1] == z + s[..|s| - 1];
    }
  }

  lemma {:induction false} ZerosValue(k: nat)
    ensures DigitsValue(Zeros(k)) == 0
  {
    if k > 0 {
      ZerosValue(k - 1);
      assert Zeros(k)[..k - 1] == Zeros(k - 1);
    }
  }

  function Abs(x: int): nat { if x < 0 then -x else x }

  /** `d.ToString()`: an optional '-', the integer digits, and when the scale is
      positive a '.' followed by exactly `scale` fractional digits. The text
      is never empty, starts with '-' exactly for a negative number, and holds
      nothing but '-', digits and '.', so in particular no space. */
  function ToString(d: Decimal): (r: string)
    ensures r != [] && (r[0] == '-' <==> d.mantissa < 0)
    ensures NoneOf(r, " ")
  {
    var sign := if d.mantissa < 0 then "-" else "";
    var body := ToStringUnsigned(Abs(d.mantissa), d.scale);
    assert forall i :: 0 <= i < |sign + body| ==> (sign + body)[i] == '-' || IsDigit((sign + body)[i])
                                                  || (sign + body)[i] == '.';
    sign + body
  }

  /** The digits of `magnitude`, padded with leading zeros to at least
      `scale + 1` digits, with a '.' before the last `scale` of them: a digit
      first, and only digits and '.'. */
  function ToStringUnsigned(magnitude: nat, scale: nat): (r: string)
    ensures |r| > scale && IsDigit(r[0])
    ensures forall i :: 0 <= i < |r| ==> IsDigit(r[i]) || r[i] == '.'
  {
    var padded := Padded(magnitude, scale);
    var cut := |padded| - scale;
    padded[..cut] + (if scale == 0 then "" else "." + padded[cut..])
  }

  /** The digits of `n`, with leading zeros up to a length of `scale + 1`. */
  function Padded(n: nat, scale: nat): (s: string)
    ensures |s| > scale && AllDigits(s) && DigitsValue(s) == n
  {
    var digits := NatDigits(n);
    if |digits| <= scale then
      LeadingZeros(scale + 1 - |digits|, digits);
      Zeros(scale + 1 - |digits|) + digits
    else digits
  }

  /** The texts `decimal.Parse` accepts here: an optional '-', then the
      unsigned form. */
  predicate NumberText(s: string)
  {
    if |s| > 0 && s[0] == '-' then UnsignedNumberText(s[1..]) else UnsignedNumberText(s)
  }

  /** One or more digits, optionally followed by '.' and one or more digits. */
  predicate UnsignedNumberText(body: string)
  {
    || (body != [] && AllDigits(body))
    || exists k :: 0 < k < |body| - 1 && body[k] == '.' && AllDigits(body[..k]) && AllDigits(body[k + 1..])
  }

  /** `decimal.Parse(s)`: it succeeds exactly on `NumberText`; anything else is
      a `FormatException`, here `None`. A parsed number has fewer decimal
      places than the text has characters, and is negative only after a
      leading '-'. */
  function Parse(s: string): (r: Option<Decimal>)
    ensures r.Some? <==> NumberText(s)
    ensures r.Some? ==> s != [] && r.value.scale < |s|
    ensures r.Some? && r.value.mantissa < 0 ==> s[0] == '-'
  {
    ParseUnsignedIff(if |s| > 0 && s[0] == '-' then s[1..] else s);
    if |s| > 0 && s[0] == '-' then
      match ParseUnsigned(s[1..])
      case None => None
      case Some(d) => Some(Decimal(-d.mantissa, d.scale))
    else ParseUnsigned(s)
  }

  /** The unsigned part of `Parse`: digits, optionally '.' and more digits. */
  function ParseUnsigned(body: string): (r: Option<Decimal>)
    ensures r.Some? ==> r.value.mantissa >= 0 && r.value.scale < |body|
  {
    var parts := Split(body, ".");
    if |parts| > 2 || parts[0] == [] || !AllDigits(parts[0]) then None
    else if |parts| == 2 && (parts[1] == [] || !AllDigits(parts[1])) then None
    else
      var fraction := if |parts| == 2 then parts[1] else [];
      JoinSplit(body, '.');
      assert |parts| == 2 ==> Join(parts, '.') == parts[0] + ['.'] + parts[1];
      Some(Decimal(DigitsValue(parts[0] + fraction), |fraction|))
  }

  /** The tokens `ParseUnsigned` checks, split on '.', meet its conditions. */
  predicate UnsignedParts(parts: seq<string>)
  {
    && 1 <= |parts| <= 2 && parts[0] != [] && AllDigits(parts[0])
    && (|parts| == 2 ==> parts[1] != [] && AllDigits(parts[1]))
  }

  /** `ParseUnsigned` accepts exactly the unsigned numbers. */
  lemma {:induction false} ParseUnsignedIff(body: string)
    ensures ParseUnsigned(body).Some? <==> UnsignedNumberText(body)
  {
    var parts := Split(body, ".");
    ParseUnsignedAccepts(body);
    assert UnsignedParts(parts) <==> !(|parts| > 2 || parts[0] == [] || !AllDigits(parts[0])
                                      || (|parts| == 2 && (parts[1] == [] || !AllDigits(parts[1]))));
  }

  /** `ParseUnsigned`'s conditions on the '.'-separated tokens hold exactly
      when the text is an unsigned number. */
  lemma {:induction false} ParseUnsignedAccepts(body: string)
    ensures UnsignedParts(Split(body, ".")) <==> UnsignedNumberText(body)
  {
    if UnsignedParts(Split(body, ".")) {
      PartsAreNumber(body);
    }
    if UnsignedNumberText(body) {
      NumberHasParts(body);
    }
  }

  lemma {:induction false} PartsAreNumber(body: string)
    requires UnsignedParts(Split(body, "."))
    ensures UnsignedNumberText(body)
  {
    var parts := Split(body, ".");
    JoinSplit(body, '.');
    if |parts| == 2 {
      var k := |parts[0]|;
      assert body == parts[0] + ['.'] + parts[1];
      assert body[..k] == parts[0] && body[k + 1..] == parts[1];
    }
  }

  lemma {:induction false} NumberHasParts(body: string)
    requires UnsignedNumberText(body)
    ensures UnsignedParts(Split(body, "."))
  {
    if body != [] && AllDigits(body) {
      DigitsSplit(body, []);
      assert body + [] == body;
    } else {
      var k :| 0 < k < |body| - 1 && body[k] == '.' && AllDigits(body[..k]) && AllDigits(body[k + 1..]);
      assert body == body[..k] + ['.'] + body[k + 1..];
      DigitsSplit(body[..k], body[k + 1..]);
    }
  }

  /** Digits, and optionally '.' and more digits, split on '.' into the digit
      runs. */
  lemma {:induction false} DigitsSplit(whole: string, fraction: string)
    requires AllDigits(whole) && AllDigits(fraction)
    ensures fraction == [] ==> Split(whole + fraction, ".") == [whole]
    ensures fraction != [] ==> Split(whole + ['.'] + fraction, ".") == [whole, fraction]
  {
    assert NoneOf(whole, ".") && NoneOf(fraction, ".");
    if fraction == [] {
      SplitToken(whole, [], ".");
    } else {
      assert whole + ['.'] + fraction == Join([whole, fraction], '.');
      SplitJoin([whole, fraction], '.', ".");
    }
  }

  /** A non-empty run of digits and an optional fraction parse to the number
      those digits spell, with one decimal place per fractional digit. */
  lemma {:induction false} ParseUnsignedParts(whole: string, fraction: string)
    requires whole != [] && AllDigits(whole) && AllDigits(fraction)
    ensures AllDigits(whole + fraction)
    ensures ParseUnsigned(whole + (if fraction == [] then "" else "." + fraction))
      == Some(Decimal(DigitsValue(whole + fraction), |fraction|))
  {
    var body := whole + (if fraction == [] then "" else "." + fraction);
    assert NoneOf(whole, ".") && NoneOf(fraction, ".");
    if fraction == [] {
      assert body == Join([whole], '.');
      SplitJoin([whole], '.', ".");
      assert whole + fraction == whole;
    } else {
      assert body == Join([whole, fraction], '.');
      SplitJoin([whole, fraction], '.', ".");
    }
  }

  /** An optional '-', a non-empty run of digits and an optional fraction
      parse to the signed number those digits spell, with one decimal place
      per fractional digit. */
  lemma {:induction false} ParseParts(negative: bool, whole: string, fraction: string)
    requires whole != [] && AllDigits(whole) && AllDigits(fraction)
    ensures AllDigits(whole + fraction)
    ensures var magnitude: int := DigitsValue(whole + fraction);
      Parse((if negative then "-" else "") + (whole + (if fraction == [] then "" else "." + fraction)))
        == Some(Decimal(if negative then -magnitude else magnitude, |fraction|))
  {
    var body := whole + (if fraction == [] then "" else "." + fraction);
    var s := (if negative then "-" else "") + body;
    ParseUnsignedParts(whole, fraction);
    if negative {
      assert s[0] == '-' && s[1..] == body;
    } else {
      assert s == body && s[0] == whole[0] && IsDigit(s[0]);
    }
  }

  /** The unsigned text of a magnitude and scale parses back to them. */
  lemma {:induction false} ParseToStringUnsigned(magnitude: nat, scale: nat)
    ensures ParseUnsigned(ToStringUnsigned(magnitude, scale)) == Some(Decimal(magnitude, scale))
  {
    var padded := Padded(magnitude, scale);
    var cut := |padded| - scale;
    var whole, fraction := padded[..cut], padded[cut..];
    DigitHalves(padded, cut);
    var text := whole + (if fraction == [] then "" else "." + fraction);
    assert ToStringUnsigned(magnitude, scale) == text;
    assert ParseUnsigned(text) == Some(Decimal(DigitsValue(whole + fraction), |fraction|)) by {
      ParseUnsignedParts(whole, fraction);
    }
  }

  /** Both halves of a digit string, cut anywhere, are digit strings. */
  lemma {:induction false} DigitHalves(digits: string, cut: nat)
    requires AllDigits(digits) && cut <= |digits|
    ensures AllDigits(digits[..cut]) && AllDigits(digits[cut..])
    ensures digits[..cut] + digits[cut..] == digits
  {
    var whole, fraction := digits[..cut], digits[cut..];
    forall i | 0 <= i < |whole| ensures IsDigit(whole[i]) {
      assert whole[i] == digits[i];
    }
    forall i | 0 <= i < |fraction| ensures IsDigit(fraction[i]) {
      assert fraction[i] == digits[cut + i];
    }
  }

  /** Every decimal prints to text that parses back to the same decimal,
      scale included. */
  lemma {:induction false} ParseToString(d: Decimal)
    ensures Parse(ToString(d)) == Some(d)
  {
    var body := ToStringUnsigned(Abs(d.mantissa), d.scale);
    ParseToStringUnsigned(Abs(d.mantissa), d.scale);
    var s := ToString(d);
    if d.mantissa < 0 {
      assert s[0] == '-' && s[1..] == body;
    } else {
      assert s == body && s[0] != '-';
    }
  }
}
