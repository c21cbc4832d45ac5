/** Numbers on the wire: the decimal text a set command carries and the
    `float(...)` conversion a get applies to a reply. */
module Decimals {
  import opened Text

  datatype Option<T> = None | Some(value: T)

  type Digit = d: nat | d < 10

  /** A decimal number as it is written: a sign, the whole part and the digits after
      the point (no point at all when there are none). */
  datatype Decimal = Decimal(negative: bool, whole: nat, fraction: seq<Digit>)

  function FractionValue(f: seq<Digit>): real {
    if f == [] then 0.0 else (f[0] as real + FractionValue(f[1..])) / 10.0
  }

  /** The number a decimal denotes. */
  function Value(d: Decimal): real {
    var magnitude := d.whole as real + FractionValue(d.fraction);
    if d.negative then -magnitude else magnitude
  }

  predicate IsDigit(c: char) {
    '0' <= c <= '9'
  }

  predicate AllDigits(s: string) {
    forall i :: 0 <= i < |s| ==> IsDigit(s[i])
  }

  function DigitValue(c: char): Digit
    requires IsDigit(c)
  {
    c as int - '0' as int
  }

  function DigitChar(n: Digit): (c: char)
    ensures IsDigit(c) && DigitValue(c) == n
  {
    ('0' as int + n) as char
  }

  /** The whole number a run of digit characters spells, most significant first. */
  function NatOf(s: string): nat
    requires AllDigits(s)
  {
    if s == [] then 0 else NatOf(s[..|s| - 1]) * 10 + DigitValue(s[|s| - 1])
  }

  /** The value of digit characters written after a decimal point. */
  function FractionOf(s: string): real
    requires AllDigits(s)
  {
    if s == [] then 0.0 else (DigitValue(s[0]) as real + FractionOf(s[1..])) / 10.0
  }

  /** The digits of `n` without leading zeros. */
  function NatText(n: nat): (t: string)
    ensures t != [] && AllDigits(t)
  {
    if n < 10 then [DigitChar(n)] else NatText(n / 10) + [DigitChar(n % 10)]
  }

  function FractionText(f: seq<Digit>): (t: string)
    ensures |t| == |f| && AllDigits(t)
  {
    if f == [] then [] else [DigitChar(f[0])] + FractionText(f[1..])
  }

  /** The text a set command carries for `d`: an optional "-", the whole part, and the
      fraction after a "." when there is one, e.g. "12.5", "-12.34", "1000". */
  function Format(d: Decimal): string {
    (if d.negative then "-" else "")
    + NatText(d.whole)
    + (if d.fraction == [] then "" else "." + FractionText(d.fraction))
  }

  /** The length of the run of digits `s` starts with. */
  function DigitRun(s: string): (n: nat)
    ensures n <= |s| && AllDigits(s[..n])
    ensures n < |s| ==> !IsDigit(s[n])
  {
    if s != [] && IsDigit(s[0]) then
      var n := 1 + DigitRun(s[1..]);
      assert forall i :: 0 < i < n ==> s[..n][i] == s[1..][..n - 1][i - 1];
      n
    else 0
  }

  /** An unsigned decimal: digits, optionally a "." and more digits, with at least one
      digit on either side of the point. */
  function ParseUnsigned(t: string): Option<real> {
    var n := DigitRun(t);
    var rest := t[n..];
    if rest == [] then
      if n > 0 then Some(NatOf(t[..n]) as real) else None
    else if rest[0] == '.' && AllDigits(rest[1..]) && (n > 0 || |rest| > 1) then
      Some(NatOf(t[..n]) as real + FractionOf(rest[1..]))
    else
      None
  }

  /** A decimal with an optional leading "+" or "-". */
  function ParseSigned(t: string): Option<real> {
    if t != [] && (t[0] == '-' || t[0] == '+') then
      match ParseUnsigned(t[1..])
      case None => None
      case Some(x) => Some(if t[0] == '-' then -x else x)
    else
      ParseUnsigned(t)
  }

  /** The characters `float()` ignores around a number: the ASCII tab, line feed,
      vertical tab, form feed, carriage return and space, and the non-ASCII characters
      for which `str.isspace()` holds. The ASCII separators U+001C..U+001F, which
      `str.strip()` removes, are not among them. */
  predicate IsFloatSpace(c: char) {
    IsSpace(c) && !('\U{1C}' <= c <= '\U{1F}')
  }

  /** How many characters `float()` ignores at the start of `s`. */
  function FloatLead(s: string): (n: nat)
    ensures n <= |s|
    ensures forall i :: 0 <= i < n ==> IsFloatSpace(s[i])
    ensures n == |s| || !IsFloatSpace(s[n])
  {
    if s != [] && IsFloatSpace(s[0]) then
      var m := FloatLead(s[1..]);
      assert forall i :: 0 <= i < m ==> s[1..][i] == s[i + 1];
      1 + m
    else 0
  }

  /** How many characters `float()` ignores at the end of `s`. */
  function FloatTrail(s: string): (n: nat)
    ensures n <= |s|
    ensures forall i :: |s| - n <= i < |s| ==> IsFloatSpace(s[i])
    ensures n == |s| || !IsFloatSpace(s[|s| - 1 - n])
  {
    if s != [] && IsFloatSpace(s[|s| - 1]) then
      var m := FloatTrail(s[..|s| - 1]);
      assert forall i :: 0 <= i < |s| - 1 ==> s[..|s| - 1][i] == s[i];
      1 + m
    else 0
  }

  /** The text `float()` converts: `s` without the characters it ignores at either end. */
  function FloatText(s: string): (r: string)
    ensures FloatLead(s) + |r| <= |s|
    ensures forall i :: 0 <= i < |r| ==> r[i] == s[FloatLead(s) + i]
    ensures r == [] || (!IsFloatSpace(r[0]) && !IsFloatSpace(r[|r| - 1]))
  {
    var n := FloatLead(s);
    if n == |s| then []
    else
      var m := FloatTrail(s);
      assert !IsFloatSpace(s[n]);
      s[n..|s| - m]
  }

  /** Only whitespace `float()` ignores follows the converted text, so the text is
      determined: its start, its ends and what lies after it are all fixed. */
  lemma FloatTextEnd(s: string)
    ensures forall i :: FloatLead(s) + |FloatText(s)| <= i < |s| ==> IsFloatSpace(s[i])
  {
  }

  /** Python's `float(s)` on decimal text: the whitespace around the number is ignored,
      anything else that is not a signed decimal is refused (`None` stands for
      ValueError). */
  function ParseFloat(s: string): Option<real> {
    ParseSigned(FloatText(s))
  }

  lemma {:induction false} NatOfText(n: nat)
    ensures NatOf(NatText(n)) == n
    decreases n
  {
    if n >= 10 {
      var t := NatText(n / 10) + [DigitChar(n % 10)];
      assert t[..|t| - 1] == NatText(n / 10);
      NatOfText(n / 10);
    }
  }

  lemma {:induction false} FractionOfText(f: seq<Digit>)
    ensures FractionOf(FractionText(f)) == FractionValue(f)
  {
    if f != [] {
      assert FractionText(f)[1..] == FractionText(f[1..]);
      FractionOfText(f[1..]);
    }
  }

  lemma {:induction false} DigitRunStops(a: string, b: string)
    requires AllDigits(a)
    requires b == [] || !IsDigit(b[0])
    ensures DigitRun(a + b) == |a|
  {
    if a == [] {
      assert a + b == b;
    } else {
      assert (a + b)[1..] == a[1..] + b;
      DigitRunStops(a[1..], b);
    }
  }

  /** The text the parser accepts for an unsigned decimal. */
  function UnsignedText(d: Decimal): string {
    NatText(d.whole) + (if d.fraction == [] then "" else "." + FractionText(d.fraction))
  }

  lemma ParseUnsignedText(d: Decimal)
    ensures ParseUnsigned(UnsignedText(d)) == Some(d.whole as real + FractionValue(d.fraction))
  {
    var w := NatText(d.whole);
    var tail := if d.fraction == [] then "" else "." + FractionText(d.fraction);
    var t := w + tail;
    DigitRunStops(w, tail);
    assert t[..|w|] == w;
    assert t[|w|..] == tail;
    NatOfText(d.whole);
    if d.fraction != [] {
      assert tail[1..] == FractionText(d.fraction);
      FractionOfText(d.fraction);
    }
  }

  /** A formatted decimal has no whitespace to strip. */
  lemma StripFormat(d: Decimal)
    ensures Strip(Format(d)) == Format(d)
  {
    var t := Format(d);
    FormatFirst(d);
    FormatLast(d);
    assert Trimmed(t);
    assert [] + t + [] == t;
    StripPadded([], t, []);
  }

  lemma FormatFirst(d: Decimal)
    ensures Format(d) != [] && (Format(d)[0] == '-' || IsDigit(Format(d)[0]))
  {
    var w := NatText(d.whole);
    var tail := if d.fraction == [] then "" else "." + FractionText(d.fraction);
    if d.negative {
      assert Format(d) == "-" + (w + tail);
    } else {
      assert Format(d) == w + tail;
      assert (w + tail)[0] == w[0];
    }
  }

  lemma FormatLast(d: Decimal)
    ensures Format(d) != [] && IsDigit(Format(d)[|Format(d)| - 1])
  {
    var w := NatText(d.whole);
    var sign := if d.negative then "-" else "";
    if d.fraction == [] {
      assert Format(d) == (sign + w) + "";
      assert (sign + w)[|sign + w| - 1] == w[|w| - 1];
    } else {
      var f := FractionText(d.fraction);
      assert Format(d) == (sign + w + ".") + f;
      assert Format(d)[|Format(d)| - 1] == f[|f| - 1];
    }
  }

  lemma ParseNegativeFormat(d: Decimal)
    requires d.negative
    ensures ParseSigned(Format(d)) == Some(Value(d))
  {
    var u := UnsignedText(d);
    ParseUnsignedText(d);
    assert Format(d) == "-" + u;
    assert Format(d)[1..] == u;
  }

  lemma ParsePositiveFormat(d: Decimal)
    requires !d.negative
    ensures ParseSigned(Format(d)) == Some(Value(d))
  {
    var w := NatText(d.whole);
    var tail := if d.fraction == [] then "" else "." + FractionText(d.fraction);
    assert Format(d) == "" + w + tail;
    assert "" + w + tail == w + tail;
    FormatFirst(d);
    ParseSignedDigit(Format(d));
    ParseUnsignedText(d);
  }

  /** Text that starts with a digit has no sign. */
  lemma ParseSignedDigit(t: string)
    requires t != [] && IsDigit(t[0])
    ensures ParseSigned(t) == ParseUnsigned(t)
  {
  }

  /** `float()` ignores nothing in the text of a set command. */
  lemma FloatTextFormat(d: Decimal)
    ensures FloatText(Format(d)) == Format(d)
  {
    var t := Format(d);
    FormatFirst(d);
    FormatLast(d);
    NumberCharNotSpace(t[0]);
    NumberCharNotSpace(t[|t| - 1]);
    FloatTextWhole(t);
  }

  /** A sign or a digit is not whitespace. */
  lemma NumberCharNotSpace(c: char)
    requires c == '-' || IsDigit(c)
    ensures !IsFloatSpace(c)
  {
  }

  /** Text that neither starts nor ends with whitespace is converted whole. */
  lemma FloatTextWhole(t: string)
    requires t != [] && !IsFloatSpace(t[0]) && !IsFloatSpace(t[|t| - 1])
    ensures FloatText(t) == t
  {
    assert FloatLead(t) == 0;
    assert FloatTrail(t) == 0;
    assert t[0..|t|] == t;
  }

  /** Reading back the text of a set command gives the number it was made from. */
  lemma ParseFormat(d: Decimal)
    ensures ParseFloat(Format(d)) == Some(Value(d))
  {
    FloatTextFormat(d);
    if d.negative {
      ParseNegativeFormat(d);
    } else {
      ParsePositiveFormat(d);
    }
  }

  /** The characters of a formatted decimal: digits, "-" and ".". */
  lemma FormatAlphabet(d: Decimal, c: char)
    requires c in Format(d)
    ensures IsDigit(c) || c == '-' || c == '.'
  {
    var w := NatText(d.whole);
    if d.fraction != [] {
      var f := FractionText(d.fraction);
      assert Format(d) == (if d.negative then "-" else "") + w + ("." + f);
      if c in f {
        var i :| 0 <= i < |f| && f[i] == c;
      }
    }
    if c in w {
      var i :| 0 <= i < |w| && w[i] == c;
    }
  }

  predicate NoDigit(s: string) {
    forall i :: 0 <= i < |s| ==> !IsDigit(s[i])
  }

  /** Text without a single digit is never a number; an empty line in particular is not. */
  lemma NoDigitNoNumber(s: string)
    requires NoDigit(s)
    ensures ParseFloat(s) == None
  {
    var t := FloatText(s);
    var n := FloatLead(s);
    assert forall i :: 0 <= i < |t| ==> t[i] == s[n + i];
    NoDigitSigned(t);
  }

  lemma NoDigitSigned(t: string)
    requires NoDigit(t)
    ensures ParseSigned(t) == None
  {
    if t != [] && (t[0] == '-' || t[0] == '+') {
      assert forall i :: 0 <= i < |t[1..]| ==> t[1..][i] == t[i + 1];
      NoDigitUnsigned(t[1..]);
    } else {
      NoDigitUnsigned(t);
    }
  }

  lemma NoDigitUnsigned(u: string)
    requires NoDigit(u)
    ensures ParseUnsigned(u) == None
  {
    assert DigitRun(u) == 0;
    assert u[0..] == u;
    if |u| > 1 {
      assert !IsDigit(u[1..][0]);
    }
  }

  /** `float()` refuses a number followed by an information separator such as U+001C,
      which `str.strip()` would have removed. */
  lemma SeparatorRefused()
    ensures ParseFloat("5\U{1C}") == None
  {
    var t := "5\U{1C}";
    FloatTextWhole(t);
    SeparatorNotNumber();
  }

  lemma SeparatorNotNumber()
    ensures ParseSigned("5\U{1C}") == None
  {
    var t := "5\U{1C}";
    assert DigitRun(t[1..]) == 0;
    assert DigitRun(t) == 1;
    assert t[1..] == "\U{1C}";
  }

  /** `float()` ignores a trailing space. */
  lemma TrailingSpaceIgnored()
    ensures ParseFloat("5 ") == Some(5.0)
  {
    var u := "5 ";
    assert FloatLead(u) == 0;
    assert FloatTrail(u[..1]) == 0;
    assert FloatTrail(u) == 1;
    assert FloatText(u) == "5";
    FiveIsFive();
  }

  lemma FiveIsFive()
    ensures ParseSigned("5") == Some(5.0)
  {
    assert DigitRun("5"[1..]) == 0;
    assert DigitRun("5") == 1;
    assert "5"[..1] == "5";
    assert NatOf("5") == 5;
  }
}
