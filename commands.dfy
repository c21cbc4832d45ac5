/** The command table of the Tenma 72-13200 electronic load: the ASCII lines the driver
    writes and the conversion it applies to the lines it reads back. */
module Commands {
  import opened Text
  import opened Decimals

  /** The four parameter families. */
  datatype Quantity = Voltage | Current | Resistance | Power

  /** Each family has a nominal setting and a lower and an upper limit. */
  datatype Limit = Nominal | Low | Upp

  /** The three quantities the load measures at its terminals. */
  datatype Probe = LoadVoltage | LoadCurrent | LoadPower

  function Header(q: Quantity): string {
    match q
    case Voltage => ":VOLT"
    case Current => ":CURR"
    case Resistance => ":RES"
    case Power => ":POW"
  }

  /** The unit text written after a value and deleted from a reply. */
  function Unit(q: Quantity): (u: string)
    ensures u != []
  {
    match q
    case Voltage => "V"
    case Current => "A"
    case Resistance => "OHM"
    case Power => "W"
  }

  function LimitSuffix(l: Limit): string {
    match l
    case Nominal => ""
    case Low => ":LOW"
    case Upp => ":UPP"
  }

  function Path(q: Quantity, l: Limit): string {
    Header(q) + LimitSuffix(l)
  }

  /** A set command: the table prefix, a space, the value text, the unit and a newline. */
  function SetLine(q: Quantity, l: Limit, value: string): string {
    Path(q, l) + " " + value + Unit(q) + "\n"
  }

  /** The query for a parameter: its prefix followed by "?". */
  function QueryLine(q: Quantity, l: Limit): string {
    Path(q, l) + "?\n"
  }

  function Measured(p: Probe): Quantity {
    match p
    case LoadVoltage => Voltage
    case LoadCurrent => Current
    case LoadPower => Power
  }

  function MeasureLine(p: Probe): string {
    ":MEAS" + Header(Measured(p)) + "?\n"
  }

  const IdentifyLine: string := "*IDN?\n"
  const TriggerLine: string := "*TRG\n"
  const OutputQuery: string := ":INP?\n"
  const ModeQuery: string := ":FUNC?\n"

  function OutputLine(on: bool): string {
    ":INP " + (if on then "ON" else "OFF") + "\n"
  }

  /** The mode names `set_mode` accepts. */
  predicate ValidMode(m: string) {
    m in ["VOLC", "CURR", "RES", "POW"]
  }

  function ModeLine(m: string): string {
    ":FUNC " + m + "\n"
  }

  /** What a numeric get makes of a reply line: strip it, delete every occurrence of the
      unit, convert to a number, and fall back to 0.0 when the conversion fails. */
  function ParseReading(reply: string, unit: string): real
    requires unit != []
  {
    match ParseFloat(ReplaceAll(Strip(reply), unit, ""))
    case Some(x) => x
    case None => 0.0
  }

  /** What `get_output_state` makes of a reply line. */
  predicate OutputIsOn(reply: string) {
    Strip(reply) == "ON"
  }

  lemma FormatTrimmed(d: Decimal)
    ensures Trimmed(Format(d))
  {
    StripFormat(d);
  }

  lemma UnitNotInFormat(d: Decimal, q: Quantity)
    ensures Unit(q)[0] !in Format(d)
  {
    if Unit(q)[0] in Format(d) {
      FormatAlphabet(d, Unit(q)[0]);
    }
  }

  /** A reply holding a formatted value followed by its unit, padded with any whitespace
      (the line terminator among it), reads as that value. */
  lemma ReadingRoundTrip(d: Decimal, q: Quantity, lead: string, trail: string)
    requires AllSpace(lead) && AllSpace(trail)
    ensures ParseReading(lead + Format(d) + Unit(q) + trail, Unit(q)) == Value(d)
  {
    var f := Format(d);
    var u := Unit(q);
    FormatTrimmed(d);
    assert Trimmed(f + u) by {
      assert (f + u)[0] == f[0];
      assert (f + u)[|f + u| - 1] == u[|u| - 1];
    }
    assert lead + f + u + trail == lead + (f + u) + trail;
    StripPadded(lead, f + u, trail);
    UnitNotInFormat(d, q);
    ReplaceAfterForeign(f, u, u, "");
    ReplaceWhole(u, "");
    assert f + "" == f;
    ParseFormat(d);
  }

  /** A reply that lacks its unit reads as its number all the same: the unit is deleted,
      not required. */
  lemma ReadingWithoutUnit(d: Decimal, q: Quantity, trail: string)
    requires AllSpace(trail)
    ensures ParseReading(Format(d) + trail, Unit(q)) == Value(d)
  {
    var f := Format(d);
    var u := Unit(q);
    FormatTrimmed(d);
    assert [] + f + trail == f + trail;
    StripPadded([], f, trail);
    UnitNotInFormat(d, q);
    ReplaceAfterForeign(f, [], u, "");
    assert f + [] == f;
    ParseFormat(d);
  }

  /** A reply with an information separator between the number and its unit reads as
      0.0: `strip()` keeps the separator inside the line, and `float()` refuses it. */
  lemma SeparatorBeforeUnit()
    ensures ParseReading("5\U{1C}V\n", "V") == 0.0
  {
    StripSeparatorLine();
    DeleteUnitAfterSeparator();
    SeparatorRefused();
  }

  /** `strip()` removes the line feed and keeps the separator inside the line. */
  lemma StripSeparatorLine()
    ensures Strip("5\U{1C}V\n") == "5\U{1C}V"
  {
    var core := "5\U{1C}V";
    assert Trimmed(core);
    assert [] + core + "\n" == "5\U{1C}V\n";
    StripPadded([], core, "\n");
  }

  /** Deleting the unit leaves the number and the separator. */
  lemma DeleteUnitAfterSeparator()
    ensures ReplaceAll("5\U{1C}V", "V", "") == "5\U{1C}"
  {
    var number := "5\U{1C}";
    assert "5\U{1C}V" == number + "V";
    ReplaceAfterForeign(number, "V", "V", "");
    ReplaceWhole("V", "");
    assert number + "" == number;
  }

  /** A reply without a digit (a timeout's empty line, "ERR", "OFF") reads as 0.0. */
  lemma UnreadableReadsZero(reply: string, unit: string)
    requires unit != []
    requires forall i :: 0 <= i < |reply| ==> !IsDigit(reply[i])
    ensures ParseReading(reply, unit) == 0.0
  {
    var t := Strip(reply);
    var n := LeadingSpace(reply);
    var r := ReplaceAll(t, unit, "");
    forall i | 0 <= i < |r|
      ensures !IsDigit(r[i])
    {
      DeleteOnlyRemoves(t, unit, r[i]);
      var j :| 0 <= j < |t| && t[j] == r[i];
      assert t[j] == reply[n + j];
    }
    NoDigitNoNumber(r);
  }

  /** `reply` is `word` with nothing but whitespace before index `i` and after `j`. */
  predicate PaddedWord(reply: string, word: string, i: int, j: int) {
    0 <= i <= j <= |reply| && reply[i..j] == word && AllSpace(reply[..i]) && AllSpace(reply[j..])
  }

  /** `get_output_state` is true exactly when the reply is "ON" with nothing but
      whitespace around it; the comparison is case-sensitive. */
  lemma OutputOnExactly(reply: string)
    ensures OutputIsOn(reply) <==> exists i, j :: PaddedWord(reply, "ON", i, j)
  {
    if OutputIsOn(reply) {
      OnIsPadded(reply);
    }
    if exists i, j :: PaddedWord(reply, "ON", i, j) {
      var i, j :| PaddedWord(reply, "ON", i, j);
      PaddedIsOn(reply, i, j);
    }
  }

  lemma OnIsPadded(reply: string)
    requires OutputIsOn(reply)
    ensures PaddedWord(reply, "ON", LeadingSpace(reply), LeadingSpace(reply) + 2)
  {
    StripSlice(reply);
  }

  lemma PaddedIsOn(reply: string, i: int, j: int)
    requires PaddedWord(reply, "ON", i, j)
    ensures OutputIsOn(reply)
  {
    assert reply == reply[..i] + reply[i..j] + reply[j..];
    StripPadded(reply[..i], "ON", reply[j..]);
  }

  /** "ON" with its line terminator is on. */
  lemma OnReadsOn(trail: string)
    requires AllSpace(trail)
    ensures OutputIsOn("ON" + trail)
  {
    assert [] + "ON" + trail == "ON" + trail;
    StripPadded([], "ON", trail);
  }

  /** "OFF", "on" or any other trimmed word with its line terminator is off. */
  lemma OtherReadsOff(word: string, trail: string)
    requires AllSpace(trail) && Trimmed(word) && word != "ON"
    ensures !OutputIsOn(word + trail)
  {
    assert [] + word + trail == word + trail;
    StripPadded([], word, trail);
  }

  lemma OutputSamples()
    ensures OutputIsOn("ON\n") && OutputIsOn("ON\r\n")
    ensures !OutputIsOn("OFF\n") && !OutputIsOn("") && !OutputIsOn("on\n")
  {
    OnSample();
    OnCrLfSample();
    OffSample();
    LowerOnSample();
    assert [] + [] + [] == "";
    StripPadded([], [], []);
  }

  lemma OnSample()
    ensures OutputIsOn("ON\n")
  {
    assert "ON" + "\n" == "ON\n";
    OnReadsOn("\n");
  }

  lemma OnCrLfSample()
    ensures OutputIsOn("ON\r\n")
  {
    assert "ON" + "\r\n" == "ON\r\n";
    OnReadsOn("\r\n");
  }

  lemma OffSample()
    ensures !OutputIsOn("OFF\n")
  {
    assert "OFF" + "\n" == "OFF\n";
    OtherReadsOff("OFF", "\n");
  }

  lemma LowerOnSample()
    ensures !OutputIsOn("on\n")
  {
    assert "on" + "\n" == "on\n";
    OtherReadsOff("on", "\n");
  }

  /** The first letter of a family's prefix names the family. */
  lemma HeaderLetter(q1: Quantity, q2: Quantity)
    requires Header(q1)[1] == Header(q2)[1]
    ensures q1 == q2
  {
  }

  /** The query lines of the table are pairwise different, so a query names its
      parameter and limit. */
  lemma QueryLinesDistinct(q1: Quantity, l1: Limit, q2: Quantity, l2: Limit)
    requires QueryLine(q1, l1) == QueryLine(q2, l2)
    ensures q1 == q2 && l1 == l2
  {
    var s := QueryLine(q1, l1);
    assert s == Header(q1) + (LimitSuffix(l1) + "?\n");
    assert s == Header(q2) + (LimitSuffix(l2) + "?\n");
    assert s[1] == Header(q1)[1] && s[1] == Header(q2)[1];
    HeaderLetter(q1, q2);
    var h := |Header(q1)|;
    assert s[h] == (LimitSuffix(l1) + "?\n")[0] == (LimitSuffix(l2) + "?\n")[0];
    assert s[h + 1] == (LimitSuffix(l1) + "?\n")[1] == (LimitSuffix(l2) + "?\n")[1];
  }

  /** No set line is a query line: a set line ends with its unit, a query with "?". */
  lemma SetIsNotQuery(q1: Quantity, l1: Limit, v: string, q2: Quantity, l2: Limit)
    ensures SetLine(q1, l1, v) != QueryLine(q2, l2)
  {
    var s := SetLine(q1, l1, v);
    var u := Unit(q1);
    assert s == (Path(q1, l1) + " " + v) + u + "\n";
    assert s[|s| - 2] == u[|u| - 1];
    var t := QueryLine(q2, l2);
    assert t[|t| - 2] == '?';
  }

  /** A measurement line is neither a set line nor a parameter query: its second
      character is the "M" of ":MEAS", where theirs is the family's letter. */
  lemma MeasureIsNotParameter(p: Probe, q: Quantity, l: Limit, v: string)
    ensures MeasureLine(p) != SetLine(q, l, v)
    ensures MeasureLine(p) != QueryLine(q, l)
  {
    SetLineMarks(q, l, v);
    assert MeasureLine(p)[1] == 'M';
    assert QueryLine(q, l) == Header(q) + (LimitSuffix(l) + "?\n");
    assert QueryLine(q, l)[1] == Header(q)[1];
  }

  /** The characters of a set line that tell the table entries apart: the family's
      letter, then a space (nominal) or ":" and the limit's letter. */
  lemma SetLineMarks(q: Quantity, l: Limit, v: string)
    ensures var s, h := SetLine(q, l, v), |Header(q)|;
      h + 2 < |s| && s[1] == Header(q)[1] && s[h] == (if l == Nominal then ' ' else ':')
      && (l != Nominal ==> s[h + 1] == LimitSuffix(l)[1])
  {
    var p := Path(q, l) + " ";
    var h := |Header(q)|;
    assert SetLine(q, l, v) == ((p + v) + Unit(q)) + "\n";
    assert p[1] == Header(q)[1];
    if l == Nominal {
      assert p[h] == ' ';
    } else {
      assert p[h] == LimitSuffix(l)[0];
      assert p[h + 1] == LimitSuffix(l)[1];
    }
  }

  /** Whatever the value texts, two equal set lines address the same table entry. */
  lemma SetLinePath(q1: Quantity, l1: Limit, v1: string, q2: Quantity, l2: Limit, v2: string)
    requires SetLine(q1, l1, v1) == SetLine(q2, l2, v2)
    ensures q1 == q2 && l1 == l2
  {
    SetLineMarks(q1, l1, v1);
    SetLineMarks(q2, l2, v2);
    HeaderLetter(q1, q2);
  }

  /** Two equal set lines for one table entry carry the same value text. */
  lemma SetLineSameText(q: Quantity, l: Limit, v1: string, v2: string)
    requires SetLine(q, l, v1) == SetLine(q, l, v2)
    ensures v1 == v2
  {
    SetLineValue(q, l, v1);
    SetLineValue(q, l, v2);
  }

  lemma SameTextSameValue(d1: Decimal, d2: Decimal)
    requires Format(d1) == Format(d2)
    ensures Value(d1) == Value(d2)
  {
    ParseFormat(d1);
    ParseFormat(d2);
  }

  /** The set lines of the table are pairwise different, and two equal set lines carry
      the same number. */
  lemma SetLinesDistinct(q1: Quantity, l1: Limit, d1: Decimal, q2: Quantity, l2: Limit, d2: Decimal)
    requires SetLine(q1, l1, Format(d1)) == SetLine(q2, l2, Format(d2))
    ensures q1 == q2 && l1 == l2 && Value(d1) == Value(d2)
  {
    SetLinePath(q1, l1, Format(d1), q2, l2, Format(d2));
    SetLineSameText(q1, l1, Format(d1), Format(d2));
    SameTextSameValue(d1, d2);
  }

  /** The value text sits between the prefix with its space and the unit with its newline. */
  lemma SetLineValue(q: Quantity, l: Limit, v: string)
    ensures var s := SetLine(q, l, v);
      |s| == |Path(q, l)| + 1 + |v| + |Unit(q)| + 1 &&
      s[|Path(q, l)| + 1..|s| - |Unit(q)| - 1] == v
  {
    var s := SetLine(q, l, v);
    assert s == (Path(q, l) + " ") + v + (Unit(q) + "\n");
  }

  /** The lines the driver writes for the examples in its documentation. */
  lemma SampleLines()
    ensures Format(Decimal(false, 12, [5])) == "12.5"
    ensures SetLine(Voltage, Nominal, "12.5") == ":VOLT 12.5V\n"
    ensures SetLine(Resistance, Low, "x") == ":RES:LOW xOHM\n"
    ensures QueryLine(Voltage, Upp) == ":VOLT:UPP?\n"
    ensures MeasureLine(LoadCurrent) == ":MEAS:CURR?\n"
    ensures OutputLine(true) == ":INP ON\n" && OutputLine(false) == ":INP OFF\n"
  {
    assert NatText(12) == NatText(1) + ['2'];
  }

  /** The sample readings x in {0, 0.5, -12.34, 1000}, each answered as "<x><unit>". */
  lemma SampleReadings(q: Quantity)
    ensures ParseReading("0" + Unit(q) + "\n", Unit(q)) == 0.0
    ensures ParseReading("0.5" + Unit(q) + "\n", Unit(q)) == 0.5
    ensures ParseReading("-12.34" + Unit(q) + "\n", Unit(q)) == -12.34
    ensures ParseReading("1000" + Unit(q) + "\n", Unit(q)) == 1000.0
  {
    SampleZero(q);
    SampleHalf(q);
    SampleNegative(q);
    SampleBig(q);
  }

  lemma SampleZero(q: Quantity)
    ensures ParseReading("0" + Unit(q) + "\n", Unit(q)) == 0.0
  {
    SampleReading(Decimal(false, 0, []), "0", q);
  }

  lemma SampleHalf(q: Quantity)
    ensures ParseReading("0.5" + Unit(q) + "\n", Unit(q)) == 0.5
  {
    SampleReading(Decimal(false, 0, [5]), "0.5", q);
  }

  lemma SampleNegative(q: Quantity)
    ensures ParseReading("-12.34" + Unit(q) + "\n", Unit(q)) == -12.34
  {
    FormatSampleNegative();
    SampleReading(Decimal(true, 12, [3, 4]), "-12.34", q);
  }

  lemma SampleBig(q: Quantity)
    ensures ParseReading("1000" + Unit(q) + "\n", Unit(q)) == 1000.0
  {
    FormatSampleBig();
    SampleReading(Decimal(false, 1000, []), "1000", q);
  }

  lemma FormatSampleNegative()
    ensures Format(Decimal(true, 12, [3, 4])) == "-12.34"
    ensures Value(Decimal(true, 12, [3, 4])) == -12.34
  {
    assert NatText(12) == NatText(1) + ['2'];
  }

  lemma FormatSampleBig()
    ensures Format(Decimal(false, 1000, [])) == "1000"
  {
    assert NatText(1000) == NatText(100) + ['0'];
    assert NatText(100) == NatText(10) + ['0'];
    assert NatText(10) == NatText(1) + ['0'];
  }

  lemma SampleReading(d: Decimal, text: string, q: Quantity)
    requires Format(d) == text
    ensures ParseReading(text + Unit(q) + "\n", Unit(q)) == Value(d)
  {
    assert [] + text + Unit(q) + "\n" == text + Unit(q) + "\n";
    ReadingRoundTrip(d, q, [], "\n");
  }
}
