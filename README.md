# Tenma 72-13200 driver, modelled in Dafny

This project models the Python driver class `tenma72_13200`, which controls a Tenma
72-13200 DC electronic load over a serial line. The driver talks to the load in a
small ASCII command language. There are four parameter families, each with a
nominal value and `:LOW`/`:UPP` limits:

- voltage `:VOLT`, unit `V`;
- current `:CURR`, unit `A`;
- resistance `:RES`, unit `OHM`;
- power `:POW`, unit `W`.

There are also the output switch `:INP`, the mode `:FUNC`, the measurements
`:MEAS:VOLT?`, `:MEAS:CURR?` and `:MEAS:POW?`, and the trigger `*TRG`.

Every driver method follows one of three patterns:

- When not connected, it does no I/O and returns a default.
- When connected, a set writes one command line.
- When connected, a get writes one query line and reads one reply line. It strips
  the reply, deletes every occurrence of the unit and converts the rest to a number.
  If that conversion fails it returns 0.0.

The files:

- `text.dfy` (module `Text`): Python's `str.strip()` over its whitespace set, with
  uniqueness of the stripped core. Also Python's left-to-right, non-overlapping
  `str.replace(old, "")`, with its behaviour on one-character and multi-character
  units.
- `decimals.dfy` (module `Decimals`): the numbers on the wire. A `Decimal` (sign,
  whole part, fraction digits) is the value a set command carries. `Format` gives
  its text and `ParseFloat` is `float()` on decimal text. The round trip
  `ParseFloat(Format(d)) == Some(Value(d))` is proved.
- `commands.dfy` (module `Commands`): the command table (prefixes, limit
  suffixes, units, set/query/measure lines) and the conversion a get applies to a
  reply (`ParseReading`, `OutputIsOn`). It proves:
  - every reply `<value><unit>` with any whitespace padding reads back as its value;
  - a reply without a digit is not a decimal number, so it reads as 0.0 (`float()`
    would accept `nan` and `inf`; see `Decimals.ParseFloat` under "## Left out");
  - the output state is on exactly for a padded `ON`;
  - set lines are pairwise distinct, and so are query lines; no set line is a query
    line, and no measurement line is either.
- `machine.dfy` (module `Machine`): the driver as a state machine. The
  observable state is a `Link`: the `connected` flag, the append-only log of
  written lines, and the queue of reply lines `readline` will return. An empty
  queue stands for a timeout, on which `readline` returns an empty line.
  - `Step` is one method call.
  - `Run` is a sequence of calls that stops at the first that raises.
  - `Session` is a `with` block: connect, run the body, then disconnect on every
    path out of the block.
  - The lemmas state the driver's promises about connecting, disconnecting,
    inert calls while disconnected, the lines written, the replies consumed and
    the values returned.
- `tenma.dfy` (module `Tenma`): the class `Tenma72_13200`.
  - Its fields are `connected`, `written` and `replies`.
  - Each public method mirrors one method of the Python class. Its postcondition is
    that the new state and its answer are `Step` of the old state.
  - `Write`, `ReadLine` and `Ask` are the serial I/O the methods share: one line
    written, one line read, or a query and its stripped reply. `SetParameter`,
    `GetParameter` and `Measure` are the bodies the twelve set, twelve get and three
    measure methods share.
  - The twelve `set_*` and twelve `get_*` methods are named after the Python ones:
    `set_CV_V_min` is `SetCvVMin`, `get_CW_W_max` is `GetCwWMax`. Each calls the
    shared `SetParameter` or `GetParameter` at its table entry.
  - The `ValueError` that `set_mode` raises is the method's `raised` result.

Behaviour of the code worth knowing, which the model keeps:

- A reply that lacks its unit (`"12.5\n"` to a voltage query) is still read as its
  number, because the unit is deleted rather than required (`ReadingWithoutUnit`).
- `set_mode` checks the mode only when connected. Its docstring promises a
  `ValueError` for any other mode. Disconnected, it neither writes nor raises,
  whatever the mode (`SetModeCases`).
- `get_mode` returns the stripped reply verbatim, without checking it against the
  four modes (`GetModeVerbatim`).
- `float()` ignores less whitespace than `strip()`: the ASCII separators
  U+001C..U+001F are not ignored around a number. A reply `5`, U+001C, `V` keeps the
  separator after `strip()` and reads as 0.0 (`SeparatorBeforeUnit`).
- `connect` writes `*IDN?` even when opening the port failed, because the error
  from `open()` is caught and printed (`ConnectIdentifies`).
- The output state is on only for the exact, case-sensitive reply `ON`, once
  whitespace is stripped (`OutputOnExactly`).

## Model

| member | source | states |
|---|---|---|
| Text.ReplaceAll | tenma/tenma72_13200.py:89 | Python's `s.replace(pat, rep)`: scanning left to right, each occurrence of `pat` that does not overlap an earlier one is replaced by `rep` |
| Text.Strip | tenma/tenma72_13200.py:38 | the stripped line is trimmed, is the slice of the reply after its leading whitespace, and only whitespace follows it |
| Text.StripPadded | tenma/tenma72_13200.py:87 | stripping any whitespace padding off a trimmed text gives exactly that text back, so the stripped core is unique |
| Text.StripIdempotent | tenma/tenma72_13200.py:87 | stripping twice is stripping once |
| Text.StripSlice | tenma/tenma72_13200.py:38 | the stripped line is the slice of the reply between its leading and trailing whitespace, and both cut-off ends are all whitespace |
| Text.ReplaceAbsent | tenma/tenma72_13200.py:89 | `replace` leaves a text in which the pattern occurs nowhere unchanged |
| Text.ReplaceAfterForeign | tenma/tenma72_13200.py:89 | a prefix that does not contain the pattern's first character passes through `replace` unchanged |
| Text.ReplaceWhole | tenma/tenma72_13200.py:89 | the pattern itself is replaced whole |
| Text.Without | tenma/tenma72_13200.py:158 | dropping a character leaves none of it and adds no character |
| Text.DeleteCharIsFilter | tenma/tenma72_13200.py:158 | deleting a one-character unit (`V`, `A`, `W`) drops exactly that character and removes every occurrence |
| Text.DeleteCharIdempotent | tenma/tenma72_13200.py:89 | deleting a one-character unit twice is deleting it once |
| Text.OhmCanReappear | tenma/tenma72_13200.py:224 | deleting `OHM` from `OOHMHM` leaves `OHM`, so a second deletion changes the text again |
| Text.DeleteOnlyRemoves | tenma/tenma72_13200.py:89 | every character left after deleting a unit was in the reply |
| Text.LeadingSpaceOf | tenma/tenma72_13200.py:87 | a whitespace prefix followed by a non-space is exactly the leading whitespace |
| Text.TrailingSpaceOf | tenma/tenma72_13200.py:87 | a whitespace suffix after a non-space is exactly the trailing whitespace |
| Decimals.Format | tenma/tenma72_13200.py:78 | the value text a set command carries: an optional `-`, the whole part without leading zeros, and `.` with the fraction digits when there are any |
| Decimals.ParseFloat | tenma/tenma72_13200.py:89 | `float()`: cut off the whitespace `float()` ignores, then accept an optional sign and a decimal with at least one digit, or refuse (`None` for `ValueError`) |
| Decimals.FloatTextEnd | tenma/tenma72_13200.py:89 | only whitespace `float()` ignores follows the text it converts, which with `FloatText`'s own contract fixes that text |
| Decimals.NatText | tenma/tenma72_13200.py:78 | the whole part's text is a non-empty run of digits |
| Decimals.NatOfText | tenma/tenma72_13200.py:78 | reading the digits of a whole number gives that number |
| Decimals.FractionOfText | tenma/tenma72_13200.py:78 | reading the fraction digits gives the fraction's value |
| Decimals.DigitRunStops | tenma/tenma72_13200.py:89 | the digit run of digits followed by a non-digit ends exactly there |
| Decimals.ParseUnsignedText | tenma/tenma72_13200.py:89 | the unsigned text of a decimal parses to its magnitude |
| Decimals.StripFormat | tenma/tenma72_13200.py:78 | the value text of a set command carries no whitespace |
| Decimals.FormatFirst | tenma/tenma72_13200.py:78 | the value text starts with a sign or a digit |
| Decimals.FormatLast | tenma/tenma72_13200.py:78 | the value text ends with a digit |
| Decimals.ParseSignedDigit | tenma/tenma72_13200.py:89 | text starting with a digit carries no sign |
| Decimals.ParseNegativeFormat | tenma/tenma72_13200.py:89 | the text of a negative decimal converts back to its value |
| Decimals.ParsePositiveFormat | tenma/tenma72_13200.py:89 | the text of a non-negative decimal converts back to its value |
| Decimals.ParseFormat | tenma/tenma72_13200.py:78-89 | `float()` on the value text of a set command gives back the value it was made from |
| Decimals.FormatAlphabet | tenma/tenma72_13200.py:78 | the value text holds only digits, `-` and `.`, so no unit letter |
| Decimals.FloatText | tenma/tenma72_13200.py:89 | the text `float()` converts starts where the whitespace it ignores ends, and neither starts nor ends with such whitespace (`FloatTextEnd` states what follows it) |
| Decimals.FloatTextFormat | tenma/tenma72_13200.py:78-89 | `float()` ignores nothing in the value text of a set command |
| Decimals.SeparatorRefused | tenma/tenma72_13200.py:89 | `float()` refuses `5` followed by U+001C |
| Decimals.SeparatorNotNumber | tenma/tenma72_13200.py:89 | `5` followed by U+001C is not a decimal number |
| Decimals.TrailingSpaceIgnored | tenma/tenma72_13200.py:89 | `float()` accepts `5` followed by a space as 5 |
| Decimals.FiveIsFive | tenma/tenma72_13200.py:89 | the text `5` is the number 5 |
| Decimals.NumberCharNotSpace | tenma/tenma72_13200.py:78-89 | a sign or a digit is not whitespace to `float()` |
| Decimals.FloatTextWhole | tenma/tenma72_13200.py:89 | text that neither starts nor ends with whitespace is converted whole |
| Decimals.NoDigitNoNumber | tenma/tenma72_13200.py:88-92 | text without a single digit (an empty timeout line in particular) is refused by the decimal grammar of `ParseFloat` (see its line under "## Left out" for `nan` and `inf`) |
| Decimals.NoDigitSigned | tenma/tenma72_13200.py:88-92 | signed text without a digit is refused |
| Decimals.NoDigitUnsigned | tenma/tenma72_13200.py:88-92 | unsigned text without a digit is refused |
| Commands.SetLine | tenma/tenma72_13200.py:78 | a set command: the family prefix with its limit suffix, a space, the value text, the unit and a newline |
| Commands.QueryLine | tenma/tenma72_13200.py:86 | a parameter query: the family prefix with its limit suffix, `?` and a newline |
| Commands.MeasureLine | tenma/tenma72_13200.py:366 | a measurement query: `:MEAS`, the family prefix of the probe, `?` and a newline |
| Commands.OutputLine | tenma/tenma72_13200.py:29 | the output switch line `:INP ON` or `:INP OFF` |
| Commands.ValidMode | tenma/tenma72_13200.py:345 | the modes `set_mode` accepts: `VOLC`, `CURR`, `RES` and `POW` |
| Commands.ModeLine | tenma/tenma72_13200.py:346 | the mode line `:FUNC <mode>` |
| Commands.ParseReading | tenma/tenma72_13200.py:87-92 | what a numeric get makes of a reply: strip it, delete the unit, convert with `float()`, and 0.0 when the conversion fails |
| Commands.OutputIsOn | tenma/tenma72_13200.py:38-39 | whether the stripped reply is exactly `ON` |
| Commands.Unit | tenma/tenma72_13200.py:78 | every unit text is non-empty, so deleting it is well defined |
| Commands.FormatTrimmed | tenma/tenma72_13200.py:78 | the value text is already stripped |
| Commands.UnitNotInFormat | tenma/tenma72_13200.py:89 | the first letter of a unit never occurs in a value text |
| Commands.ReadingRoundTrip | tenma/tenma72_13200.py:83-95 | a reply `<value><unit>` with any whitespace around it reads as exactly that value |
| Commands.ReadingWithoutUnit | tenma/tenma72_13200.py:89 | a reply that lacks its unit still reads as its number |
| Commands.SeparatorBeforeUnit | tenma/tenma72_13200.py:87-92 | a reply `5`, U+001C, `V`, line feed to a voltage query reads as 0.0 |
| Commands.StripSeparatorLine | tenma/tenma72_13200.py:87 | `strip()` removes the line feed and keeps the separator inside the line |
| Commands.DeleteUnitAfterSeparator | tenma/tenma72_13200.py:89 | deleting `V` leaves `5` and the separator |
| Commands.UnreadableReadsZero | tenma/tenma72_13200.py:88-92 | a reply without a digit, which the decimal grammar refuses, reads as 0.0 instead of raising |
| Commands.OutputOnExactly | tenma/tenma72_13200.py:34-39 | the output state is on exactly when the reply is `ON` with nothing but whitespace around it |
| Commands.OnIsPadded | tenma/tenma72_13200.py:38-39 | a reply read as on is `ON` between whitespace |
| Commands.PaddedIsOn | tenma/tenma72_13200.py:38-39 | `ON` between whitespace reads as on |
| Commands.OnReadsOn | tenma/tenma72_13200.py:38-39 | `ON` with any line terminator reads as on |
| Commands.OtherReadsOff | tenma/tenma72_13200.py:38-39 | any other trimmed word reads as off |
| Commands.OutputSamples | tenma/tenma72_13200.py:38-39 | `ON` and `ON` with CR LF read as on; `OFF`, an empty line and lower-case `on` read as off |
| Commands.OnSample | tenma/tenma72_13200.py:39 | `ON` with a newline reads as on |
| Commands.OnCrLfSample | tenma/tenma72_13200.py:39 | `ON` with CR LF reads as on |
| Commands.OffSample | tenma/tenma72_13200.py:39 | `OFF` reads as off |
| Commands.LowerOnSample | tenma/tenma72_13200.py:39 | lower-case `on` reads as off |
| Commands.HeaderLetter | tenma/tenma72_13200.py:78-340 | two families whose prefixes share their second character are the same family |
| Commands.QueryLinesDistinct | tenma/tenma72_13200.py:83-340 | two equal query lines address the same family and limit |
| Commands.SetIsNotQuery | tenma/tenma72_13200.py:75-340 | no set line equals any query line |
| Commands.MeasureIsNotParameter | tenma/tenma72_13200.py:363-403 | a measurement line equals no set line and no parameter query |
| Commands.SetLineMarks | tenma/tenma72_13200.py:75-326 | a set line shows its family letter and, after the prefix, a space for the nominal value or `:` and the limit letter |
| Commands.SetLinePath | tenma/tenma72_13200.py:75-326 | two equal set lines address the same family and limit, whatever their values |
| Commands.SetLineSameText | tenma/tenma72_13200.py:78 | two equal set lines for one entry carry the same value text |
| Commands.SameTextSameValue | tenma/tenma72_13200.py:78 | equal value texts denote equal numbers |
| Commands.SetLinesDistinct | tenma/tenma72_13200.py:75-326 | two equal set lines address the same entry and carry the same number |
| Commands.SetLineValue | tenma/tenma72_13200.py:78 | a set line is the prefix, a space, the value text, the unit and a newline, with the value text in between |
| Commands.SampleLines | tenma/tenma72_13200.py:29-213 | 12.5 is written `12.5`; the voltage set line for it is `:VOLT 12.5V`; a low resistance limit with value text `x` is `:RES:LOW xOHM`; the upper voltage query is `:VOLT:UPP?`; the current measurement is `:MEAS:CURR?`; the output switch lines are `:INP ON` and `:INP OFF` |
| Commands.SampleReadings | tenma/tenma72_13200.py:83-95 | replies 0, 0.5, -12.34 and 1000 followed by the unit read as those numbers, in every family |
| Commands.SampleZero | tenma/tenma72_13200.py:89 | the reply `0<unit>` reads as 0 |
| Commands.SampleHalf | tenma/tenma72_13200.py:89 | the reply `0.5<unit>` reads as 0.5 |
| Commands.SampleNegative | tenma/tenma72_13200.py:89 | the reply `-12.34<unit>` reads as -12.34 |
| Commands.SampleBig | tenma/tenma72_13200.py:89 | the reply `1000<unit>` reads as 1000 |
| Commands.FormatSampleNegative | tenma/tenma72_13200.py:78 | -12.34 is written `-12.34` |
| Commands.FormatSampleBig | tenma/tenma72_13200.py:78 | 1000 is written `1000` |
| Commands.SampleReading | tenma/tenma72_13200.py:89 | a reply made of a value's text and its unit reads as that value |
| Machine.NextReply | tenma/tenma72_13200.py:38 | the line `readline` returns: the next reply, or the empty line of a timeout when none is left |
| Machine.ConnectStep | tenma/tenma72_13200.py:44-58 | `connect`: write `*IDN?` whatever the state, read one line, and be connected exactly when its stripped text is not empty |
| Machine.CommandStep | tenma/tenma72_13200.py:26-32 | a command such as `set_output_state` or `trigger`: write its line when connected, and nothing otherwise |
| Machine.GetOutputStateStep | tenma/tenma72_13200.py:34-42 | `get_output_state`: when connected, write `:INP?`, read one line and answer whether it reads as on; otherwise answer false |
| Machine.SetParameterStep | tenma/tenma72_13200.py:75-81 | a `set_*` method: the command step for the set line of its entry |
| Machine.GetParameterStep | tenma/tenma72_13200.py:83-95 | a `get_*` method: when connected, write its query, read one line and answer its reading; otherwise answer 0.0 |
| Machine.SetModeStep | tenma/tenma72_13200.py:342-351 | `set_mode`: disconnected, do nothing; connected, write `:FUNC <mode>` for a known mode and raise `ValueError` for any other |
| Machine.GetModeStep | tenma/tenma72_13200.py:353-361 | `get_mode`: when connected, write `:FUNC?`, read one line and answer it stripped; otherwise answer an empty string |
| Machine.MeasureStep | tenma/tenma72_13200.py:363-403 | a `measure_*` method: when connected, write its `:MEAS` query, read one line and answer its reading in the probe's unit; otherwise answer 0.0 |
| Machine.Step | tenma/tenma72_13200.py:26-403 | one call of a driver method, dispatched to its step; `disconnect` clears the flag without I/O |
| Machine.Run | tenma/tenma72_13200.py:26-403 | a sequence of calls, each from the state the previous one left, stopping at the first that raises |
| Machine.Session | tenma/tenma72_13200.py:16-23 | a `with` block on a new driver: connect, run the body, then disconnect however the body ends |
| Machine.Consume | tenma/tenma72_13200.py:53 | `readline` takes the first reply, and on an empty queue it takes nothing |
| Machine.ConnectIdentifies | tenma/tenma72_13200.py:44-58 | `connect` always writes `*IDN?`, reads one line, and is connected afterwards exactly when the stripped line is not empty |
| Machine.ConnectAnswered | tenma/tenma72_13200.py:52-55 | a device that answers the identification query with any text leaves the driver connected, with the reply used up |
| Machine.ConnectTimesOut | tenma/tenma72_13200.py:53-58 | an empty or whitespace line, or a timeout, leaves the driver disconnected |
| Machine.DisconnectIdempotent | tenma/tenma72_13200.py:60-66 | `disconnect` clears the flag with no I/O, and doing it again changes nothing |
| Machine.OnlyConnectionOpsChangeFlag | tenma/tenma72_13200.py:26-403 | no call other than connect and disconnect changes the flag |
| Machine.DisconnectedIsInert | tenma/tenma72_13200.py:26-403 | while disconnected every other call writes nothing, reads nothing and answers its default: 0.0, false, an empty mode or nothing |
| Machine.ConnectedWritesItsLine | tenma/tenma72_13200.py:26-403 | while connected every call that does not raise writes exactly its table line, reads one reply if it is a query and none otherwise, and stays connected |
| Machine.SetModeCases | tenma/tenma72_13200.py:342-351 | connected, `set_mode` writes `:FUNC <mode>` for the four modes and raises without writing for any other; disconnected it neither writes nor raises |
| Machine.GetModeVerbatim | tenma/tenma72_13200.py:353-358 | `get_mode` returns the stripped reply as it is, known mode or not |
| Machine.GetReadsValue | tenma/tenma72_13200.py:83-95 | a numeric get whose reply is a value and its unit writes its query, consumes that reply and returns the value |
| Machine.MeasureReadsValue | tenma/tenma72_13200.py:363-403 | a connected measurement whose reply is a value and the probe's unit writes its query, consumes that reply and returns the value |
| Machine.StepGetParameter | tenma/tenma72_13200.py:83-95 | a call of a numeric get is the get step at its table entry |
| Machine.StepSetParameter | tenma/tenma72_13200.py:75-81 | a call of a set is the set step at its table entry |
| Machine.StepMeasure | tenma/tenma72_13200.py:363-403 | a call of a measurement is the measure step for its probe |
| Machine.StepExtends | tenma/tenma72_13200.py:26-403 | one call only appends to the log and takes at most the first reply |
| Machine.RunExtends | tenma/tenma72_13200.py:26-403 | any run of calls only appends to the log and only consumes replies from the front |
| Machine.RunDisconnected | tenma/tenma72_13200.py:26-403 | a run that starts disconnected and never connects does no I/O, raises nothing and answers every call with its default |
| Machine.RunConnected | tenma/tenma72_13200.py:26-403 | a connected run without connect, disconnect or a bad mode stays connected, writes exactly the table lines of its calls in order, answers every call, and consumes one reply per query until the replies run out, for any number of replies |
| Machine.RunStopsAtBadMode | tenma/tenma72_13200.py:342-351 | in a connected run, the first unknown mode raises, and nothing after it runs or is written |
| Machine.RunCons | tenma/tenma72_13200.py:26-403 | a call that does not raise is answered and the run goes on from its state |
| Machine.RunSingle | tenma/tenma72_13200.py:26-403 | a single call that does not raise is answered |
| Machine.SessionBracketed | tenma/tenma72_13200.py:16-23 | every `with` block first asks the device to identify itself and ends disconnected, also when a call in it raises |
| Machine.SessionUnanswered | tenma/tenma72_13200.py:16-58 | a `with` block over a silent device writes nothing after `*IDN?`, and every call in it answers its default |
| Machine.SessionSetThenGet | tenma/tenma72_13200.py:75-95 | in a `with` block, setting a parameter and reading it back from a device that echoes it writes `*IDN?`, the set line and the query, and returns the value set |
| Machine.RunSetThenGet | tenma/tenma72_13200.py:75-95 | while connected, a set followed by a get of the same entry returns the value set when the device echoes it |
| Tenma.Tenma72_13200.constructor | tenma/tenma72_13200.py:5-14 | a new driver is disconnected and has written nothing |
| Tenma.Tenma72_13200.Write | tenma/tenma72_13200.py:30 | a write appends one line to the log and changes nothing else |
| Tenma.Tenma72_13200.ReadLine | tenma/tenma72_13200.py:38 | `readline` returns the next reply or an empty line, and consumes at most that reply |
| Tenma.Tenma72_13200.Ask | tenma/tenma72_13200.py:37-38 | a query writes its line and returns the stripped reply |
| Tenma.Tenma72_13200.Connect | tenma/tenma72_13200.py:44-58 | the state after `connect` is the connect step of the old state |
| Tenma.Tenma72_13200.Disconnect | tenma/tenma72_13200.py:60-66 | the state after `disconnect` is the disconnect step of the old state |
| Tenma.Tenma72_13200.Enter | tenma/tenma72_13200.py:16-19 | entering a `with` block connects and returns the driver itself |
| Tenma.Tenma72_13200.Exit | tenma/tenma72_13200.py:21-23 | leaving a `with` block disconnects |
| Tenma.Tenma72_13200.SetOutputState | tenma/tenma72_13200.py:26-32 | `set_output_state` is its step: `:INP ON` or `:INP OFF` when connected, nothing otherwise |
| Tenma.Tenma72_13200.GetOutputState | tenma/tenma72_13200.py:34-42 | `get_output_state` is its step and answers whether the reply reads as on |
| Tenma.Tenma72_13200.Trigger | tenma/tenma72_13200.py:68-73 | `trigger` is its step: `*TRG` when connected, nothing otherwise |
| Tenma.Tenma72_13200.SetParameter | tenma/tenma72_13200.py:75-81 | a set writes the set line of its entry when connected, and nothing otherwise |
| Tenma.Tenma72_13200.GetParameter | tenma/tenma72_13200.py:83-95 | a numeric get is its step and returns the reading of the reply, or 0.0 when disconnected |
| Tenma.Tenma72_13200.SetCvV | tenma/tenma72_13200.py:75-81 | `set_CV_V` is the set step at `:VOLT` |
| Tenma.Tenma72_13200.GetCvV | tenma/tenma72_13200.py:83-95 | `get_CV_V` is the get step at `:VOLT` |
| Tenma.Tenma72_13200.SetCvVMin | tenma/tenma72_13200.py:98-104 | `set_CV_V_min` is the set step at `:VOLT:LOW` |
| Tenma.Tenma72_13200.GetCvVMin | tenma/tenma72_13200.py:107-119 | `get_CV_V_min` is the get step at `:VOLT:LOW` |
| Tenma.Tenma72_13200.SetCvVMax | tenma/tenma72_13200.py:122-128 | `set_CV_V_max` is the set step at `:VOLT:UPP` |
| Tenma.Tenma72_13200.GetCvVMax | tenma/tenma72_13200.py:130-142 | `get_CV_V_max` is the get step at `:VOLT:UPP` |
| Tenma.Tenma72_13200.SetCcI | tenma/tenma72_13200.py:144-150 | `set_CC_I` is the set step at `:CURR` |
| Tenma.Tenma72_13200.GetCcI | tenma/tenma72_13200.py:152-164 | `get_CC_I` is the get step at `:CURR` |
| Tenma.Tenma72_13200.SetCcIMin | tenma/tenma72_13200.py:166-172 | `set_CC_I_min` is the set step at `:CURR:LOW` |
| Tenma.Tenma72_13200.GetCcIMin | tenma/tenma72_13200.py:174-186 | `get_CC_I_min` is the get step at `:CURR:LOW` |
| Tenma.Tenma72_13200.SetCcIMax | tenma/tenma72_13200.py:188-194 | `set_CC_I_max` is the set step at `:CURR:UPP` |
| Tenma.Tenma72_13200.GetCcIMax | tenma/tenma72_13200.py:196-208 | `get_CC_I_max` is the get step at `:CURR:UPP` |
| Tenma.Tenma72_13200.SetCrR | tenma/tenma72_13200.py:210-216 | `set_CR_R` is the set step at `:RES` |
| Tenma.Tenma72_13200.GetCrR | tenma/tenma72_13200.py:218-230 | `get_CR_R` is the get step at `:RES` |
| Tenma.Tenma72_13200.SetCrRMin | tenma/tenma72_13200.py:232-238 | `set_CR_R_min` is the set step at `:RES:LOW` |
| Tenma.Tenma72_13200.GetCrRMin | tenma/tenma72_13200.py:240-252 | `get_CR_R_min` is the get step at `:RES:LOW` |
| Tenma.Tenma72_13200.SetCrRMax | tenma/tenma72_13200.py:254-260 | `set_CR_R_max` is the set step at `:RES:UPP` |
| Tenma.Tenma72_13200.GetCrRMax | tenma/tenma72_13200.py:262-274 | `get_CR_R_max` is the get step at `:RES:UPP` |
| Tenma.Tenma72_13200.SetCwW | tenma/tenma72_13200.py:276-282 | `set_CW_W` is the set step at `:POW` |
| Tenma.Tenma72_13200.GetCwW | tenma/tenma72_13200.py:284-296 | `get_CW_W` is the get step at `:POW` |
| Tenma.Tenma72_13200.SetCwWMin | tenma/tenma72_13200.py:298-304 | `set_CW_W_min` is the set step at `:POW:LOW` |
| Tenma.Tenma72_13200.GetCwWMin | tenma/tenma72_13200.py:306-318 | `get_CW_W_min` is the get step at `:POW:LOW` |
| Tenma.Tenma72_13200.SetCwWMax | tenma/tenma72_13200.py:320-326 | `set_CW_W_max` is the set step at `:POW:UPP` |
| Tenma.Tenma72_13200.GetCwWMax | tenma/tenma72_13200.py:328-340 | `get_CW_W_max` is the get step at `:POW:UPP` |
| Tenma.Tenma72_13200.SetMode | tenma/tenma72_13200.py:342-351 | `set_mode` is its step: it writes `:FUNC <mode>`, raises for an unknown mode when connected, and does neither when disconnected |
| Tenma.Tenma72_13200.GetMode | tenma/tenma72_13200.py:353-361 | `get_mode` is its step and returns the stripped reply, or an empty string when disconnected |
| Tenma.Tenma72_13200.Measure | tenma/tenma72_13200.py:363-403 | a measurement is its step and returns the reading of the reply in the probe's unit |
| Tenma.Tenma72_13200.MeasureV | tenma/tenma72_13200.py:363-375 | `measure_V` is the measure step for `:MEAS:VOLT?` |
| Tenma.Tenma72_13200.MeasureI | tenma/tenma72_13200.py:377-389 | `measure_I` is the measure step for `:MEAS:CURR?` |
| Tenma.Tenma72_13200.MeasureP | tenma/tenma72_13200.py:391-403 | `measure_P` is the measure step for `:MEAS:POW?` |

## Left out

- The serial port itself (pyserial). Construction with a port name, baud rate and
  timeout, `open()` and `close()` are not modelled. The port is only the log of
  written lines and the queue of reply lines. The constructor takes the replies
  the device will give.
- Tenma.Tenma72_13200.Connect: does not model the port being open or closed.
  The error from `open()` is swallowed, so the model logs every write. The
  constructor already opens the port, so the first `connect` (that of every `with`
  block) gets "port is already open" from `open()`, which is caught, and its
  `*IDN?` write goes through. A `connect` after `disconnect` has closed the port
  reopens it. When that `open()` fails, the real port stays closed and the `*IDN?`
  write raises pyserial's `PortNotOpenError`, which the model does not capture.
- Timeouts in seconds. A timeout is the empty line `readline` returns when the
  queue is empty.
- UTF-8 encoding and decoding. Lines are strings. A reply that is not valid UTF-8
  would raise `UnicodeDecodeError`, which is not modelled.
- `print` diagnostics. They are side-channel messages with no effect on state or
  results.
- Decimals.Format: the value of a set command is a `Decimal` written in plain
  decimal notation. Python floats and the `repr` text an f-string gives them
  (`1e-05`, `inf`, `nan`, `-0.0`) are not modelled, and neither is IEEE
  rounding.
- Decimals.ParseFloat: accepts an optional sign, digits, and an optional point with
  digits, once the whitespace `float()` ignores is cut off. Python's `float()` also
  accepts exponents, `inf`, `nan` and `infinity` (so a reply `nan` reads as nan,
  not 0.0), underscores between digits and non-ASCII digits, and rounds to a
  double. The model returns the exact real number.
- The `model` and `description` attributes. They appear only in printed messages.
- `__exit__`'s exception arguments. `__exit__` returns nothing, so an exception
  raised in the block propagates; `Session` records it as the run stopping at
  `ValueError`.
- The `else` branch of `disconnect`. The constructor always creates the serial
  object, so the branch that prints "No active connection" is unreachable and
  `disconnect` always clears the flag.
- The `__main__` demo at the end of the driver file.
- The battery-logging script. It is glue around the driver: plotting, CSV files,
  wall-clock timing and floating-point capacity integration.
