/** The driver of the Tenma 72-13200 as a state machine over what it can observe: its
    `connected` flag, the lines it has written to the serial port and the lines the
    device has yet to answer with. Each operation of the driver is one `Step`. */
module Machine {
  import opened Text
  import opened Decimals
  import opened Commands

  datatype Link = Link(connected: bool, written: seq<string>, replies: seq<string>)

  /** The line `readline` returns: the next reply, or the empty line of a timeout when
      the device has nothing more to say. */
  function NextReply(replies: seq<string>): string {
    if replies == [] then "" else replies[0]
  }

  /** The replies left once `readline` has returned. */
  function Consume(replies: seq<string>): (rest: seq<string>)
    ensures replies != [] ==> |rest| == |replies| - 1 && replies == [replies[0]] + rest
    ensures replies == [] ==> rest == []
  {
    if replies == [] then [] else replies[1..]
  }

  /** The public operations of the driver, one per method (the twelve `set_*` and the
      twelve `get_*` methods are `SetParameter` and `GetParameter` at one table entry). */
  datatype Op =
    | Connect
    | Disconnect
    | SetOutputState(on: bool)
    | GetOutputState
    | Trigger
    | SetParameter(quantity: Quantity, limit: Limit, value: Decimal)
    | GetParameter(quantity: Quantity, limit: Limit)
    | SetMode(mode: string)
    | GetMode
    | Measure(probe: Probe)

  /** What a call hands back to its caller; `ValueError` is the exception `set_mode`
      raises for a mode it does not know. */
  datatype Answer = Done | Number(value: real) | Flag(on: bool) | ModeName(name: string) | ValueError

  datatype Outcome = Outcome(link: Link, answer: Answer)

  predicate IsConnectionOp(op: Op) {
    op.Connect? || op.Disconnect?
  }

  predicate IsQuery(op: Op) {
    op.GetOutputState? || op.GetParameter? || op.GetMode? || op.Measure?
  }

  /** The call raises when the driver is connected. */
  predicate IsBadMode(op: Op) {
    op.SetMode? && !ValidMode(op.mode)
  }

  /** What an operation answers while the driver is not connected. */
  function Default(op: Op): Answer {
    match op
    case GetOutputState => Flag(false)
    case GetParameter(_, _) => Number(0.0)
    case Measure(_) => Number(0.0)
    case GetMode => ModeName("")
    case _ => Done
  }

  /** Write one line. */
  function Send(k: Link, line: string): Link {
    k.(written := k.written + [line])
  }

  /** Write one query line and read one reply line. */
  function Exchange(k: Link, query: string): Link {
    k.(written := k.written + [query], replies := Consume(k.replies))
  }

  /** `connect`: write the identification query whatever the state, read one line, and
      be connected exactly when the stripped line is not empty. */
  function ConnectStep(k: Link): Outcome {
    var reply := Strip(NextReply(k.replies));
    Outcome(Link(reply != "", k.written + [IdentifyLine], Consume(k.replies)), Done)
  }

  /** A call that writes one line while connected and does nothing otherwise. */
  function CommandStep(k: Link, line: string): Outcome {
    Outcome(if k.connected then Send(k, line) else k, Done)
  }

  function GetOutputStateStep(k: Link): Outcome {
    if k.connected then Outcome(Exchange(k, OutputQuery), Flag(OutputIsOn(NextReply(k.replies))))
    else Outcome(k, Flag(false))
  }

  function SetParameterStep(k: Link, q: Quantity, l: Limit, v: Decimal): Outcome {
    CommandStep(k, SetLine(q, l, Format(v)))
  }

  function GetParameterStep(k: Link, q: Quantity, l: Limit): Outcome {
    if k.connected then
      Outcome(Exchange(k, QueryLine(q, l)), Number(ParseReading(NextReply(k.replies), Unit(q))))
    else Outcome(k, Number(0.0))
  }

  function SetModeStep(k: Link, m: string): Outcome {
    if !k.connected then Outcome(k, Done)
    else if ValidMode(m) then Outcome(Send(k, ModeLine(m)), Done)
    else Outcome(k, ValueError)
  }

  function GetModeStep(k: Link): Outcome {
    if k.connected then Outcome(Exchange(k, ModeQuery), ModeName(Strip(NextReply(k.replies))))
    else Outcome(k, ModeName(""))
  }

  function MeasureStep(k: Link, p: Probe): Outcome {
    if k.connected then
      Outcome(Exchange(k, MeasureLine(p)), Number(ParseReading(NextReply(k.replies), Unit(Measured(p)))))
    else Outcome(k, Number(0.0))
  }

  /** One call of a driver method. */
  function Step(k: Link, op: Op): Outcome {
    match op
    case Connect => ConnectStep(k)
    case Disconnect => Outcome(k.(connected := false), Done)
    case SetOutputState(on) => CommandStep(k, OutputLine(on))
    case GetOutputState => GetOutputStateStep(k)
    case Trigger => CommandStep(k, TriggerLine)
    case SetParameter(q, l, v) => SetParameterStep(k, q, l, v)
    case GetParameter(q, l) => GetParameterStep(k, q, l)
    case SetMode(m) => SetModeStep(k, m)
    case GetMode => GetModeStep(k)
    case Measure(p) => MeasureStep(k, p)
  }

  /** The command table read the other way round: the one line each operation other than
      connect and disconnect puts on the wire when connected. */
  function Line(op: Op): string
    requires !IsConnectionOp(op)
  {
    match op
    case SetOutputState(on) => OutputLine(on)
    case GetOutputState => OutputQuery
    case Trigger => TriggerLine
    case SetParameter(q, l, v) => SetLine(q, l, Format(v))
    case GetParameter(q, l) => QueryLine(q, l)
    case SetMode(m) => ModeLine(m)
    case GetMode => ModeQuery
    case Measure(p) => MeasureLine(p)
  }

  /** `connect` writes "*IDN?" whatever the state, reads one line and is connected
      afterwards exactly when the stripped line is not empty. */
  lemma ConnectIdentifies(k: Link)
    ensures var o := Step(k, Connect);
      && o.link.written == k.written + ["*IDN?\n"]
      && o.link.replies == Consume(k.replies)
      && (o.link.connected <==> Strip(NextReply(k.replies)) != "")
  {
  }

  /** A device that answers the identification query with any text is connected
      afterwards, and the reply is used up. */
  lemma ConnectAnswered(k: Link, idn: string, trail: string, rest: seq<string>)
    requires idn != [] && Trimmed(idn) && AllSpace(trail)
    ensures Step(k.(replies := [idn + trail] + rest), Connect).link
      == Link(true, k.written + [IdentifyLine], rest)
  {
    assert [] + idn + trail == idn + trail;
    StripPadded([], idn, trail);
    var replies := [idn + trail] + rest;
    assert NextReply(replies) == idn + trail;
    assert Consume(replies) == rest;
  }

  /** A device that times out (an empty line, or no line at all) leaves the driver
      disconnected. */
  lemma ConnectTimesOut(k: Link, trail: string, rest: seq<string>)
    requires AllSpace(trail)
    ensures !Step(k.(replies := [trail] + rest), Connect).link.connected
    ensures !Step(k.(replies := []), Connect).link.connected
  {
    assert [] + [] + trail == trail;
    StripPadded([], [], trail);
  }

  /** `disconnect` leaves the driver disconnected, performs no I/O, and doing it again
      changes nothing. */
  lemma DisconnectIdempotent(k: Link)
    ensures var d := Step(k, Disconnect).link;
      && !d.connected && d.written == k.written && d.replies == k.replies
      && Step(d, Disconnect) == Step(k, Disconnect)
  {
  }

  /** Only connect and disconnect change the `connected` flag. */
  lemma OnlyConnectionOpsChangeFlag(k: Link, op: Op)
    requires !IsConnectionOp(op)
    ensures Step(k, op).link.connected == k.connected
  {
  }

  /** While not connected, every other operation writes nothing, reads nothing and
      answers its default: 0.0, false, "" or nothing; `set_mode` does not raise then,
      whatever the mode. */
  lemma DisconnectedIsInert(k: Link, op: Op)
    requires !k.connected && !IsConnectionOp(op)
    ensures Step(k, op).link == k
    ensures Step(k, op).answer == Default(op)
    ensures Default(op) in {Done, Number(0.0), Flag(false), ModeName("")}
  {
  }

  /** While connected, every operation that does not raise writes exactly its line from
      the table, and reads exactly one reply when it is a query and none otherwise. */
  lemma ConnectedWritesItsLine(k: Link, op: Op)
    requires k.connected && !IsConnectionOp(op) && !IsBadMode(op)
    ensures Step(k, op).link.written == k.written + [Line(op)]
    ensures Step(k, op).link.replies == if IsQuery(op) then Consume(k.replies) else k.replies
    ensures Step(k, op).link.connected
  {
  }

  /** `set_mode` when connected writes ":FUNC <mode>" for the four known modes and raises
      without writing for any other; when not connected it neither writes nor raises. */
  lemma SetModeCases(k: Link, m: string)
    ensures k.connected && ValidMode(m) ==>
      Step(k, SetMode(m)) == Outcome(k.(written := k.written + [":FUNC " + m + "\n"]), Done)
    ensures k.connected && !ValidMode(m) ==> Step(k, SetMode(m)) == Outcome(k, ValueError)
    ensures !k.connected ==> Step(k, SetMode(m)) == Outcome(k, Done)
  {
  }

  /** `get_mode` hands back the stripped reply as it is, known mode or not. */
  lemma GetModeVerbatim(k: Link, bogus: string)
    requires k.connected && Trimmed(bogus)
    ensures Step(k.(replies := [bogus + "\n"]), GetMode).answer == ModeName(bogus)
  {
    assert [] + bogus + "\n" == bogus + "\n";
    StripPadded([], bogus, "\n");
  }

  /** A numeric get whose reply is a number followed by its unit returns that number. */
  lemma GetReadsValue(k: Link, q: Quantity, l: Limit, d: Decimal, rest: seq<string>)
    requires k.connected
    ensures Step(k.(replies := [Format(d) + Unit(q) + "\n"] + rest), GetParameter(q, l))
      == Outcome(k.(written := k.written + [QueryLine(q, l)], replies := rest), Number(Value(d)))
  {
    var reply := Format(d) + Unit(q) + "\n";
    var k' := k.(replies := [reply] + rest);
    assert NextReply(k'.replies) == reply;
    assert Consume(k'.replies) == rest;
    assert [] + Format(d) + Unit(q) + "\n" == reply;
    ReadingRoundTrip(d, q, [], "\n");
    StepGetParameter(k', GetParameter(q, l));
  }

  /** A measurement whose reply is a number followed by the probe's unit returns that
      number. */
  lemma MeasureReadsValue(k: Link, p: Probe, d: Decimal, rest: seq<string>)
    requires k.connected
    ensures Step(k.(replies := [Format(d) + Unit(Measured(p)) + "\n"] + rest), Measure(p))
      == Outcome(k.(written := k.written + [MeasureLine(p)], replies := rest), Number(Value(d)))
  {
    var reply := Format(d) + Unit(Measured(p)) + "\n";
    var k' := k.(replies := [reply] + rest);
    assert NextReply(k'.replies) == reply;
    assert Consume(k'.replies) == rest;
    assert [] + Format(d) + Unit(Measured(p)) + "\n" == reply;
    ReadingRoundTrip(d, Measured(p), [], "\n");
    StepMeasure(k', Measure(p));
  }

  lemma StepGetParameter(k: Link, op: Op)
    requires op.GetParameter?
    ensures Step(k, op) == GetParameterStep(k, op.quantity, op.limit)
  {
  }

  /** One call appends to the log and takes at most the first reply. */
  lemma StepExtends(k: Link, op: Op)
    ensures var o := Step(k, op).link;
      && |k.written| <= |o.written| && o.written[..|k.written|] == k.written
      && (o.replies == k.replies || o.replies == Consume(k.replies))
  {
    var o := Step(k, op).link;
    assert o.written == k.written || exists line :: o.written == k.written + [line];
  }

  /** The effect of a sequence of calls, stopping at the first that raises. */
  datatype Trace = Trace(link: Link, answers: seq<Answer>)

  function Run(k: Link, ops: seq<Op>): Trace
    decreases |ops|
  {
    if ops == [] then Trace(k, [])
    else
      var o := Step(k, ops[0]);
      if o.answer == ValueError then Trace(o.link, [ValueError])
      else
        var t := Run(o.link, ops[1..]);
        Trace(t.link, [o.answer] + t.answers)
  }

  /** A `with` block over the driver: the fresh object is disconnected and has written
      nothing, entering connects, and leaving disconnects on every path out of the
      block, also when a call in it raises. */
  function Session(replies: seq<string>, body: seq<Op>): Trace {
    var entered := Step(Link(false, [], replies), Connect).link;
    var t := Run(entered, body);
    Trace(Step(t.link, Disconnect).link, t.answers)
  }

  predicate NoConnectionOps(ops: seq<Op>) {
    forall i :: 0 <= i < |ops| ==> !IsConnectionOp(ops[i])
  }

  predicate NoConnect(ops: seq<Op>) {
    forall i :: 0 <= i < |ops| ==> !ops[i].Connect?
  }

  predicate NoBadMode(ops: seq<Op>) {
    forall i :: 0 <= i < |ops| ==> !IsBadMode(ops[i])
  }

  /** The lines a run of calls writes while connected. */
  function Lines(ops: seq<Op>): seq<string>
    requires NoConnectionOps(ops)
  {
    if ops == [] then [] else [Line(ops[0])] + Lines(ops[1..])
  }

  /** How many of the calls are queries. */
  function Queries(ops: seq<Op>): nat {
    if ops == [] then 0 else (if IsQuery(ops[0]) then 1 else 0) + Queries(ops[1..])
  }

  /** The log only grows and the reply queue only shrinks from the front. */
  lemma {:induction false} RunExtends(k: Link, ops: seq<Op>)
    ensures var t := Run(k, ops).link;
      && |k.written| <= |t.written| && t.written[..|k.written|] == k.written
      && |t.replies| <= |k.replies| && t.replies == k.replies[|k.replies| - |t.replies|..]
    decreases |ops|
  {
    if ops != [] {
      var o := Step(k, ops[0]);
      StepExtends(k, ops[0]);
      if o.answer != ValueError {
        assert ops == [ops[0]] + ops[1..];
        RunCons(k, ops[0], ops[1..]);
        RunExtends(o.link, ops[1..]);
        var t := Run(o.link, ops[1..]).link;
        assert t.written[..|k.written|] == t.written[..|o.link.written|][..|k.written|];
        assert t.replies == o.link.replies[|o.link.replies| - |t.replies|..];
        if o.link.replies != k.replies {
          assert k.replies[1..][|o.link.replies| - |t.replies|..] == k.replies[|k.replies| - |t.replies|..];
        }
      }
    }
  }

  /** A run that starts disconnected and never connects writes nothing, reads nothing,
      raises nothing, and answers every call with its default. */
  lemma {:induction false} RunDisconnected(k: Link, ops: seq<Op>)
    requires !k.connected && NoConnect(ops)
    ensures Run(k, ops).link == k
    ensures |Run(k, ops).answers| == |ops|
    ensures forall i :: 0 <= i < |ops| ==> Run(k, ops).answers[i] == Default(ops[i])
    decreases |ops|
  {
    if ops != [] {
      assert NoConnect(ops[1..]) by {
        forall i | 0 <= i < |ops[1..]| ensures !ops[1..][i].Connect? {
          assert ops[1..][i] == ops[i + 1];
        }
      }
      var o := Step(k, ops[0]);
      assert o.link == k && o.answer == Default(ops[0]);
      RunDisconnected(k, ops[1..]);
      var t := Run(k, ops[1..]);
      forall i | 0 <= i < |ops| ensures Run(k, ops).answers[i] == Default(ops[i]) {
        if i > 0 {
          assert Run(k, ops).answers[i] == t.answers[i - 1];
          assert ops[1..][i - 1] == ops[i];
        }
      }
    }
  }

  function Min(a: nat, b: nat): nat {
    if a <= b then a else b
  }

  /** A run that never connects or disconnects keeps the flag; while connected and with
      no bad mode it writes exactly the table lines of its calls, in order, answers
      every call, and consumes one reply per query, as long as replies are left (a
      query after the last reply reads the empty line of a timeout). */
  lemma {:induction false} RunConnected(k: Link, ops: seq<Op>)
    requires k.connected && NoConnectionOps(ops) && NoBadMode(ops)
    ensures Run(k, ops).link.connected
    ensures Run(k, ops).link.written == k.written + Lines(ops)
    ensures Run(k, ops).link.replies == k.replies[Min(Queries(ops), |k.replies|)..]
    ensures |Run(k, ops).answers| == |ops| && ValueError !in Run(k, ops).answers
    decreases |ops|
  {
    if ops == [] {
      assert k.replies[0..] == k.replies;
    } else {
      var rest := ops[1..];
      assert NoConnectionOps(rest) && NoBadMode(rest) by {
        forall i | 0 <= i < |rest| ensures rest[i] == ops[i + 1] { }
      }
      ConnectedWritesItsLine(k, ops[0]);
      var o := Step(k, ops[0]);
      assert o.answer != ValueError by {
        assert !IsBadMode(ops[0]);
      }
      var c := if IsQuery(ops[0]) then Min(1, |k.replies|) else 0;
      assert o.link.replies == k.replies[c..];
      assert ops == [ops[0]] + rest;
      RunCons(k, ops[0], rest);
      RunConnected(o.link, rest);
      var r := Min(Queries(rest), |o.link.replies|);
      assert k.replies[c..][r..] == k.replies[c + r..];
      assert c + r == Min(Queries(ops), |k.replies|);
      assert k.written + [Line(ops[0])] + Lines(rest) == k.written + Lines(ops);
    }
  }

  /** Within a connected run, the first bad mode raises, nothing after it is run, and
      nothing more is written for it. */
  lemma {:induction false} RunStopsAtBadMode(k: Link, pre: seq<Op>, m: string, post: seq<Op>)
    requires k.connected && NoConnectionOps(pre) && NoBadMode(pre) && !ValidMode(m)
    ensures var before := Run(k, pre);
      Run(k, pre + [SetMode(m)] + post) == Trace(before.link, before.answers + [ValueError])
    decreases |pre|
  {
    if pre == [] {
      assert pre + [SetMode(m)] + post == [SetMode(m)] + post;
    } else {
      var rest := pre[1..];
      assert NoConnectionOps(rest) && NoBadMode(rest) by {
        forall i | 0 <= i < |rest| ensures rest[i] == pre[i + 1] { }
      }
      assert (pre + [SetMode(m)] + post)[0] == pre[0];
      assert (pre + [SetMode(m)] + post)[1..] == rest + [SetMode(m)] + post;
      ConnectedWritesItsLine(k, pre[0]);
      var o := Step(k, pre[0]);
      assert o.answer != ValueError by {
        assert !IsBadMode(pre[0]);
      }
      RunStopsAtBadMode(o.link, rest, m, post);
    }
  }

  /** Every session starts by asking the device to identify itself and ends
      disconnected. */
  lemma SessionBracketed(replies: seq<string>, body: seq<Op>)
    ensures var s := Session(replies, body).link;
      !s.connected && |s.written| >= 1 && s.written[0] == IdentifyLine
  {
    var entered := ConnectStep(Link(false, [], replies)).link;
    assert entered.written == [IdentifyLine];
    RunExtends(entered, body);
    var t := Run(entered, body).link;
    assert t.written[..1] == [IdentifyLine];
    assert Session(replies, body).link == t.(connected := false);
  }

  /** A session with a device that does not answer the identification query writes
      nothing after it, and every call in the body answers its default. */
  lemma SessionUnanswered(replies: seq<string>, body: seq<Op>)
    requires Strip(NextReply(replies)) == "" && NoConnect(body)
    ensures Session(replies, body).link.written == [IdentifyLine]
    ensures !Session(replies, body).link.connected
    ensures |Session(replies, body).answers| == |body|
    ensures forall i :: 0 <= i < |body| ==> Session(replies, body).answers[i] == Default(body[i])
  {
    var entered := Step(Link(false, [], replies), Connect).link;
    RunDisconnected(entered, body);
  }

  /** End to end: a session with a device that identifies itself, setting a parameter
      and reading it back, when the device echoes the value with its unit, writes the
      three lines and returns the value that was set. */
  lemma SessionSetThenGet(idn: string, q: Quantity, l: Limit, d: Decimal)
    requires idn != [] && Trimmed(idn)
    ensures var s := Session([idn + "\n", Format(d) + Unit(q) + "\n"],
                             [SetParameter(q, l, d), GetParameter(q, l)]);
      && s.link.written == [IdentifyLine, SetLine(q, l, Format(d)), QueryLine(q, l)]
      && s.answers == [Done, Number(Value(d))]
  {
    var reply := Format(d) + Unit(q) + "\n";
    var start := Link(false, [], [idn + "\n", reply]);
    Two(idn + "\n", reply);
    assert start == Link(false, [], []).(replies := [idn + "\n"] + [reply]);
    ConnectAnswered(Link(false, [], []), idn, "\n", [reply]);
    var entered := Step(start, Connect).link;
    assert [] + [IdentifyLine] == [IdentifyLine];
    assert entered == Link(true, [IdentifyLine], [reply]);
    RunSetThenGet(entered, q, l, d, []);
    Three(IdentifyLine, SetLine(q, l, Format(d)), QueryLine(q, l));
  }

  /** While connected, setting a parameter and reading it back, when the device echoes
      the value with its unit, writes the two lines and returns the value that was set. */
  lemma RunSetThenGet(k: Link, q: Quantity, l: Limit, d: Decimal, rest: seq<string>)
    requires k.connected && k.replies == [Format(d) + Unit(q) + "\n"] + rest
    ensures Run(k, [SetParameter(q, l, d), GetParameter(q, l)])
      == Trace(k.(written := k.written + [SetLine(q, l, Format(d))] + [QueryLine(q, l)], replies := rest),
               [Done, Number(Value(d))])
  {
    var write := SetParameter(q, l, d);
    var read := GetParameter(q, l);
    StepSetParameter(k, write);
    var afterSet := Step(k, write).link;
    assert Step(k, write).answer == Done;
    assert afterSet == k.(written := k.written + [SetLine(q, l, Format(d))]);
    GetReadsValue(afterSet.(replies := rest), q, l, d, rest);
    RunSingle(afterSet, read);
    assert [write, read] == [write] + [read];
    RunCons(k, write, [read]);
  }

  /** A call that does not raise is answered, and the run goes on from its state. */
  lemma RunCons(k: Link, op: Op, rest: seq<Op>)
    requires Step(k, op).answer != ValueError
    ensures Run(k, [op] + rest)
      == (var t := Run(Step(k, op).link, rest); Trace(t.link, [Step(k, op).answer] + t.answers))
  {
    assert ([op] + rest)[0] == op;
    assert ([op] + rest)[1..] == rest;
  }

  lemma RunSingle(k: Link, op: Op)
    requires Step(k, op).answer != ValueError
    ensures Run(k, [op]) == Trace(Step(k, op).link, [Step(k, op).answer])
  {
    assert [op][1..] == [];
  }

  lemma StepSetParameter(k: Link, op: Op)
    requires op.SetParameter?
    ensures Step(k, op) == SetParameterStep(k, op.quantity, op.limit, op.value)
  {
  }

  lemma StepMeasure(k: Link, op: Op)
    requires op.Measure?
    ensures Step(k, op) == MeasureStep(k, op.probe)
  {
  }

  lemma Two<T>(a: T, b: T)
    ensures [a] + [b] == [a, b]
  {
  }

  lemma Three<T>(a: T, b: T, c: T)
    ensures [a] + [b] + [c] == [a, b, c]
  {
  }
}
