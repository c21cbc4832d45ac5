/** The driver object for the Tenma 72-13200 electronic load. Its serial port is the
    list of lines it has written and the queue of lines the device will answer with;
    every method is proved to do exactly what one `Step` of the state machine says. */
module Tenma {
  import opened Text
  import opened Decimals
  import opened Commands
  import opened Machine

  class Tenma72_13200 {
    /** Whether the device answered the last identification query. */
    var connected: bool
    /** Every line written to the serial port, oldest first. */
    var written: seq<string>
    /** The lines the device has still to send; an empty queue times out. */
    var replies: seq<string>

    /** The state the driver is in, as the state machine sees it. */
    function Snapshot(): Link
      reads this
    {
      Link(connected, written, replies)
    }

    /** A new driver over a port whose device will answer with `replies`: not connected
        and nothing written yet. */
    constructor (replies: seq<string>)
      ensures Snapshot() == Link(false, [], replies)
    {
      connected := false;
      written := [];
      this.replies := replies;
    }

    /** `serial_connection.write`: one line goes on the wire. */
    method Write(line: string)
      modifies this
      ensures Snapshot() == Send(old(Snapshot()), line)
    {
      written := written + [line];
    }

    /** `serial_connection.readline`: the next reply, or an empty line on a timeout. */
    method ReadLine() returns (line: string)
      modifies this
      ensures line == NextReply(old(replies))
      ensures Snapshot() == old(Snapshot()).(replies := Consume(old(replies)))
    {
      if replies == [] {
        line := "";
      } else {
        line := replies[0];
        replies := replies[1..];
      }
    }

    /** Write a query and read its reply: the stripped line the query is answered with. */
    method Ask(query: string) returns (response: string)
      modifies this
      ensures response == Strip(NextReply(old(replies)))
      ensures Snapshot() == Exchange(old(Snapshot()), query)
    {
      Write(query);
      var line := ReadLine();
      response := Strip(line);
    }

    method Connect()
      modifies this
      ensures Step(old(Snapshot()), Op.Connect) == Outcome(Snapshot(), Done)
    {
      Write(IdentifyLine);
      var line := ReadLine();
      var response := Strip(line);
      if response != "" {
        connected := true;
      } else {
        connected := false;
      }
    }

    method Disconnect()
      modifies this
      ensures Step(old(Snapshot()), Op.Disconnect) == Outcome(Snapshot(), Done)
    {
      connected := false;
    }

    /** Entering a `with` block connects and hands back the driver itself. */
    method Enter() returns (me: Tenma72_13200)
      modifies this
      ensures me == this
      ensures Step(old(Snapshot()), Op.Connect) == Outcome(Snapshot(), Done)
    {
      Connect();
      me := this;
    }

    /** Leaving a `with` block disconnects, whether or not the block raised. */
    method Exit()
      modifies this
      ensures Step(old(Snapshot()), Op.Disconnect) == Outcome(Snapshot(), Done)
    {
      Disconnect();
    }

    method SetOutputState(on: bool)
      modifies this
      ensures Step(old(Snapshot()), Op.SetOutputState(on)) == Outcome(Snapshot(), Done)
    {
      if connected {
        Write(OutputLine(on));
      }
    }

    method GetOutputState() returns (on: bool)
      modifies this
      ensures Step(old(Snapshot()), Op.GetOutputState) == Outcome(Snapshot(), Flag(on))
    {
      if connected {
        var response := Ask(OutputQuery);
        on := response == "ON";
      } else {
        on := false;
      }
    }

    method Trigger()
      modifies this
      ensures Step(old(Snapshot()), Op.Trigger) == Outcome(Snapshot(), Done)
    {
      if connected {
        Write(TriggerLine);
      }
    }

    /** The shared body of the twelve `set_*` methods. */
    method SetParameter(q: Quantity, l: Limit, value: Decimal)
      modifies this
      ensures Step(old(Snapshot()), Op.SetParameter(q, l, value)) == Outcome(Snapshot(), Done)
    {
      ghost var before := Snapshot();
      if connected {
        Write(SetLine(q, l, Format(value)));
      }
      StepSetParameter(before, Op.SetParameter(q, l, value));
    }

    /** The shared body of the twelve `get_*` methods. */
    method GetParameter(q: Quantity, l: Limit) returns (value: real)
      modifies this
      ensures Step(old(Snapshot()), Op.GetParameter(q, l)) == Outcome(Snapshot(), Number(value))
    {
      ghost var before := Snapshot();
      StepGetParameter(before, Op.GetParameter(q, l));
      if connected {
        var response := Ask(QueryLine(q, l));
        match ParseFloat(ReplaceAll(response, Unit(q), "")) {
          case Some(x) => value := x;
          case None => value := 0.0;
        }
        assert Snapshot() == Exchange(before, QueryLine(q, l));
      } else {
        value := 0.0;
      }
    }

    /** `set_mode` raises ValueError, reported here as `raised`, for a mode other than
        the four it knows, but only when connected. */
    method SetMode(mode: string) returns (raised: bool)
      modifies this
      ensures Step(old(Snapshot()), Op.SetMode(mode))
        == Outcome(Snapshot(), if raised then ValueError else Done)
    {
      raised := false;
      if connected {
        if ValidMode(mode) {
          Write(ModeLine(mode));
        } else {
          raised := true;
        }
      }
    }

    method GetMode() returns (mode: string)
      modifies this
      ensures Step(old(Snapshot()), Op.GetMode) == Outcome(Snapshot(), ModeName(mode))
    {
      if connected {
        mode := Ask(ModeQuery);
      } else {
        mode := "";
      }
    }

    /** The shared body of `measure_V`, `measure_I` and `measure_P`. */
    method Measure(p: Probe) returns (value: real)
      modifies this
      ensures Step(old(Snapshot()), Op.Measure(p)) == Outcome(Snapshot(), Number(value))
    {
      ghost var before := Snapshot();
      StepMeasure(before, Op.Measure(p));
      if connected {
        var response := Ask(MeasureLine(p));
        match ParseFloat(ReplaceAll(response, Unit(Measured(p)), "")) {
          case Some(x) => value := x;
          case None => value := 0.0;
        }
        assert Snapshot() == Exchange(before, MeasureLine(p));
      } else {
        value := 0.0;
      }
    }

    method MeasureV() returns (voltage: real)
      modifies this
      ensures Step(old(Snapshot()), Op.Measure(LoadVoltage)) == Outcome(Snapshot(), Number(voltage))
    {
      voltage := Measure(LoadVoltage);
    }

    method MeasureI() returns (current: real)
      modifies this
      ensures Step(old(Snapshot()), Op.Measure(LoadCurrent)) == Outcome(Snapshot(), Number(current))
    {
      current := Measure(LoadCurrent);
    }

    method MeasureP() returns (power: real)
      modifies this
      ensures Step(old(Snapshot()), Op.Measure(LoadPower)) == Outcome(Snapshot(), Number(power))
    {
      power := Measure(LoadPower);
    }

    method SetCvV(voltage: Decimal)
      modifies this
      ensures Step(old(Snapshot()), Op.SetParameter(Voltage, Nominal, voltage)) == Outcome(Snapshot(), Done)
    {
      SetParameter(Voltage, Nominal, voltage);
    }

    method GetCvV() returns (voltage: real)
      modifies this
      ensures Step(old(Snapshot()), Op.GetParameter(Voltage, Nominal)) == Outcome(Snapshot(), Number(voltage))
    {
      voltage := GetParameter(Voltage, Nominal);
    }
    method SetCvVMin(voltage: Decimal)
      modifies this
      ensures Step(old(Snapshot()), Op.SetParameter(Voltage, Low, voltage)) == Outcome(Snapshot(), Done)
    {
      SetParameter(Voltage, Low, voltage);
    }

    method GetCvVMin() returns (voltage: real)
      modifies this
      ensures Step(old(Snapshot()), Op.GetParameter(Voltage, Low)) == Outcome(Snapshot(), Number(voltage))
    {
      voltage := GetParameter(Voltage, Low);
    }
    method SetCvVMax(voltage: Decimal)
      modifies this
      ensures Step(old(Snapshot()), Op.SetParameter(Voltage, Upp, voltage)) == Outcome(Snapshot(), Done)
    {
      SetParameter(Voltage, Upp, voltage);
    }

    method GetCvVMax() returns (voltage: real)
      modifies this
      ensures Step(old(Snapshot()), Op.GetParameter(Voltage, Upp)) == Outcome(Snapshot(), Number(voltage))
    {
      voltage := GetParameter(Voltage, Upp);
    }
    method SetCcI(current: Decimal)
      modifies this
      ensures Step(old(Snapshot()), Op.SetParameter(Current, Nominal, current)) == Outcome(Snapshot(), Done)
    {
      SetParameter(Current, Nominal, current);
    }

    method GetCcI() returns (current: real)
      modifies this
      ensures Step(old(Snapshot()), Op.GetParameter(Current, Nominal)) == Outcome(Snapshot(), Number(current))
    {
      current := GetParameter(Current, Nominal);
    }
    method SetCcIMin(current: Decimal)
      modifies this
      ensures Step(old(Snapshot()), Op.SetParameter(Current, Low, current)) == Outcome(Snapshot(), Done)
    {
      SetParameter(Current, Low, current);
    }

    method GetCcIMin() returns (current: real)
      modifies this
      ensures Step(old(Snapshot()), Op.GetParameter(Current, Low)) == Outcome(Snapshot(), Number(current))
    {
      current := GetParameter(Current, Low);
    }
    method SetCcIMax(current: Decimal)
      modifies this
      ensures Step(old(Snapshot()), Op.SetParameter(Current, Upp, current)) == Outcome(Snapshot(), Done)
    {
      SetParameter(Current, Upp, current);
    }

    method GetCcIMax() returns (current: real)
      modifies this
      ensures Step(old(Snapshot()), Op.GetParameter(Current, Upp)) == Outcome(Snapshot(), Number(current))
    {
      current := GetParameter(Current, Upp);
    }
    method SetCrR(resistance: Decimal)
      modifies this
      ensures Step(old(Snapshot()), Op.SetParameter(Resistance, Nominal, resistance)) == Outcome(Snapshot(), Done)
    {
      SetParameter(Resistance, Nominal, resistance);
    }

    method GetCrR() returns (resistance: real)
      modifies this
      ensures Step(old(Snapshot()), Op.GetParameter(Resistance, Nominal)) == Outcome(Snapshot(), Number(resistance))
    {
      resistance := GetParameter(Resistance, Nominal);
    }
    method SetCrRMin(resistance: Decimal)
      modifies this
      ensures Step(old(Snapshot()), Op.SetParameter(Resistance, Low, resistance)) == Outcome(Snapshot(), Done)
    {
      SetParameter(Resistance, Low, resistance);
    }

    method GetCrRMin() returns (resistance: real)
      modifies this
      ensures Step(old(Snapshot()), Op.GetParameter(Resistance, Low)) == Outcome(Snapshot(), Number(resistance))
    {
      resistance := GetParameter(Resistance, Low);
    }
    method SetCrRMax(resistance: Decimal)
      modifies this
      ensures Step(old(Snapshot()), Op.SetParameter(Resistance, Upp, resistance)) == Outcome(Snapshot(), Done)
    {
      SetParameter(Resistance, Upp, resistance);
    }

    method GetCrRMax() returns (resistance: real)
      modifies this
      ensures Step(old(Snapshot()), Op.GetParameter(Resistance, Upp)) == Outcome(Snapshot(), Number(resistance))
    {
      resistance := GetParameter(Resistance, Upp);
    }
    method SetCwW(power: Decimal)
      modifies this
      ensures Step(old(Snapshot()), Op.SetParameter(Power, Nominal, power)) == Outcome(Snapshot(), Done)
    {
      SetParameter(Power, Nominal, power);
    }

    method GetCwW() returns (power: real)
      modifies this
      ensures Step(old(Snapshot()), Op.GetParameter(Power, Nominal)) == Outcome(Snapshot(), Number(power))
    {
      power := GetParameter(Power, Nominal);
    }
    method SetCwWMin(power: Decimal)
      modifies this
      ensures Step(old(Snapshot()), Op.SetParameter(Power, Low, power)) == Outcome(Snapshot(), Done)
    {
      SetParameter(Power, Low, power);
    }

    method GetCwWMin() returns (power: real)
      modifies this
      ensures Step(old(Snapshot()), Op.GetParameter(Power, Low)) == Outcome(Snapshot(), Number(power))
    {
      power := GetParameter(Power, Low);
    }
    method SetCwWMax(power: Decimal)
      modifies this
      ensures Step(old(Snapshot()), Op.SetParameter(Power, Upp, power)) == Outcome(Snapshot(), Done)
    {
      SetParameter(Power, Upp, power);
    }

    method GetCwWMax() returns (power: real)
      modifies this
      ensures Step(old(Snapshot()), Op.GetParameter(Power, Upp)) == Outcome(Snapshot(), Number(power))
    {
      power := GetParameter(Power, Upp);
    }
  }
}
