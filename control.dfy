/**
 * One tick of the control loop (`read_and_write_labels`): read the delay, on-time and
 * amplitude knobs through the ADC, write the two potentiometers, apply the mode switch,
 * and update the values on the display. The hardware is the `Controller` object: its
 * line levels, SPI clock rate, PWM settings, display fields and the log of everything
 * it did on the lines and the bus.
 */
module Control {
  import opened Wrappers
  import opened Bits
  import opened Gpio
  import opened Bus
  import opened AdcCodec
  import opened PotCodec
  import opened UnitMapper
  import opened ModeDecoder

  /** The numbers on the display: the text "placeholder" until the first tick completes. */
  datatype Readout =
    | Placeholder
    | Shown(amplitudeVolts: real, onTimeMs: real, delaySeconds: real)

  /** Reading one ADC channel, bracketed by the ADC's chip-select. */
  function AdcRead(channel: nat): seq<Event>
    requires channel < 8
  {
    Bracketed(Adc, ADC_SPEED_HZ, ReadRequest(channel))
  }

  /** Writing a step to a potentiometer, bracketed by its chip-select. */
  function PotWrite(d: Device, step: nat): seq<Event>
  {
    Bracketed(d, POT_SPEED_HZ, PotFrame(step))
  }

  /** The MUX write of the switch branch that fires, if any. */
  function MuxWrites(up: Level, down: Level): seq<Event>
  {
    match Decode(up, down)
    case None => []
    case Some(s) => [Output(Mux, s.mux)]
  }

  /** The three ADC reads and the two potentiometer writes of a tick, in order. */
  function MeasureLog(onStep: nat, ampStep: nat): seq<Event>
  {
    AdcRead(0) + AdcRead(1) + AdcRead(2) + PotWrite(PotOn, onStep) + PotWrite(PotAmp, ampStep)
  }

  /** Everything a completed tick does on the lines and the bus, in order. */
  function TickLog(onStep: nat, ampStep: nat, up: Level, down: Level): seq<Event>
  {
    MeasureLog(onStep, ampStep) + MuxWrites(up, down)
  }

  /** The bus traffic of a completed tick: three ADC reads, then the on-time and amplitude writes. */
  function TickTransactions(onStep: nat, ampStep: nat): seq<Transaction>
  {
    [Transaction(Some(Adc), ADC_SPEED_HZ, ReadRequest(0)),
     Transaction(Some(Adc), ADC_SPEED_HZ, ReadRequest(1)),
     Transaction(Some(Adc), ADC_SPEED_HZ, ReadRequest(2)),
     Transaction(Some(PotOn), POT_SPEED_HZ, PotFrame(onStep)),
     Transaction(Some(PotAmp), POT_SPEED_HZ, PotFrame(ampStep))]
  }

  /** The complete ADC reads before `channel`. */
  function ReadsBefore(channel: nat): seq<Event>
    requires channel < 3
  {
    if channel == 0 then [] else ReadsBefore(channel - 1) + AdcRead(channel - 1)
  }

  /** The selection and request the ADC block sends before it reads the reply. */
  function AdcRequest(channel: nat): seq<Event>
    requires channel < 8
  {
    [Output(CsAdc, Low), Transfer(ADC_SPEED_HZ, ReadRequest(channel))]
  }

  /**
   * What a tick does when the reply for `channel` is too short: the indexing raises right
   * after the transfer, so the ADC is never released and nothing after it runs.
   */
  function AbortLog(channel: nat): seq<Event>
    requires channel < 3
  {
    ReadsBefore(channel) + AdcRequest(channel)
  }

  /**
   * In a completed tick each of the five transfers reaches exactly its own device, the
   * potentiometer writes come after all three ADC reads, and every chip-select is High
   * at the end, provided both potentiometers were released when the tick began.
   */
  lemma {:induction false} TickBusSafety(start: Lines, onStep: nat, ampStep: nat, up: Level, down: Level)
    requires start.csPotOn == High && start.csPotAmp == High
    ensures Transactions(start, TickLog(onStep, ampStep, up, down)) == TickTransactions(onStep, ampStep)
    ensures var end := Replay(start, TickLog(onStep, ampStep, up, down));
      end.csAdc == High && end.csPotOn == High && end.csPotAmp == High
  {
    var l1 := Set(start, CsAdc, High);
    var t := TickTransactions(onStep, ampStep);
    var adcReads := AdcRead(0) + AdcRead(1) + AdcRead(2);
    var w0 := adcReads + PotWrite(PotOn, onStep);
    var w01 := w0 + PotWrite(PotAmp, ampStep);
    ReadsReachAdc(start);
    assert Transactions(start, w01) == t && Replay(start, w01) == l1 by {
      AppendBracket(start, adcReads, l1, t[..3], PotOn, POT_SPEED_HZ, PotFrame(onStep));
      assert Set(l1, CsPotOn, High) == l1 && t[..3] + [t[3]] == t[..4];
      AppendBracket(start, w0, l1, t[..4], PotAmp, POT_SPEED_HZ, PotFrame(ampStep));
      assert Set(l1, CsPotAmp, High) == l1 && t[..4] + [t[4]] == t;
    }
    var m := MuxWrites(up, down);
    ReplayAppend(start, w01, m);
    var lEnd := Replay(l1, m);
    assert Transactions(l1, m) == [] && lEnd.csAdc == High && lEnd.csPotOn == High && lEnd.csPotAmp == High by {
      if m != [] {
        assert m[1..] == [];
        assert Step(l1, m[0]).mux == m[0].level;
      }
    }
  }

  /** The three ADC reads of a tick reach the ADC alone, and leave it released. */
  lemma ReadsReachAdc(start: Lines)
    requires start.csPotOn == High && start.csPotAmp == High
    ensures var adcReads := AdcRead(0) + AdcRead(1) + AdcRead(2);
      Transactions(start, adcReads) == TickTransactions(0, 0)[..3] &&
      Replay(start, adcReads) == Set(start, CsAdc, High)
  {
    var l1 := Set(start, CsAdc, High);
    var t := TickTransactions(0, 0);
    var r0 := AdcRead(0);
    var r01 := r0 + AdcRead(1);
    assert Transactions(start, r0) == t[..1] && Replay(start, r0) == l1 by {
      BracketedReachesOnly(start, Adc, ADC_SPEED_HZ, ReadRequest(0));
    }
    assert Transactions(start, r01) == t[..2] && Replay(start, r01) == l1 by {
      AppendBracket(start, r0, l1, t[..1], Adc, ADC_SPEED_HZ, ReadRequest(1));
      assert Set(l1, CsAdc, High) == l1 && t[..1] + [t[1]] == t[..2];
    }
    AppendBracket(start, r01, l1, t[..2], Adc, ADC_SPEED_HZ, ReadRequest(2));
    assert Set(l1, CsAdc, High) == l1 && t[..2] + [t[2]] == t[..3];
  }

  /** Appending a bracketed transfer to a log whose replay leaves every other device released. */
  lemma AppendBracket(start: Lines, prefix: seq<Event>, lp: Lines, done: seq<Transaction>,
                      d: Device, speedHz: int, frame: seq<int>)
    requires Replay(start, prefix) == lp && Transactions(start, prefix) == done
    requires forall e: Device :: e != d ==> LevelOf(lp, SelectLine(e)) == High
    ensures Replay(start, prefix + Bracketed(d, speedHz, frame)) == Set(lp, SelectLine(d), High)
    ensures Transactions(start, prefix + Bracketed(d, speedHz, frame)) == done + [Transaction(Some(d), speedHz, frame)]
  {
    ReplayAppend(start, prefix, Bracketed(d, speedHz, frame));
    BracketedReachesOnly(lp, d, speedHz, frame);
  }

  /** The complete reads before `channel` are the first `channel` transfers of a tick. */
  lemma ReadsBeforeReachAdc(start: Lines, channel: nat)
    requires start.csPotOn == High && start.csPotAmp == High && channel < 3
    ensures Transactions(start, ReadsBefore(channel)) == TickTransactions(0, 0)[..channel]
    ensures Replay(start, ReadsBefore(channel)) == if channel == 0 then start else start.(csAdc := High)
  {
    var l1 := Set(start, CsAdc, High);
    var t := TickTransactions(0, 0);
    if channel >= 1 {
      assert ReadsBefore(1) == [] + AdcRead(0);
      AppendBracket(start, [], start, [], Adc, ADC_SPEED_HZ, ReadRequest(0));
    }
    if channel == 2 {
      assert ReadsBefore(2) == AdcRead(0) + AdcRead(1);
      AppendBracket(start, AdcRead(0), l1, t[..1], Adc, ADC_SPEED_HZ, ReadRequest(1));
      assert Set(l1, CsAdc, High) == l1 && t[..1] + [t[1]] == t[..2];
    }
  }

  /** Selecting the ADC and transferring, with no release: the ADC alone is reached and stays selected. */
  lemma SelectAdcAndTransfer(l: Lines, speedHz: int, frame: seq<int>)
    requires l.csPotOn == High && l.csPotAmp == High
    ensures Replay(l, [Output(CsAdc, Low), Transfer(speedHz, frame)]) == l.(csAdc := Low)
    ensures Transactions(l, [Output(CsAdc, Low), Transfer(speedHz, frame)]) == [Transaction(Some(Adc), speedHz, frame)]
  {
    var tail: seq<Event> := [Output(CsAdc, Low), Transfer(speedHz, frame)];
    var lLow := l.(csAdc := Low);
    assert tail[1..][1..] == [];
    assert Replay(lLow, tail[1..][1..]) == lLow && Transactions(lLow, tail[1..][1..]) == [];
    assert Selected(lLow) == Some(Adc);
    assert Replay(lLow, tail[1..]) == lLow;
  }

  /**
   * An aborted tick does the first transfers of a completed one, up to the request for
   * the failing channel, and leaves the ADC selected.
   */
  lemma AbortBusState(start: Lines, channel: nat)
    requires start.csPotOn == High && start.csPotAmp == High && channel < 3
    ensures Transactions(start, AbortLog(channel)) == TickTransactions(0, 0)[..channel + 1]
    ensures var end := Replay(start, AbortLog(channel));
      end.csAdc == Low && end.csPotOn == High && end.csPotAmp == High
  {
    var before := ReadsBefore(channel);
    var tail: seq<Event> := [Output(CsAdc, Low), Transfer(ADC_SPEED_HZ, ReadRequest(channel))];
    ReadsBeforeReachAdc(start, channel);
    ReplayAppend(start, before, tail);
    SelectAdcAndTransfer(Replay(start, before), ADC_SPEED_HZ, ReadRequest(channel));
    var t := TickTransactions(0, 0);
    assert t[..channel] + [t[channel]] == t[..channel + 1];
  }

  /** The abort logs of the three channels spelled out. */
  lemma AbortLogParts(log0: seq<Event>)
    ensures log0 + AbortLog(0) == log0 + AdcRequest(0)
    ensures log0 + AdcRead(0) + AdcRequest(1) == log0 + AbortLog(1)
    ensures log0 + AdcRead(0) + AdcRead(1) + AdcRequest(2) == log0 + AbortLog(2)
  {
    assert ReadsBefore(1) == AdcRead(0);
    assert ReadsBefore(2) == AdcRead(0) + AdcRead(1);
  }

  /** A completed tick's log is its reads, its two writes and its MUX write, in order. */
  lemma TickLogParts(log0: seq<Event>, onStep: nat, ampStep: nat, up: Level, down: Level)
    ensures var full := log0 + AdcRead(0) + AdcRead(1) + AdcRead(2) + PotWrite(PotOn, onStep) +
        PotWrite(PotAmp, ampStep) + MuxWrites(up, down);
      full == log0 + TickLog(onStep, ampStep, up, down) && full[|log0|..] == TickLog(onStep, ampStep, up, down)
  {
  }

  class Controller {
    // Output lines.
    var csAdc: Level
    var csPotOn: Level
    var csPotAmp: Level
    var mux: Level
    /** `spi.max_speed_hz`. */
    var spiSpeedHz: int
    /** The PWM on the pulse pin: frequency in Hz and duty cycle in percent. */
    var pwmFrequency: real
    var pwmDuty: int
    /** The mode text on the display. */
    var stateLabel: string
    var readout: Readout
    /** Every line write and SPI transfer so far, oldest first. */
    var log: seq<Event>

    function Levels(): Lines
      reads this
    {
      Lines(csAdc, csPotOn, csPotAmp, mux)
    }

    /** The line levels are those the logged writes produce from the setup levels. */
    ghost predicate Valid()
      reads this
    {
      Levels() == Replay(InitialLines, log)
    }

    /**
     * Neither potentiometer is selected. Setup leaves them so, each write releases its
     * pot before the next step, and an aborted tick never selects one.
     */
    predicate PotsReleased()
      reads this
    {
      csPotOn == High && csPotAmp == High
    }

    /**
     * The state the setup code leaves: every chip-select and the MUX High, the PWM at
     * 100 Hz with 99% duty, the display showing placeholders. `busSpeedHz` is the SPI
     * driver's clock rate before any exchange.
     */
    constructor (busSpeedHz: int)
      ensures Valid() && log == []
      ensures Levels() == InitialLines && PotsReleased()
      ensures spiSpeedHz == busSpeedHz && pwmFrequency == 100.0 && pwmDuty == 99
      ensures stateLabel == "placeholder" && readout == Placeholder
    {
      csAdc, csPotOn, csPotAmp, mux := High, High, High, High;
      spiSpeedHz := busSpeedHz;
      pwmFrequency, pwmDuty := 100.0, 99;
      stateLabel, readout := "placeholder", Placeholder;
      log := [];
    }

    /** `GPIO.output(line, level)`. */
    method WriteLine(line: Line, level: Level)
      requires Valid()
      modifies this
      ensures Valid()
      ensures Levels() == Set(old(Levels()), line, level)
      ensures log == old(log) + [Output(line, level)]
      ensures unchanged(this`spiSpeedHz, this`pwmFrequency, this`pwmDuty, this`stateLabel, this`readout)
    {
      match line {
        case CsAdc => csAdc := level;
        case CsPotOn => csPotOn := level;
        case CsPotAmp => csPotAmp := level;
        case Mux => mux := level;
      }
      ReplayAppend(InitialLines, log, [Output(line, level)]);
      log := log + [Output(line, level)];
    }

    /**
     * `analogInput(channel)`: set the ADC clock rate, exchange the request for `channel`,
     * and extract the result from `reply`, the bytes the ADC sends back.
     */
    method AnalogInput(channel: nat, reply: seq<Byte>) returns (data: Option<nat>)
      requires Valid() && channel < 8
      modifies this
      ensures Valid()
      ensures data == Reading(reply)
      ensures spiSpeedHz == ADC_SPEED_HZ
      ensures log == old(log) + [Transfer(ADC_SPEED_HZ, ReadRequest(channel))]
      ensures unchanged(this`csAdc, this`csPotOn, this`csPotAmp, this`mux)
      ensures unchanged(this`pwmFrequency, this`pwmDuty, this`stateLabel, this`readout)
    {
      spiSpeedHz := ADC_SPEED_HZ;
      ReplayAppend(InitialLines, log, [Transfer(ADC_SPEED_HZ, ReadRequest(channel))]);
      log := log + [Transfer(ADC_SPEED_HZ, ReadRequest(channel))];
      data := Reading(reply);
    }

    /** `write_pot(step)`: set the potentiometer clock rate and send the step's frame. */
    method WritePot(step: nat)
      requires Valid()
      modifies this
      ensures Valid()
      ensures spiSpeedHz == POT_SPEED_HZ
      ensures log == old(log) + [Transfer(POT_SPEED_HZ, PotFrame(step))]
      ensures unchanged(this`csAdc, this`csPotOn, this`csPotAmp, this`mux)
      ensures unchanged(this`pwmFrequency, this`pwmDuty, this`stateLabel, this`readout)
    {
      spiSpeedHz := POT_SPEED_HZ;
      ReplayAppend(InitialLines, log, [Transfer(POT_SPEED_HZ, PotFrame(step))]);
      log := log + [Transfer(POT_SPEED_HZ, PotFrame(step))];
    }

    /**
     * One ADC block of the tick: select the ADC, read `channel`, release the ADC. When the
     * reply is too short the indexing raises before the release.
     */
    method SelectAndRead(channel: nat, reply: seq<Byte>) returns (data: Option<nat>)
      requires Valid() && channel < 8
      modifies this
      ensures Valid()
      ensures data == Reading(reply)
      ensures spiSpeedHz == ADC_SPEED_HZ
      ensures data.Some? ==> log == old(log) + AdcRead(channel) && Levels() == old(Levels()).(csAdc := High)
      ensures data.None? ==>
        log == old(log) + AdcRequest(channel) &&
        Levels() == old(Levels()).(csAdc := Low)
      ensures unchanged(this`pwmFrequency, this`pwmDuty, this`stateLabel, this`readout)
    {
      WriteLine(CsAdc, Low);
      data := AnalogInput(channel, reply);
      if data.Some? {
        WriteLine(CsAdc, High);
      }
    }

    /** One potentiometer block of the tick: select the device, write the step, release it. */
    method SelectAndWrite(d: Device, step: nat)
      requires Valid() && d != Adc
      modifies this
      ensures Valid()
      ensures spiSpeedHz == POT_SPEED_HZ
      ensures log == old(log) + PotWrite(d, step)
      ensures Levels() == Set(old(Levels()), SelectLine(d), High)
      ensures unchanged(this`pwmFrequency, this`pwmDuty, this`stateLabel, this`readout)
    {
      WriteLine(SelectLine(d), Low);
      WritePot(step);
      WriteLine(SelectLine(d), High);
    }

    /**
     * The reading part of the tick: read the delay knob and set the PWM frequency from
     * it, then read the on-time and amplitude knobs. It stops at the first reply too
     * short to hold a result, with the ADC still selected.
     */
    method ReadKnobs(reply0: seq<Byte>, reply1: seq<Byte>, reply2: seq<Byte>)
      returns (ok: bool, delay: real, onStep: nat, ampStep: nat)
      requires Valid()
      modifies this
      ensures Valid()
      ensures ok <==> |reply0| >= 3 && |reply1| >= 3 && |reply2| >= 3
      ensures ok ==>
        delay == DelayValue(Reading(reply0).value) &&
        onStep == OnTimeStep(Reading(reply1).value) && ampStep == AmpStep(Reading(reply2).value) &&
        log == old(log) + AdcRead(0) + AdcRead(1) + AdcRead(2) &&
        Levels() == old(Levels()).(csAdc := High) &&
        spiSpeedHz == ADC_SPEED_HZ && pwmFrequency == delay
      ensures !ok ==>
        var failed := if |reply0| < 3 then 0 else if |reply1| < 3 then 1 else 2;
        log == old(log) + AbortLog(failed) &&
        Levels() == old(Levels()).(csAdc := Low) &&
        spiSpeedHz == ADC_SPEED_HZ &&
        pwmFrequency == (if failed == 0 then old(pwmFrequency) else DelayValue(Reading(reply0).value))
      ensures unchanged(this`pwmDuty, this`stateLabel, this`readout)
    {
      onStep, ampStep, delay := 0, 0, 0.0;
      ghost var log0 := log;
      AbortLogParts(log0);

      // delay: channel 0 sets the PWM frequency
      var delayRaw := SelectAndRead(0, reply0);
      if delayRaw.None? {
        ok := false;
        return;
      }
      delay := DelayValue(delayRaw.value);
      pwmFrequency := delay;

      // on-time: channel 1 gives the on-time potentiometer step
      var onRaw := SelectAndRead(1, reply1);
      if onRaw.None? {
        ok := false;
        return;
      }
      onStep := OnTimeStep(onRaw.value);

      // amplitude: channel 2 gives the amplitude potentiometer step
      var ampRaw := SelectAndRead(2, reply2);
      if ampRaw.None? {
        ok := false;
        return;
      }
      ampStep := AmpStep(ampRaw.value);
      ok := true;
    }

    /** The switch half of the tick: the three mutually exclusive branches on (up, down). */
    method ApplySwitch(up: Level, down: Level)
      requires Valid()
      modifies this
      ensures Valid()
      ensures log == old(log) + MuxWrites(up, down)
      ensures match Decode(up, down)
        case Some(s) => pwmDuty == s.duty && Levels() == old(Levels()).(mux := s.mux) && stateLabel == Label(s.mode)
        case None => pwmDuty == old(pwmDuty) && Levels() == old(Levels()) && stateLabel == old(stateLabel)
      ensures unchanged(this`spiSpeedHz, this`pwmFrequency, this`readout)
    {
      if up == High && down == Low {
        pwmDuty := 99;
        WriteLine(Mux, High);
        stateLabel := "FUNCTION GEN";
      }
      if up == Low && down == High {
        pwmDuty := 100;
        WriteLine(Mux, Low);
        stateLabel := "STANDBY";
      }
      if up == Low && down == Low {
        pwmDuty := 99;
        WriteLine(Mux, Low);
        stateLabel := "PI PULSE";
      }
    }

    /**
     * `read_and_write_labels`: one pass of the control loop, given the three ADC replies
     * and the two switch levels. It completes exactly when every reply is long enough;
     * otherwise it stops at the first short reply with the ADC still selected.
     */
    method Tick(reply0: seq<Byte>, reply1: seq<Byte>, reply2: seq<Byte>, up: Level, down: Level)
      returns (ok: bool)
      requires Valid() && PotsReleased()
      modifies this
      ensures Valid() && PotsReleased()
      ensures ok <==> |reply0| >= 3 && |reply1| >= 3 && |reply2| >= 3
      ensures ok ==>
        var onStep, ampStep := OnTimeStep(Reading(reply1).value), AmpStep(Reading(reply2).value);
        log == old(log) + TickLog(onStep, ampStep, up, down) &&
        Transactions(old(Levels()), log[|old(log)|..]) == TickTransactions(onStep, ampStep) &&
        csAdc == High && csPotOn == High && csPotAmp == High &&
        spiSpeedHz == POT_SPEED_HZ &&
        pwmFrequency == DelayValue(Reading(reply0).value) &&
        readout == Shown(AmplitudeVolts(ampStep), OnTimeMs(onStep), 1.0 / DelayValue(Reading(reply0).value))
      ensures ok ==> match Decode(up, down)
        case Some(s) => pwmDuty == s.duty && mux == s.mux && stateLabel == Label(s.mode)
        case None => pwmDuty == old(pwmDuty) && mux == old(mux) && stateLabel == old(stateLabel)
      ensures !ok ==>
        var failed := if |reply0| < 3 then 0 else if |reply1| < 3 then 1 else 2;
        log == old(log) + AbortLog(failed) &&
        csAdc == Low && csPotOn == old(csPotOn) && csPotAmp == old(csPotAmp) && mux == old(mux) &&
        spiSpeedHz == ADC_SPEED_HZ &&
        pwmFrequency == (if failed == 0 then old(pwmFrequency) else DelayValue(Reading(reply0).value)) &&
        pwmDuty == old(pwmDuty) && stateLabel == old(stateLabel) && readout == old(readout)
    {
      ghost var log0, lines0 := log, Levels();
      var delay, onStep, ampStep;
      ok, delay, onStep, ampStep := ReadKnobs(reply0, reply1, reply2);
      if !ok {
        return;
      }
      SelectAndWrite(PotOn, onStep);
      SelectAndWrite(PotAmp, ampStep);
      assert Levels() == lines0.(csAdc := High);
      ApplySwitch(up, down);
      readout := Shown(AmplitudeVolts(ampStep), OnTimeMs(onStep), 1.0 / delay);
      TickLogParts(log0, onStep, ampStep, up, down);
      TickBusSafety(lines0, onStep, ampStep, up, down);
    }
  }
}
