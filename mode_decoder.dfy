/**
 * The two-position mode switch: its (up, down) lines select function-generator mode,
 * standby or Pi-pulse mode, which fix the PWM duty cycle feeding the 555 timer and the
 * level of the multiplexer select line.
 */
module ModeDecoder {
  import opened Wrappers
  import opened Gpio

  datatype Mode = FunctionGen | Standby | PiPulse

  /** The text shown for a mode. */
  function Label(m: Mode): string
  {
    match m
    case FunctionGen => "FUNCTION GEN"
    case Standby => "STANDBY"
    case PiPulse => "PI PULSE"
  }

  /** What one switch branch applies: the mode, the PWM duty cycle in percent, the MUX level. */
  datatype Setting = Setting(mode: Mode, duty: int, mux: Level)

  /** A duty cycle below 100% lets the PWM pulses trigger the 555 timer; 100% keeps it idle. */
  predicate PulsesEnabled(s: Setting)
  {
    s.duty < 100
  }

  /** The MUX passes the external function generator when its select line is High. */
  predicate ExternalSource(s: Setting)
  {
    s.mux == High
  }

  /**
   * The branch of the switch test that fires for (up, down), if any. The three tests are
   * mutually exclusive; with both lines High none of them fires.
   */
  function Decode(up: Level, down: Level): (s: Option<Setting>)
    ensures s.Some? <==> !(up == High && down == High)
  {
    if up == High && down == Low then Some(Setting(FunctionGen, 99, High))
    else if up == Low && down == High then Some(Setting(Standby, 100, Low))
    else if up == Low && down == Low then Some(Setting(PiPulse, 99, Low))
    else
      assert up == High && down == High;
      None
  }

  /** The switch position that selects each mode. */
  function SwitchPosition(m: Mode): (upDown: (Level, Level))
    ensures upDown != (High, High)
  {
    match m
    case FunctionGen => (High, Low)
    case Standby => (Low, High)
    case PiPulse => (Low, Low)
  }

  /** Each mode is selected by exactly one switch position. */
  lemma DecodeSwitchPosition(up: Level, down: Level, m: Mode)
    ensures (Decode(up, down).Some? && Decode(up, down).value.mode == m) <==> (up, down) == SwitchPosition(m)
  {
  }

  /**
   * Pulses are disabled exactly in standby, and the external generator is selected
   * exactly in function-generator mode.
   */
  lemma DecodeOutputs(up: Level, down: Level)
    requires Decode(up, down).Some?
    ensures var s := Decode(up, down).value;
      (PulsesEnabled(s) <==> s.mode != Standby) &&
      (ExternalSource(s) <==> s.mode == FunctionGen) &&
      (s.duty == 99 || s.duty == 100)
  {
  }

  /** The shown label names the mode unambiguously. */
  lemma LabelInjective(m: Mode, m': Mode)
    ensures Label(m) == Label(m') <==> m == m'
  {
    if m != m' {
      assert Label(m) != Label(m') by {
        assert Label(m)[0] != Label(m')[0] || |Label(m)| != |Label(m')|;
      }
    }
  }
}
