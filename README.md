# Pulse-generator controller: a Dafny model

This project models the control core of `ADC_and_DP_V2.py`. That program runs on a
Raspberry Pi and drives a 555-timer pulse generator used to stimulate cardiomyocytes.
Each pass of its loop (`read_and_write_labels`) does the following:

- It reads three knobs through a 10-bit, 8-channel SPI ADC: delay, on-time and amplitude.
- It maps the delay reading to the frequency of the PWM pin that triggers the timer.
- It maps the on-time and amplitude readings to steps (0..128) and writes them to two
  SPI digital potentiometers.
- It reads the two lines of a mode switch. From them it sets the PWM duty cycle and the
  multiplexer (MUX) select line, and names the mode on the display.
- It shows the amplitude, on-time and delay on the display.

Each SPI device has its own chip-select (CS) line, active low. The program drives that
line low before every transfer and high again after it.

Modules, one per component:

- `Bits` (bits.dfy): Python's `<<`, `>>` and `&` on non-negative integers, and the
  fact that masking with n one-bits takes the value modulo 2^n.
- `AdcCodec` (adc_codec.dfy): the 3-byte request built by `analogInput` and the 10-bit
  result it takes from the reply.
- `PotCodec` (pot_codec.dfy): the 2-byte frame built by `write_pot`.
- `UnitMapper` (unit_mapper.dfy): `numpy.interp` over `[0, 1023]`, Python's `int`
  truncation, the three knob mappings, and the on-time and amplitude formulas shown on
  the display. Reals are exact rationals.
- `ModeDecoder` (mode_decoder.dfy): the three switch branches.
- `Bus` (bus.dfy): the log of line writes and SPI transfers. Replaying the log gives the
  line levels. From the levels at the moment of each transfer, it also tells which device
  that transfer reached. A transfer reaches a device only when that device's CS line is
  the only one low.
- `Control` (control.dfy): the `Controller` class. It holds the CS and MUX levels, the
  SPI clock rate, the PWM frequency and duty cycle, the display fields and the event log.
  `Tick` is one pass of `read_and_write_labels`.

`Gpio` (gpio.dfy) holds the line levels and the BCM pin numbers. `Wrappers`
(wrappers.dfy) holds `Option`.

Behaviour of the code that the model follows:

- The step mappings truncate with `int(...)`. They do not round, and they do not clamp.
  They stay inside 0..128 anyway, because `numpy.interp` already clamps to its end
  values.
- If a reply is shorter than three bytes, the code fails at `adc[1]` or `adc[2]`. Then
  the tick stops with CS_ADC still low, and nothing after that point runs. A longer reply
  is accepted.
- If both switch lines are high, none of the three branches fires. The duty cycle, the
  MUX level and the mode label then keep their earlier values. No default mode is
  applied.
- The displayed on-time for step 0 is 4.999952 ms. Two-decimal formatting would show
  "5.00", not "4.99".

## Model

| member | source | states |
|---|---|---|
| `Bits.AndLowMask` | ADC_and_DP_V2.py:45 | `x & (2^n - 1)` equals `x mod 2^n`. This gives the meaning of the `& 3` and `& 0xFF` masks. |
| `AdcCodec.ReadRequest` | ADC_and_DP_V2.py:44 | For every channel 0..7 the request is 3 bytes. Byte 0 is 1 and byte 2 is 0. Byte 1 lies in 0x80..0xF0, has `8 + channel` in its high nibble and has a zero low nibble. |
| `AdcCodec.RequestRoundTrip` | ADC_and_DP_V2.py:44 | Decoding the request for a channel gives back that channel. |
| `AdcCodec.RequestDecodesBack` | ADC_and_DP_V2.py:44 | Every well-formed request frame is the request of the channel it decodes to. So the channel determines the frame and the frame determines the channel. |
| `AdcCodec.Reading` | ADC_and_DP_V2.py:45 | A result exists exactly when the reply has at least three bytes. A shorter reply makes the indexing fail. |
| `AdcCodec.ReadingValue` | ADC_and_DP_V2.py:45 | The result is `(reply[1] mod 4) * 256 + reply[2]` and lies in [0, 1023]. |
| `AdcCodec.ReadingDependsOnlyOnResultBits` | ADC_and_DP_V2.py:45 | Two replies give the same result if and only if they agree on the low two bits of byte 1 and on all of byte 2. |
| `AdcCodec.ReplyRoundTrip` | ADC_and_DP_V2.py:45 | Every value in [0, 1023] can be carried by a reply and is read back unchanged. |
| `PotCodec.PotFrame` | ADC_and_DP_V2.py:55-57 | A potentiometer write is always 2 bytes. |
| `PotCodec.PotFrameRoundTrip` | ADC_and_DP_V2.py:55-56 | `msb * 256 + lsb == step`. The low byte is always a byte. The high byte is a byte exactly when the step is below 0x10000. |
| `PotCodec.PotFrameOfStep` | ADC_and_DP_V2.py:55-57 | For every step in 0..128 the frame is `[0, step]`. |
| `PotCodec.PotFrameOfValue` | ADC_and_DP_V2.py:55-56 | Any two bytes are the frame of exactly one step. This is the other direction of the round trip. |
| `UnitMapper.Interp` | ADC_and_DP_V2.py:72 | `numpy.interp` with two sample points. It gives y0 at or left of x0 and y1 at or right of x1, and it always lies between y0 and y1. |
| `UnitMapper.InterpMonotone` | ADC_and_DP_V2.py:84 | A larger input never moves the interpolated value away from y1: the result is monotone in the direction from y0 to y1. |
| `UnitMapper.Trunc` | ADC_and_DP_V2.py:86 | Python's `int` on a number truncates toward zero. |
| `UnitMapper.TruncOfQuotient` | ADC_and_DP_V2.py:86 | Truncating `a / 1023` exactly is integer division by 1023. |
| `UnitMapper.DelayValue` | ADC_and_DP_V2.py:72 | The PWM frequency from the delay knob lies in [0.1, 1.0] Hz for every raw value. |
| `UnitMapper.DelayEnds` | ADC_and_DP_V2.py:72 | raw 0 gives 1.0 and raw 1023 gives 0.1. |
| `UnitMapper.DelayMonotone` | ADC_and_DP_V2.py:72 | The frequency does not increase as raw grows. |
| `UnitMapper.DelayFormula` | ADC_and_DP_V2.py:72 | On 0..1023 the frequency is `1 - 0.9 * raw / 1023`: numpy's straight line through (0, 1) and (1023, 0.1). |
| `UnitMapper.DelayPeriod` | ADC_and_DP_V2.py:149 | The delay shown, `1 / frequency` seconds, lies in [1, 10] and does not decrease as raw grows. |
| `UnitMapper.OnTimeStep` | ADC_and_DP_V2.py:84-86 | The on-time step lies in [0, 128] for every raw value. |
| `UnitMapper.OnTimeStepFormula` | ADC_and_DP_V2.py:84-86 | On 0..1023 the step is `128 * (1023 - raw) / 1023` in integer division. |
| `UnitMapper.OnTimeStepEnds` | ADC_and_DP_V2.py:84-86 | raw 0 gives 128 and raw 1023 gives 0. |
| `UnitMapper.OnTimeStepMonotone` | ADC_and_DP_V2.py:84-86 | The on-time step does not increase as raw grows. |
| `UnitMapper.AmpStep` | ADC_and_DP_V2.py:96-98 | The amplitude step lies in [0, 128] for every raw value. |
| `UnitMapper.AmpStepFormula` | ADC_and_DP_V2.py:96-98 | On 0..1023 the step is `128 * raw / 1023` in integer division. |
| `UnitMapper.AmpStepEnds` | ADC_and_DP_V2.py:96-98 | raw 0 gives 0 and raw 1023 gives 128. |
| `UnitMapper.AmpStepMonotone` | ADC_and_DP_V2.py:96-98 | The amplitude step does not decrease as raw grows. |
| `UnitMapper.OnTimeShown` | ADC_and_DP_V2.py:152 | The on-time shown, `0.25 + (128 - step) * 0.037109` ms, lies in [0.25, 4.999952]. It does not decrease as the knob's raw value grows. |
| `UnitMapper.AmplitudeShown` | ADC_and_DP_V2.py:155 | The amplitude shown, `step * 0.0391` V, lies in [0, 5.0048]. It does not decrease as raw grows. |
| `ModeDecoder.Decode` | ADC_and_DP_V2.py:114-146 | A branch fires exactly when the switch is not (1, 1). |
| `ModeDecoder.SwitchPosition` | ADC_and_DP_V2.py:114-137 | Every mode has a switch position, and that position is never (1, 1). |
| `ModeDecoder.DecodeSwitchPosition` | ADC_and_DP_V2.py:114-146 | Decoding (up, down) gives mode m if and only if (up, down) is m's position: (1,0) gives FUNCTION GEN, (0,1) gives STANDBY, (0,0) gives PI PULSE. |
| `ModeDecoder.DecodeOutputs` | ADC_and_DP_V2.py:114-146 | The duty cycle is 99 or 100. Pulses are disabled (duty 100) exactly in standby. The MUX selects the external generator (High) exactly in function-generator mode. |
| `ModeDecoder.LabelInjective` | ADC_and_DP_V2.py:120-143 | Different modes show different labels. |
| `Bus.Pin` | ADC_and_DP_V2.py:166-199 | Each output line's BCM pin: CS_ADC 24, CS_POT_ON 23, CS_POT_AMP 25, MUX 22. None of them is the PWM pin (12) or a switch input (17, 27). |
| `Bus.PinInjective` | ADC_and_DP_V2.py:166-172 | Two lines share a pin exactly when they are the same line. |
| `Bus.BracketedReachesOnly` | ADC_and_DP_V2.py:66-70 | Suppose every other device is released. Then select, transfer, release reaches exactly the selected device, and afterwards its line is High again with every other line unchanged. |
| `Control.ReadsReachAdc` | ADC_and_DP_V2.py:66-93 | Each of the three ADC reads of a tick reaches the ADC alone, and the ADC is released afterwards. |
| `Control.TickBusSafety` | ADC_and_DP_V2.py:66-107 | This assumes both potentiometers are released when a tick starts. Then the tick's five transfers each reach exactly their own device, in the order ADC ch0, ch1, ch2, on-time pot, amplitude pot, with the right frame and clock rate. All three CS lines are High at the end. |
| `Control.AbortBusState` | ADC_and_DP_V2.py:44-45 | A tick that stops on a short reply has made the first transfers of a full tick, up to the failing request, and all of them reached the ADC. It leaves the ADC selected and both potentiometers released. |
| `Control.Controller.constructor` | ADC_and_DP_V2.py:184-238 | After setup: every CS line and the MUX are High (lines 191-199), so both potentiometers are released. The PWM runs at 100 Hz with 99% duty (lines 184-185). The value labels show "placeholder" (lines 232-238). |
| `Control.Controller.WriteLine` | ADC_and_DP_V2.py:66 | `GPIO.output` sets one line, logs the write, and changes nothing else. |
| `Control.Controller.AnalogInput` | ADC_and_DP_V2.py:42-46 | Sets the ADC clock rate (1350000 Hz), logs the request for the channel, and returns the reading of the reply. The lines are unchanged. |
| `Control.Controller.WritePot` | ADC_and_DP_V2.py:53-57 | Sets the potentiometer clock rate (976000 Hz) and logs the step's 2-byte frame. The lines are unchanged. |
| `Control.Controller.SelectAndRead` | ADC_and_DP_V2.py:65-70 | One ADC block: it logs select, transfer, release. On a short reply it stops after the transfer with CS_ADC Low. |
| `Control.Controller.SelectAndWrite` | ADC_and_DP_V2.py:100-107 | One potentiometer block: it logs select, write, release, and leaves that device's line High. |
| `Control.Controller.ReadKnobs` | ADC_and_DP_V2.py:65-98 | Reads channels 0, 1 and 2 in order and sets the PWM frequency from channel 0. It returns the delay value and the two steps, or stops at the first short reply. |
| `Control.Controller.ApplySwitch` | ADC_and_DP_V2.py:109-146 | The duty cycle, the MUX and the label become those of the decoded mode. For (1, 1) they and the log are unchanged. |
| `Control.Controller.Tick` | ADC_and_DP_V2.py:63-161 | A tick starts and ends with both potentiometers released, so a sequence of ticks keeps them released. A tick completes exactly when all three replies hold a result. Then the log grows by the tick's events, and those five transfers reach ADC ch0, ch1, ch2, the on-time pot and the amplitude pot in turn, each alone. Every CS line ends High. The PWM frequency, the duty cycle, the MUX, the label and the display values are as mapped and decoded. For (1, 1) the duty cycle, MUX and label keep their old values. Otherwise the tick stops with CS_ADC Low and the log of an aborted tick. |

## Left out

- Hardware setup (ADC_and_DP_V2.py:175-199) is not modelled: `GPIO.setwarnings`, `GPIO.setmode`, `GPIO.setup`, `spidev.SpiDev().open`. The constructor keeps only the levels and PWM settings the setup leaves. `Bus.Pin` gives each output line its pin number. The event log names lines, not pins.
- The SPI transfers themselves are hardware I/O. Each transfer is an entry in the event log. The ADC's reply bytes are parameters of the tick, so the model does not say how the ADC answers a request.
- `GPIO.input` on the switch lines is hardware input. The two levels are parameters of the tick.
- Floating point is modelled over exact reals: `numpy.interp`, `pi_pwm.ChangeFrequency`, the on-time and amplitude display formulas, and `1/output_delay`. For the two step mappings this makes no difference. Away from raw 0 and 1023 the exact value `128 * k / 1023` is at least 1/1023 from an integer, and at raw 1023 `numpy.interp` returns the end value exactly.
- The `'{:.2f}'` formatting of the three display strings is not modelled. The display fields hold the exact values that would be formatted.
- The label colours (`configure(fg=...)`), the Tkinter window and its layout, and the DISPLAY environment fallback (ADC_and_DP_V2.py:202-262) are user-interface code.
- `root.after(1, ...)` rescheduling and `root.mainloop()` are event-loop timing. The model covers one tick. A tick that fails never reaches the rescheduling line, so the loop would not run again.
- `AdcCodec.ReadRequest`: defined for channels 0..7 only, the range the function documents and the only channels the tick reads (0, 1 and 2). Python accepts other integers too. Channels -8..-1 give byte 1 in 0x00..0x70, with the single-ended bit clear, which asks the ADC for a differential read. Channels from 8 up, or below -8, give a byte 1 that does not fit a byte.
- `PotCodec.PotFrame`: defined for non-negative steps only. Python's `>>` and `&` on negative integers are not modelled. Every step the tick writes lies in 0..128.
