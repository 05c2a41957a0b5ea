/** Digital lines of the Raspberry Pi and their BCM pin numbers. */
module Gpio {

  /** The level of a digital line; `GPIO.input` reads High as 1 and Low as 0. */
  datatype Level = Low | High

  /** BCM pin numbers of the controller's lines. */
  const PULSE_PIN := 12
  const CS_POT_ON := 23
  const CS_POT_AMP := 25
  const CS_ADC := 24
  const UP := 17
  const DOWN := 27
  const MUX := 22
}
