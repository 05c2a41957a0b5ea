/**
 * The SPI exchange with the 10-bit, 8-channel ADC (`analogInput`): the 3-byte request
 * that selects a single-ended channel, and the extraction of the conversion result
 * from the 3-byte reply.
 */
module AdcCodec {
  import opened Wrappers
  import opened Bits

  /** Clock rate set before every ADC exchange. */
  const ADC_SPEED_HZ := 1350000

  /**
   * The request for `channel`: a start byte 1, then `8 + channel` (single-ended bit and
   * channel number) in the high nibble of the second byte, then a padding byte.
   */
  function ReadRequest(channel: nat): (frame: seq<Byte>)
    requires channel < 8
    ensures |frame| == 3 && frame[0] == 1 && frame[2] == 0
    ensures 0x80 <= frame[1] <= 0xF0
    ensures frame[1] / 16 == 8 + channel && frame[1] % 16 == 0
  {
    Pow2Values();
    [1, ShiftLeft(8 + channel, 4), 0]
  }

  /** The channel a request frame asks for, if it is a well-formed request. */
  function RequestedChannel(frame: seq<int>): (channel: Option<nat>)
    ensures channel.Some? ==> channel.value < 8 && |frame| == 3
  {
    if |frame| == 3 && frame[0] == 1 && frame[2] == 0 && frame[1] % 16 == 0 && 8 <= frame[1] / 16 < 16
    then Some(frame[1] / 16 - 8)
    else None
  }

  lemma RequestRoundTrip(channel: nat)
    requires channel < 8
    ensures RequestedChannel(ReadRequest(channel)) == Some(channel)
  {
  }

  lemma RequestDecodesBack(frame: seq<int>)
    requires RequestedChannel(frame).Some?
    ensures ReadRequest(RequestedChannel(frame).value) == frame
  {
  }

  /**
   * The conversion result carried by a reply: the low two bits of the second byte as
   * bits 9..8 and the third byte as bits 7..0. A reply shorter than three bytes makes
   * the indexing raise; that is `None` here.
   */
  function Reading(reply: seq<Byte>): (value: Option<nat>)
    ensures value.Some? <==> |reply| >= 3
  {
    if |reply| < 3 then None
    else Some(ShiftLeft(And(reply[1], 3), 8) + reply[2])
  }

  /** The result lies in [0, 1023] and is `(reply[1] mod 4) * 256 + reply[2]`. */
  lemma ReadingValue(reply: seq<Byte>)
    requires |reply| >= 3
    ensures Reading(reply) == Some((reply[1] as nat % 4) * 256 + reply[2] as nat)
    ensures Reading(reply).value <= 1023
  {
    Pow2Values();
    AndLowMask(reply[1], 2);
  }

  /** Two replies give the same result exactly when they agree on the low two bits of byte 1 and on byte 2. */
  lemma ReadingDependsOnlyOnResultBits(a: seq<Byte>, b: seq<Byte>)
    requires |a| >= 3 && |b| >= 3
    ensures Reading(a) == Reading(b) <==> a[1] % 4 == b[1] % 4 && a[2] == b[2]
  {
    ReadingValue(a);
    ReadingValue(b);
  }

  /** A reply that carries `value` in its result bits, the other bits zero. */
  function Reply(value: nat): (reply: seq<Byte>)
    requires value < 1024
    ensures |reply| == 3
  {
    [0, value / 256, value % 256]
  }

  /** Every value in [0, 1023] can be read, and is read back unchanged. */
  lemma ReplyRoundTrip(value: nat)
    requires value < 1024
    ensures Reading(Reply(value)) == Some(value)
  {
    ReadingValue(Reply(value));
  }
}
