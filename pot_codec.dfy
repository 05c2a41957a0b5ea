/**
 * The SPI write to a digital potentiometer (`write_pot`): the step value split into a
 * most-significant and a least-significant byte.
 */
module PotCodec {
  import opened Bits

  /** Clock rate set before every potentiometer write. */
  const POT_SPEED_HZ := 976000

  /** The 2-byte frame `[step >> 8, step & 0xFF]`. */
  function PotFrame(step: nat): (frame: seq<int>)
    ensures |frame| == 2
  {
    [ShiftRight(step, 8), And(step, 0xFF)]
  }

  /** The step a 2-byte frame encodes, most-significant byte first. */
  function FrameValue(frame: seq<int>): int
    requires |frame| == 2
  {
    frame[0] * 256 + frame[1]
  }

  /** The frame encodes the step exactly; its low byte is a byte, and so is its high byte below 0x10000. */
  lemma PotFrameRoundTrip(step: nat)
    ensures FrameValue(PotFrame(step)) == step
    ensures 0 <= PotFrame(step)[1] < 256
    ensures step < 0x10000 <==> 0 <= PotFrame(step)[0] < 256
  {
    Pow2Values();
    AndLowMask(step, 8);
  }

  /** Every step the potentiometer accepts (0..128) goes out as `[0, step]`. */
  lemma PotFrameOfStep(step: nat)
    requires step <= 128
    ensures PotFrame(step) == [0, step]
  {
    PotFrameRoundTrip(step);
  }

  /** Any two bytes are the frame of exactly one step. */
  lemma PotFrameOfValue(frame: seq<int>)
    requires |frame| == 2 && 0 <= frame[0] < 256 && 0 <= frame[1] < 256
    ensures FrameValue(frame) >= 0 && PotFrame(FrameValue(frame)) == frame
  {
    var step := FrameValue(frame);
    PotFrameRoundTrip(step);
    var f := PotFrame(step);
    assert f[0] * 256 + f[1] == frame[0] * 256 + frame[1];
    DivModUnique(step, 256, f[0], f[1]);
    DivModUnique(step, 256, frame[0], frame[1]);
  }
}
