/**
 * The shared SPI bus and the controller's output lines, seen through the log of what the
 * controller does to them: line writes (`GPIO.output`) and SPI transfers. Replaying the
 * log gives the line levels; a transfer reaches the one device whose chip-select line is
 * Low at that moment, and reaches no device cleanly when zero or several are Low.
 */
module Bus {
  import opened Wrappers
  import opened Gpio

  /** The output lines the controller writes. */
  datatype Line = CsAdc | CsPotOn | CsPotAmp | Mux

  /** The devices on the SPI bus. */
  datatype Device = Adc | PotOn | PotAmp

  /** The chip-select line of each device (active Low). */
  function SelectLine(d: Device): (line: Line)
    ensures line != Mux
  {
    match d
    case Adc => CsAdc
    case PotOn => CsPotOn
    case PotAmp => CsPotAmp
  }

  /**
   * The BCM pin each output line is wired to. The setup code makes all four outputs;
   * none of them is the PWM pin or one of the two switch inputs.
   */
  function Pin(line: Line): (p: nat)
    ensures p != PULSE_PIN && p != UP && p != DOWN
  {
    match line
    case CsAdc => CS_ADC
    case CsPotOn => CS_POT_ON
    case CsPotAmp => CS_POT_AMP
    case Mux => MUX
  }

  /** Different lines are different pins, so a write to one pin moves one line. */
  lemma PinInjective(a: Line, b: Line)
    ensures Pin(a) == Pin(b) <==> a == b
  {
  }

  datatype Event =
    | Output(line: Line, level: Level)
    | Transfer(speedHz: int, frame: seq<int>)

  /** Levels of all output lines. */
  datatype Lines = Lines(csAdc: Level, csPotOn: Level, csPotAmp: Level, mux: Level)

  /** Every line High, as the setup code leaves them. */
  const InitialLines := Lines(High, High, High, High)

  function LevelOf(l: Lines, line: Line): Level
  {
    match line
    case CsAdc => l.csAdc
    case CsPotOn => l.csPotOn
    case CsPotAmp => l.csPotAmp
    case Mux => l.mux
  }

  /** The lines after writing `level` to `line`. */
  function Set(l: Lines, line: Line, level: Level): (l': Lines)
    ensures LevelOf(l', line) == level
    ensures forall other :: other != line ==> LevelOf(l', other) == LevelOf(l, other)
  {
    match line
    case CsAdc => l.(csAdc := level)
    case CsPotOn => l.(csPotOn := level)
    case CsPotAmp => l.(csPotAmp := level)
    case Mux => l.(mux := level)
  }

  /** The effect of one event on the lines: only writes change them. */
  function Step(l: Lines, e: Event): Lines
  {
    if e.Output? then Set(l, e.line, e.level) else l
  }

  /** The lines after a log of events. */
  function Replay(l: Lines, log: seq<Event>): Lines
    decreases |log|
  {
    if log == [] then l else Replay(Step(l, log[0]), log[1..])
  }

  /** Exactly the chip-select line of `d` is Low. */
  predicate OnlySelected(l: Lines, d: Device)
  {
    forall e: Device :: LevelOf(l, SelectLine(e)) == Low <==> e == d
  }

  /** `OnlySelected` spelled out line by line. */
  lemma OnlySelectedLevels(l: Lines)
    ensures forall d: Device :: OnlySelected(l, d) <==>
      (l.csAdc == Low <==> d == Adc) && (l.csPotOn == Low <==> d == PotOn) && (l.csPotAmp == Low <==> d == PotAmp)
  {
    forall d: Device
      ensures OnlySelected(l, d) <==>
        (l.csAdc == Low <==> d == Adc) && (l.csPotOn == Low <==> d == PotOn) && (l.csPotAmp == Low <==> d == PotAmp)
    {
      assert LevelOf(l, SelectLine(Adc)) == l.csAdc;
      assert LevelOf(l, SelectLine(PotOn)) == l.csPotOn;
      assert LevelOf(l, SelectLine(PotAmp)) == l.csPotAmp;
    }
  }

  /** The device a transfer reaches: the only one selected, if there is one. */
  function Selected(l: Lines): (d: Option<Device>)
    ensures forall e: Device :: d == Some(e) <==> OnlySelected(l, e)
  {
    OnlySelectedLevels(l);
    if l.csAdc == Low && l.csPotOn == High && l.csPotAmp == High then Some(Adc)
    else if l.csAdc == High && l.csPotOn == Low && l.csPotAmp == High then Some(PotOn)
    else if l.csAdc == High && l.csPotOn == High && l.csPotAmp == Low then Some(PotAmp)
    else None
  }

  /** A transfer as the bus sees it: which device it reached, at what clock rate, which bytes. */
  datatype Transaction = Transaction(target: Option<Device>, speedHz: int, frame: seq<int>)

  /** The transfers of a log, each with the device selected at the moment it happened. */
  function Transactions(l: Lines, log: seq<Event>): seq<Transaction>
    decreases |log|
  {
    if log == [] then []
    else
      (if log[0].Transfer? then [Transaction(Selected(l), log[0].speedHz, log[0].frame)] else [])
      + Transactions(Step(l, log[0]), log[1..])
  }

  /** Replaying two logs one after the other is replaying their concatenation. */
  lemma {:induction false} ReplayAppend(l: Lines, a: seq<Event>, b: seq<Event>)
    ensures Replay(l, a + b) == Replay(Replay(l, a), b)
    ensures Transactions(l, a + b) == Transactions(l, a) + Transactions(Replay(l, a), b)
    decreases |a|
  {
    if a != [] {
      assert (a + b)[0] == a[0] && (a + b)[1..] == a[1..] + b;
      ReplayAppend(Step(l, a[0]), a[1..], b);
    } else {
      assert a + b == b;
    }
  }

  /** Select a device, transfer a frame, release the device. */
  function Bracketed(d: Device, speedHz: int, frame: seq<int>): seq<Event>
  {
    [Output(SelectLine(d), Low), Transfer(speedHz, frame), Output(SelectLine(d), High)]
  }

  /**
   * When every other device is released, a bracketed transfer reaches `d` alone, and
   * afterwards `d` is released again with the other lines untouched.
   */
  lemma {:induction false} BracketedReachesOnly(l: Lines, d: Device, speedHz: int, frame: seq<int>)
    requires forall e: Device :: e != d ==> LevelOf(l, SelectLine(e)) == High
    ensures Transactions(l, Bracketed(d, speedHz, frame)) == [Transaction(Some(d), speedHz, frame)]
    ensures Replay(l, Bracketed(d, speedHz, frame)) == Set(l, SelectLine(d), High)
  {
    var log := Bracketed(d, speedHz, frame);
    var l1 := Set(l, SelectLine(d), Low);
    assert OnlySelected(l1, d);
    var l3 := Set(l1, SelectLine(d), High);
    assert l3 == Set(l, SelectLine(d), High);
    var tail1, tail2 := log[1..], log[1..][1..];
    assert tail2[1..] == [];
    assert Replay(l3, []) == l3 && Transactions(l3, []) == [];
    assert Replay(l1, tail2) == l3 && Transactions(l1, tail2) == [];
    assert Replay(l1, tail1) == l3;
    assert Transactions(l1, tail1) == [Transaction(Some(d), speedHz, frame)];
  }
}
