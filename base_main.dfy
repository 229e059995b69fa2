/**
 * The single-key console of Base/main.c. The program waits for a '1',
 * then starts a session: it resets the command fields and, frame after
 * frame, writes the five command words, reads the seven status words,
 * advances the sample-hold counter and acts on at most one key. Unlike
 * the Zynq and Vic consoles, it keeps its fields from frame to frame and
 * recomputes the inverse word from the relay word each time.
 */
module BaseMain {
  import opened Wrappers
  import opened UutFrame
  import opened UutStatus
  import ZynqCli
  import ZynqBramCmd

  /** Command-type codes of this console. */
  const ChangeRequest: u32 := 0x1
  const DataUpdate: u32 := 0x2
  const CPLDRev: u32 := 0x0
  /** The module id this console sends. */
  const ModIdCode: u32 := 0x3
  /** Threshold codes. */
  const Threshold17V: u32 := 0x3
  const Threshold33V: u32 := 0x2
  const Threshold84V: u32 := 0x1
  const Threshold166V: u32 := 0x0
  /** Dry/Wet and Synch codes. */
  const Dry: u32 := 0x1
  const Wet: u32 := 0x0
  const Synch: u32 := 0x1
  const NoSynch: u32 := 0x0

  /** The fields every session starts from: DataUpdate, Mod_Id, 166 V, Wet, NoSynch, relays off. */
  const SessionFields := CommandBlocks(DataUpdate, ModIdCode, Threshold166V, Wet, NoSynch, 0, 0, 0, 0, 0)

  /** Key '2': 17 V -> 33 V -> 84 V -> 166 V -> 17 V; any other value stays. */
  function NextThreshold(t: u32): (n: u32)
    ensures t == Threshold17V ==> n == Threshold33V
    ensures t == Threshold33V ==> n == Threshold84V
    ensures t == Threshold84V ==> n == Threshold166V
    ensures t == Threshold166V ==> n == Threshold17V
    ensures t >= 4 ==> n == t
  {
    if t == Threshold17V then Threshold33V
    else if t == Threshold33V then Threshold84V
    else if t == Threshold84V then Threshold166V
    else if t == Threshold166V then Threshold17V
    else t
  }

  /** The switch on the received key, as it changes the command fields. */
  function KeyFields(c: char, f: CommandBlocks): CommandBlocks
  {
    match c
    case '2' => f.(commandType := ChangeRequest, threshold := NextThreshold(f.threshold))
    case '3' => f.(commandType := ChangeRequest, dryWet := if f.dryWet == Wet then Dry else Wet)
    case '4' => f.(commandType := ChangeRequest, synchr := if f.synchr == NoSynch then Synch else NoSynch)
    case '5' => f.(commandType := DataUpdate)
    case '6' => f.(commandType := ChangeRequest)
    case '8' => f.(commandType := CPLDRev)
    case 'a' => f.(commandType := ChangeRequest, relayAA := FlipBit(f.relayAA, 1))
    case 's' => f.(commandType := ChangeRequest, relayAB := FlipBit(f.relayAB, 2))
    case 'd' => f.(commandType := ChangeRequest, relayCA := FlipBit(f.relayCA, 4))
    case 'f' => f.(commandType := ChangeRequest, relayCB := FlipBit(f.relayCB, 8))
    case 'g' => f.(commandType := ChangeRequest, relayCC := FlipBit(f.relayCC, 16))
    case 'z' => f.(relayAA := 0, relayAB := 0, relayCA := 0, relayCB := 0, relayCC := 0)
    case 'x' => f.(relayAA := 1, relayAB := 2, relayCA := 4, relayCB := 8, relayCC := 16)
    case _ => f
  }

  /** Key '7': the reset output goes 1 -> 0 and 0 -> 1. */
  function ToggleReset(r: u32): (n: u32)
    ensures r == 0 ==> n == 1
    ensures r == 1 ==> n == 0
  {
    if r == 1 then 0 else if r == 0 then 1 else r
  }

  /** The command word key '8' writes: the packed fields without the counter. */
  function CpldWord(t: CommandBlocks): bv32
  {
    FieldBits(Word(t.commandType), Word(t.modId), Word(t.threshold), Word(t.dryWet), Word(t.synchr))
  }

  /**
   * The hardware events of a key: '7' writes the new reset level; '8'
   * pulses reset and writes the CPLD command word at offset 0 (the header
   * slot); no other key reaches the hardware.
   */
  function KeyEvents(c: char, f: CommandBlocks, newReset: u32): seq<Event>
  {
    if c == '7' then [GpioWrite(Word(newReset))]
    else if c == '8' then [GpioWrite(0), GpioWrite(1), BramWrite(0x00, CpldWord(KeyFields('8', f)))]
    else []
  }

  /** What one frame reports: every group, and the CPLD pair as last read. */
  function BaseStatus(region: seq<bv32>, cpld: (bv32, bv32)): Status
    requires |region| == 7
  {
    var d2, d3, d4 := Mask16(region[1]), Mask16(region[2]), Mask16(region[3]);
    Status(
      frameError := FrameError(d2), commandError := CommandError(d2),
      threshold := Some(ThresholdOf(d2)), dry := Some(DryOf(d2)), sync := Some(SyncOf(d2)),
      railOff := Some(RailOff(d2)), coilError := Some(CoilError(d2)),
      relays := Some(RelaysOf(d3)), inputs := Some(InputsOf(d4)), cpld := Some(cpld))
  }

  /** The position of the first '1' in s, or |s| when there is none. */
  function FirstOne(s: seq<char>): (r: nat)
    ensures r <= |s|
    ensures r < |s| ==> s[r] == '1'
    ensures forall j :: 0 <= j < r ==> s[j] != '1'
  {
    if s == [] then 0 else if s[0] == '1' then 0 else 1 + FirstOne(s[1..])
  }

  /** The state main keeps in its locals. */
  class Console {
    /** CommandType, ModId, Threshold, DryWet, Synchronization and the five relays. */
    var fields: CommandBlocks
    var command3: bv32
    var command4: bv32
    var shNum: nat
    var reset: u32
    var cpld1: bv32
    var cpld2: bv32
    var pass: bool
    /** Every GPIO and BRAM write, in order. */
    var trace: seq<Event>

    /**
     * The fields keep their widths, the relay word keeps its high byte
     * 0x40 with the inverse word its complement, and reset is 0 or 1.
     */
    ghost predicate Valid()
      reads this
    {
      && InRange(fields) && shNum <= ShWrap
      && command3 >> 8 == 0x40 && command3 < 0x1_0000 && command4 == Complement16(command3)
      && (reset == 0 || reset == 1)
    }

    /**
     * The set-up before the outer loop: the command fields, reset driven
     * to 1, and the CPLD readings cleared. The counter, the relays and
     * command words 3 and 4 are not set by main until a session starts;
     * here they hold the values a session start gives them.
     */
    constructor ()
      ensures Valid() && !pass
      ensures fields == SessionFields && reset == 1 && cpld1 == 0 && cpld2 == 0
      ensures trace == [GpioWrite(1)]
    {
      fields := SessionFields;
      command3 := RelayBase;
      command4 := Complement16(RelayBase);
      shNum := 0;
      reset := 1;
      trace := [GpioWrite(1)];
      cpld1, cpld2 := 0, 0;
      pass := false;
    }

    /** The start of a session: command words 3 and 4, the counter, the fields and the relays reset. */
    method StartSession()
      requires Valid()
      modifies this
      ensures Valid()
      ensures fields == SessionFields && command3 == RelayBase && command4 == 0xBFFF && shNum == 0
      ensures reset == old(reset) && cpld1 == old(cpld1) && cpld2 == old(cpld2) && pass == old(pass)
      ensures trace == old(trace)
    {
      command3 := RelayBase;
      command4 := 0xFFFF & !command3;
      shNum := 0;
      fields := SessionFields;
    }

    /**
     * The wait for '1': received characters are dropped until a '1'
     * arrives, which starts a session. consumed counts the characters
     * taken, the '1' included.
     */
    method AwaitStart(input: seq<char>) returns (consumed: nat)
      requires Valid() && !pass
      modifies this
      ensures Valid()
      ensures pass <==> FirstOne(input) < |input|
      ensures consumed == if pass then FirstOne(input) + 1 else |input|
      ensures pass ==> fields == SessionFields && command3 == RelayBase && command4 == 0xBFFF && shNum == 0
      ensures !pass ==> fields == old(fields) && command3 == old(command3) && shNum == old(shNum)
      ensures command4 == Complement16(command3)
      ensures reset == old(reset) && cpld1 == old(cpld1) && cpld2 == old(cpld2) && trace == old(trace)
    {
      consumed := 0;
      while consumed < |input| && !pass
        invariant consumed <= |input|
        invariant pass <==> consumed > 0 && input[consumed - 1] == '1'
        invariant pass ==> consumed == FirstOne(input) + 1
        invariant !pass ==> consumed <= FirstOne(input)
        invariant Valid() && fields == old(fields) && command3 == old(command3) && command4 == old(command4)
        invariant shNum == old(shNum) && reset == old(reset) && cpld1 == old(cpld1) && cpld2 == old(cpld2)
        invariant trace == old(trace)
      {
        if input[consumed] == '1' {
          pass := true;
        }
        consumed := consumed + 1;
      }
      if pass {
        StartSession();
      }
    }

    /**
     * The first part of a frame: pack and write the five command words,
     * the control word with the counter, the relay word recomputed from
     * the previous one, and the inverse word recomputed from the relay
     * word. ReadBack and then AdvanceCounter complete the frame.
     */
    method WriteCommand()
      requires Valid()
      modifies this
      ensures Valid()
      ensures fields == old(fields) && reset == old(reset) && pass == old(pass) && shNum == old(shNum)
      ensures cpld1 == old(cpld1) && cpld2 == old(cpld2)
      ensures command3 == RelayWordOf(fields) && command4 == Complement16(command3)
      ensures trace == old(trace) + FrameEvents(Header, ControlWordOf(fields, shNum), command3, command4, Footer)
    {
      var command2 := ControlWordOf(fields, shNum);
      RelayWordKeepsBase(command3, fields);
      command3 := RelayWord(command3, Word(fields.relayAA), Word(fields.relayAB), Word(fields.relayCA),
                            Word(fields.relayCB), Word(fields.relayCC));
      command4 := 0xFFFF & !command3;
      trace := trace + FrameEvents(Header, command2, command3, command4, Footer);
    }

    /** Read the CPLD pair when the command type is CPLDRev, then the seven status words. */
    method ReadBack(region: seq<bv32>) returns (s: Status)
      requires |region| == 7
      modifies this`cpld1, this`cpld2
      ensures (cpld1, cpld2) == if fields.commandType == CPLDRev then (region[2], region[3]) else (old(cpld1), old(cpld2))
      ensures s == BaseStatus(region, (cpld1, cpld2))
    {
      if fields.commandType == CPLDRev {
        cpld1 := region[8 / 4];
        cpld2 := region[12 / 4];
      }
      s := ReadStatus(region, (cpld1, cpld2));
    }

    /** The counter after a frame: 0 once it has reached 128 or when Synch is set, else one more. */
    method AdvanceCounter()
      requires shNum <= ShWrap
      modifies this`shNum
      ensures shNum == NextShNum(old(shNum), fields.synchr)
    {
      if shNum == ShWrap {
        shNum := 0;
      } else if fields.synchr == NoSynch {
        shNum := shNum + 1;
      } else {
        shNum := 0;
      }
    }

    /**
     * The key read after a frame, if one has arrived: the switch on it.
     * '0' ends the session and clears the CPLD readings, '7' flips the
     * reset output, '8' also pulses reset and writes the CPLD command.
     */
    method Key(c: char)
      requires Valid()
      modifies this
      ensures Valid()
      ensures fields == KeyFields(c, old(fields))
      ensures reset == if c == '7' then ToggleReset(old(reset)) else old(reset)
      ensures pass == (old(pass) && c != '0')
      ensures (cpld1, cpld2) == if c == '0' then (0, 0) else (old(cpld1), old(cpld2))
      ensures trace == old(trace) + KeyEvents(c, old(fields), reset)
      ensures command3 == old(command3) && command4 == old(command4) && shNum == old(shNum)
    {
      KeyKeepsRange(c, fields);
      fields := KeyFields(c, fields);
      if c == '0' {
        pass := false;
        cpld1, cpld2 := 0, 0;
      } else if c == '7' {
        reset := ToggleReset(reset);
        trace := trace + [GpioWrite(Word(reset))];
      } else if c == '8' {
        trace := trace + [GpioWrite(0), GpioWrite(1)];
        var commandCpld := FieldBits(Word(fields.commandType), Word(fields.modId), Word(fields.threshold),
                                     Word(fields.dryWet), Word(fields.synchr));
        trace := trace + [BramWrite(0x00, commandCpld)];
      }
    }
  }

  /**
   * The read loop of a frame: the seven status words at offsets 0..24 in
   * steps of 4, each masked to 16 bits, then decoded in full.
   */
  method ReadStatus(region: seq<bv32>, cpld: (bv32, bv32)) returns (s: Status)
    requires |region| == 7
    ensures s == BaseStatus(region, cpld)
    ensures s.frameError <==> Bit(region[1], 15)
    ensures s.commandError <==> Bit(region[1], 14) || Bit(region[1], 12)
    ensures s.cpld == Some(cpld)
    ensures s.threshold.Some? && s.dry.Some? && s.sync.Some? && s.railOff.Some? && s.coilError.Some?
    ensures s.relays.Some? && s.inputs.Some?
  {
    var data: seq<bv32> := [0, 0, 0, 0, 0, 0, 0];
    var i := 0;
    while i < 25
      invariant 0 <= i <= 28 && i % 4 == 0
      invariant |data| == 7
      invariant forall k :: 0 <= k < i / 4 ==> data[k] == Mask16(region[k])
    {
      var outData := region[i / 4];
      data := data[i / 4 := outData & 0xFFFF];
      i := i + 4;
    }
    var d2, d3, d4 := data[1], data[2], data[3];
    s := Status(
      frameError := d2 & 0x8000 != 0, commandError := d2 & 0x5000 != 0,
      threshold := Some(ThresholdOf(d2)), dry := Some(DryOf(d2)), sync := Some(SyncOf(d2)),
      railOff := Some(RailOff(d2)), coilError := Some(CoilError(d2)),
      relays := Some(RelaysOf(d3)), inputs := Some(InputsOf(d4)), cpld := Some(cpld));
  }

  /** Every key keeps the fields within their widths and each relay at most its own bit. */
  lemma KeyKeepsRange(c: char, f: CommandBlocks)
    requires InRange(f)
    ensures InRange(KeyFields(c, f))
  {
    match c
    case '2' => assert KeyFields(c, f).threshold < 4;
    case '3' =>
    case '4' =>
    case '5' =>
    case '6' =>
    case '8' =>
    case 'a' => KeyFlipsRelay(f);
    case 's' => KeyFlipsRelay(f);
    case 'd' => KeyFlipsRelay(f);
    case 'f' => KeyFlipsRelay(f);
    case 'g' => KeyFlipsRelay(f);
    case 'z' =>
    case 'x' =>
    case _ =>
  }

  /**
   * What each toggling key does: '3' swaps Dry and Wet, '4' swaps Synch
   * and NoSynch, and 'a', 's', 'd', 'f' and 'g' switch relay AA, AB, CA,
   * CB and CC (bits 1, 2, 4, 8 and 16) on if off and off if on; each also
   * sets ChangeRequest and leaves the other fields alone.
   */
  lemma KeyToggles(f: CommandBlocks)
    requires InRange(f)
    ensures KeyFields('3', f) == f.(commandType := ChangeRequest, dryWet := 1 - f.dryWet)
    ensures KeyFields('3', f).dryWet != f.dryWet
    ensures KeyFields('4', f) == f.(commandType := ChangeRequest, synchr := 1 - f.synchr)
    ensures KeyFields('4', f).synchr != f.synchr
    ensures KeyFields('a', f) == f.(commandType := ChangeRequest, relayAA := 1 - f.relayAA)
    ensures KeyFields('s', f) == f.(commandType := ChangeRequest, relayAB := 2 - f.relayAB)
    ensures KeyFields('d', f) == f.(commandType := ChangeRequest, relayCA := 4 - f.relayCA)
    ensures KeyFields('f', f) == f.(commandType := ChangeRequest, relayCB := 8 - f.relayCB)
    ensures KeyFields('g', f) == f.(commandType := ChangeRequest, relayCC := 16 - f.relayCC)
  {
    KeyFlipsRelay(f);
  }

  /** The relay keys XOR their relay's bit, 1 << n for relay n, whatever the field held. */
  lemma KeyFlipsRelay(f: CommandBlocks)
    ensures KeyFields('a', f) == f.(commandType := ChangeRequest, relayAA := FlipBit(f.relayAA, 1))
    ensures KeyFields('s', f) == f.(commandType := ChangeRequest, relayAB := FlipBit(f.relayAB, 2))
    ensures KeyFields('d', f) == f.(commandType := ChangeRequest, relayCA := FlipBit(f.relayCA, 4))
    ensures KeyFields('f', f) == f.(commandType := ChangeRequest, relayCB := FlipBit(f.relayCB, 8))
    ensures KeyFields('g', f) == f.(commandType := ChangeRequest, relayCC := FlipBit(f.relayCC, 16))
  {
  }

  /** '5', '6' and '8' set only the command type: DataUpdate, ChangeRequest and CPLDRev. */
  lemma KeySetsCommandType(f: CommandBlocks)
    ensures KeyFields('5', f) == f.(commandType := DataUpdate)
    ensures KeyFields('6', f) == f.(commandType := ChangeRequest)
    ensures KeyFields('8', f) == f.(commandType := CPLDRev)
  {
  }

  /** The fields each key may change. */
  function KeyTouches(c: char): set<Field>
  {
    match c
    case '2' => {CommandTypeF, ThresholdF}
    case '3' => {CommandTypeF, DryWetF}
    case '4' => {CommandTypeF, SynchrF}
    case '5' => {CommandTypeF}
    case '6' => {CommandTypeF}
    case '8' => {CommandTypeF}
    case 'a' => {CommandTypeF, RelayAAF}
    case 's' => {CommandTypeF, RelayABF}
    case 'd' => {CommandTypeF, RelayCAF}
    case 'f' => {CommandTypeF, RelayCBF}
    case 'g' => {CommandTypeF, RelayCCF}
    case 'z' => {RelayAAF, RelayABF, RelayCAF, RelayCBF, RelayCCF}
    case 'x' => {RelayAAF, RelayABF, RelayCAF, RelayCBF, RelayCCF}
    case _ => {}
  }

  /**
   * A key changes no field outside its own: 'z' and 'x' leave the command
   * type alone, and '0', '7' and every unlisted key leave all fields.
   */
  lemma KeyTouchesOnly(c: char, f: CommandBlocks)
    ensures Diff(f, KeyFields(c, f)) <= KeyTouches(c)
    ensures KeyTouches(c) == {} ==> KeyFields(c, f) == f
  {
    var g := KeyFields(c, f);
    match c
    case '2' => assert g == f.(commandType := ChangeRequest, threshold := NextThreshold(f.threshold));
    case '3' => assert g == f.(commandType := ChangeRequest, dryWet := g.dryWet);
    case '4' => assert g == f.(commandType := ChangeRequest, synchr := g.synchr);
    case '5' => assert g == f.(commandType := DataUpdate);
    case '6' => assert g == f.(commandType := ChangeRequest);
    case '8' => assert g == f.(commandType := CPLDRev);
    case 'a' => assert g == f.(commandType := ChangeRequest, relayAA := g.relayAA);
    case 's' => assert g == f.(commandType := ChangeRequest, relayAB := g.relayAB);
    case 'd' => assert g == f.(commandType := ChangeRequest, relayCA := g.relayCA);
    case 'f' => assert g == f.(commandType := ChangeRequest, relayCB := g.relayCB);
    case 'g' => assert g == f.(commandType := ChangeRequest, relayCC := g.relayCC);
    case 'z' =>
    case 'x' =>
    case _ =>
  }

  /** Four presses of '2' bring the threshold back, through all four values. */
  lemma ThresholdKeyCycle(f: CommandBlocks)
    requires InRange(f)
    ensures KeyFields('2', KeyFields('2', KeyFields('2', KeyFields('2', f)))) == f.(commandType := ChangeRequest)
    ensures var t1 := KeyFields('2', f).threshold;
            var t2 := KeyFields('2', KeyFields('2', f)).threshold;
            var t3 := KeyFields('2', KeyFields('2', KeyFields('2', f))).threshold;
            f.threshold != t1 && f.threshold != t2 && f.threshold != t3 && t1 != t2 && t1 != t3 && t2 != t3
  {
  }

  /** '3', '4' and the relay keys are toggles: pressing one twice restores every field but the command type. */
  lemma KeyTwiceRestores(c: char, f: CommandBlocks)
    requires InRange(f)
    requires c == '3' || c == '4' || c == 'a' || c == 's' || c == 'd' || c == 'f' || c == 'g'
    ensures KeyFields(c, KeyFields(c, f)) == f.(commandType := ChangeRequest)
  {
    if c == 'a' {
      FlipBitTwice(f.relayAA, 1);
    } else if c == 's' {
      FlipBitTwice(f.relayAB, 2);
    } else if c == 'd' {
      FlipBitTwice(f.relayCA, 4);
    } else if c == 'f' {
      FlipBitTwice(f.relayCB, 8);
    } else if c == 'g' {
      FlipBitTwice(f.relayCC, 16);
    }
  }

  /** 'x' switches every relay on and 'z' every relay off: relay words 0x401F and 0x4000. */
  lemma AllRelayKeysWords(f: CommandBlocks)
    ensures RelayWordOf(KeyFields('x', f)) == 0x401F && Complement16(RelayWordOf(KeyFields('x', f))) == 0xBFE0
    ensures RelayWordOf(KeyFields('z', f)) == 0x4000 && Complement16(RelayWordOf(KeyFields('z', f))) == 0xBFFF
  {
  }

  /** The word key '8' writes is the control word of its fields with the counter at 0. */
  lemma CpldWordIsControlWord(f: CommandBlocks)
    requires InRange(f)
    ensures CpldWord(KeyFields('8', f)) == ControlWordOf(KeyFields('8', f), 0)
  {
    var t := KeyFields('8', f);
    SmallWord(t.commandType);
    SmallWord(t.modId);
    SmallWord(t.threshold);
    SmallWord(t.dryWet);
    SmallWord(t.synchr);
  }

  /** A frame decodes the status words as the Zynq console's uut_status_? does, and always reports the CPLD pair. */
  lemma DecodeAgreesWithZynq(region: seq<bv32>, cpld: (bv32, bv32))
    requires |region| == 7
    ensures BaseStatus(region, cpld)
            == ZynqBramCmd.DecodeStatus(ZynqCli.CmdUutStatusQ, region).(cpld := Some(cpld))
  {
  }
}
