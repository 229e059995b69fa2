/**
 * The Zynq build's command-frame engine: the field codes and the
 * CommandBlocks record, the dispatcher that turns a command index into a
 * modified copy of the fields, the encoder that writes the five-word frame
 * and advances the sample-hold counter, and the status read.
 */
module ZynqBramCmd {
  import opened Wrappers
  import opened UutFrame
  import opened UutStatus
  import opened ZynqCli

  /** Command-type codes. */
  const WriteRequest: u32 := 0x1
  const ReadRequest: u32 := 0x2
  const CPLDRev: u32 := 0x0
  /** The module id this controller sends. */
  const ModIdCode: u32 := 0x3
  /** Threshold codes. */
  const Threshold17V: u32 := 0x3
  const Threshold33V: u32 := 0x2
  const Threshold84V: u32 := 0x1
  const Threshold166V: u32 := 0x0
  /** Dry/Wet and Sync codes. */
  const Dry: u32 := 0x1
  const Wet: u32 := 0x0
  const SyncOn: u32 := 0x1
  const NoSync: u32 := 0x0

  /** The constant frame words 1, 4 and 5. Word 4 is the complement of the relay base 0x4000 only. */
  const CmdFrame1: bv32 := Header
  const CmdFrame4: bv32 := Complement16(RelayBase)
  const CmdFrame5: bv32 := Footer

  /** The query commands that change only the command type, to ReadRequest. */
  predicate IsFieldQuery(index: int)
  {
    index == CmdThreshQ || index == CmdDryWetQ || index == CmdSyncQ
    || index == Cmd12vRlRailQ || index == CmdRelayStatusQ || index == CmdInputStatusQ
  }

  /** The threshold code each threshold_N command writes. */
  function ThresholdCodeOf(index: int): (c: u32)
    requires CmdThresh17 <= index <= CmdThresh166
    ensures c < 4
  {
    if index == CmdThresh17 then Threshold17V
    else if index == CmdThresh33 then Threshold33V
    else if index == CmdThresh84 then Threshold84V
    else Threshold166V
  }

  /** The five relays, in the order of their bits 0 .. 4. */
  datatype Relay = AA | AB | CA | CB | CC

  /** What one case of the dispatcher's switch does to the fields. */
  datatype Action =
    | SetCommandType(code: u32)     // only the command type
    | SetThreshold(code: u32)       // WriteRequest and a threshold code
    | SetDryWet(code: u32)          // WriteRequest and a dry/wet code
    | SetSync(code: u32)            // WriteRequest and a sync code
    | Toggle(relay: Relay)           // WriteRequest and that relay's bit flipped
    | SetAllRelays(on: bool)         // WriteRequest and every relay on or off
    | NoChange

  /** Every code an action writes fits its field. */
  predicate ActionFits(a: Action)
  {
    match a
    case SetCommandType(c) => c < 4
    case SetThreshold(c) => c < 4
    case SetDryWet(c) => c < 2
    case SetSync(c) => c < 2
    case _ => true
  }

  /** The switch of cli_cmd_handler: which case each command index takes. */
  function ActionOf(index: int): (a: Action)
    ensures ActionFits(a)
  {
    if index == CmdCpldRevR then SetCommandType(CPLDRev)
    else if CmdThresh17 <= index <= CmdThresh166 then SetThreshold(ThresholdCodeOf(index))
    else if index == CmdThreshQ then SetCommandType(ReadRequest)
    else if index == CmdDryWetD then SetDryWet(Dry)
    else if index == CmdDryWetW then SetDryWet(Wet)
    else if index == CmdDryWetQ then SetCommandType(ReadRequest)
    else if index == CmdSyncYes then SetSync(SyncOn)
    else if index == CmdSyncNo then SetSync(NoSync)
    else if index == CmdSyncQ then SetCommandType(ReadRequest)
    else if index == CmdRelayAA then Toggle(AA)
    else if index == CmdRelayAB then Toggle(AB)
    else if index == CmdRelayCA then Toggle(CA)
    else if index == CmdRelayCB then Toggle(CB)
    else if index == CmdRelayCC then Toggle(CC)
    else if index == Cmd12vRlRail then SetCommandType(WriteRequest)
    else if index == Cmd12vRlRailQ then SetCommandType(ReadRequest)
    else if index == CmdRelayStatusQ then SetCommandType(ReadRequest)
    else if index == CmdInputStatusQ then SetCommandType(ReadRequest)
    else if index == CmdRelaysOn then SetAllRelays(true)
    else if index == CmdRelaysOff then SetAllRelays(false)
    else NoChange   // cpld_rev_w, uut_status_?, reset, -help, exit, debug and unknown indexes
  }

  /** A relay's field. */
  function RelayValue(k: Relay, b: CommandBlocks): u32
  {
    match k
    case AA => b.relayAA
    case AB => b.relayAB
    case CA => b.relayCA
    case CB => b.relayCB
    case CC => b.relayCC
  }

  /** A relay's own bit, 1 << n for relay n. */
  function RelayMask(k: Relay): (m: int)
    ensures IsLowBit(m)
  {
    match k
    case AA => 1
    case AB => 2
    case CA => 4
    case CB => 8
    case CC => 16
  }

  /** Flips a relay's own bit (1 << n for relay n) in its field. */
  function ToggleRelay(k: Relay, b: CommandBlocks): CommandBlocks
  {
    match k
    case AA => b.(relayAA := FlipBit(b.relayAA, 1))
    case AB => b.(relayAB := FlipBit(b.relayAB, 2))
    case CA => b.(relayCA := FlipBit(b.relayCA, 4))
    case CB => b.(relayCB := FlipBit(b.relayCB, 8))
    case CC => b.(relayCC := FlipBit(b.relayCC, 16))
  }

  /** The fields after one case of the switch. */
  function Apply(a: Action, b: CommandBlocks): CommandBlocks
  {
    match a
    case SetCommandType(c) => b.(commandType := c)
    case SetThreshold(c) => b.(commandType := WriteRequest, threshold := c)
    case SetDryWet(c) => b.(commandType := WriteRequest, dryWet := c)
    case SetSync(c) => b.(commandType := WriteRequest, synchr := c)
    case Toggle(k) => ToggleRelay(k, b).(commandType := WriteRequest)
    case SetAllRelays(on) =>
      if on then b.(commandType := WriteRequest, relayAA := 1, relayAB := 2, relayCA := 4, relayCB := 8, relayCC := 16)
      else b.(commandType := WriteRequest, relayAA := 0, relayAB := 0, relayCA := 0, relayCB := 0, relayCC := 0)
    case NoChange => b
  }

  /**
   * cli_cmd_handler: a copy of the fields, changed as the command index says.
   * The GPIO pulses it issues on the way are given by HandlerGpio.
   */
  function Handler(index: int, b: CommandBlocks): (r: CommandBlocks)
    ensures r.modId == b.modId
  {
    Apply(ActionOf(index), b)
  }

  /** The GPIO writes cli_cmd_handler issues: a reset pulse for cpld_rev_?, a de-assert for reset. */
  function HandlerGpio(index: int): (g: seq<Event>)
    ensures g != [] <==> index == CmdCpldRevR || index == CmdReset
    ensures index == CmdCpldRevR ==> g == [GpioWrite(0), GpioWrite(1)]
  {
    if index == CmdCpldRevR then [GpioWrite(0), GpioWrite(1)]
    else if index == CmdReset then [GpioWrite(1)]
    else []
  }

  /** The hardware events of one cmd_bram_write: the handler's GPIO writes, then the five frame words in order. */
  function WriteEvents(index: int, b: CommandBlocks, sh: nat): (e: seq<Event>)
    requires sh <= ShWrap
    ensures |e| == |HandlerGpio(index)| + 5
  {
    var t := Handler(index, b);
    HandlerGpio(index) + FrameEvents(CmdFrame1, ControlWordOf(t, sh), RelayWordOf(t), CmdFrame4, CmdFrame5)
  }


  /**
   * The static state of cmd_bram_write: the sample-hold counter, the
   * global frame words 2 and 3, and the log of what went to the hardware.
   */
  class Engine {
    var shNum: nat
    var cmdFrame2: bv32
    var cmdFrame3: bv32
    var trace: seq<Event>

    ghost predicate Valid()
      reads this
    {
      shNum <= ShWrap
    }

    constructor ()
      ensures Valid() && shNum == 0 && cmdFrame2 == 0 && cmdFrame3 == RelayBase && trace == []
    {
      shNum, cmdFrame2, cmdFrame3, trace := 0, 0, RelayBase, [];
    }

    /**
     * cmd_bram_write: hands the fields (a copy) to the dispatcher, packs
     * the result with the current counter into frame words 2 and 3, writes
     * the five words, then advances the counter, whatever the command type.
     */
    method CmdBramWrite(stFrameBits: CommandBlocks, index: int)
      requires Valid()
      modifies this
      ensures Valid()
      ensures var t := Handler(index, stFrameBits);
        && cmdFrame2 == ControlWordOf(t, old(shNum))
        && cmdFrame3 == RelayWordOf(t)
        && trace == old(trace) + WriteEvents(index, stFrameBits, old(shNum))
        && shNum == NextShNum(old(shNum), t.synchr)
    {
      cmdFrame2 := 0;
      cmdFrame3 := RelayBase;
      trace := trace + HandlerGpio(index);
      var tmp := Handler(index, stFrameBits);
      cmdFrame2 := ControlWordOf(tmp, shNum);
      cmdFrame3 := RelayWordOf(tmp);
      ghost var frame := FrameEvents(CmdFrame1, cmdFrame2, cmdFrame3, CmdFrame4, CmdFrame5);
      trace := trace + [BramWrite(0x00, CmdFrame1), BramWrite(0x04, cmdFrame2), BramWrite(0x08, cmdFrame3),
                        BramWrite(0x0C, CmdFrame4), BramWrite(0x10, CmdFrame5)];
      assert trace == old(trace) + HandlerGpio(index) + frame;
      AppendAssoc(old(trace), HandlerGpio(index), frame);
      if shNum == ShWrap || tmp.synchr != NoSync {
        shNum := 0;
      } else {
        shNum := shNum + 1;
      }
    }
  }

  /**
   * What cmd_bram_read reports for a command index, given the seven words
   * of the status region (offsets 0, 4, .., 24). The CPLD pair comes from
   * offsets 8 and 12 of the same region, unmasked, and only for cpld_rev_?.
   */
  function DecodeStatus(index: int, region: seq<bv32>): Status
    requires |region| == 7
  {
    var d2, d3, d4 := Mask16(region[1]), Mask16(region[2]), Mask16(region[3]);
    var full := index == CmdUutStatusQ;
    Status(
      frameError := FrameError(d2),
      commandError := CommandError(d2),
      threshold := if index == CmdThreshQ || full then Some(ThresholdOf(d2)) else None,
      dry := if index == CmdDryWetQ || full then Some(DryOf(d2)) else None,
      sync := if index == CmdSyncQ || full then Some(SyncOf(d2)) else None,
      railOff := if index == Cmd12vRlRailQ || full then Some(RailOff(d2)) else None,
      coilError := if index == Cmd12vRlRailQ || full then Some(CoilError(d2)) else None,
      relays := if index == CmdRelayStatusQ || full then Some(RelaysOf(d3)) else None,
      inputs := if index == CmdInputStatusQ || full then Some(InputsOf(d4)) else None,
      cpld := if index == CmdCpldRevR then Some((region[2], region[3])) else None)
  }

  /**
   * cmd_bram_read: reads the CPLD pair when asked, then the seven status
   * words at offsets 0..24 in steps of 4, each masked to 16 bits, and
   * decodes them.
   */
  method CmdBramRead(index: int, region: seq<bv32>) returns (s: Status)
    requires |region| == 7
    ensures s == DecodeStatus(index, region)
    ensures s.frameError <==> Bit(region[1], 15)
    ensures s.commandError <==> Bit(region[1], 14) || Bit(region[1], 12)
    ensures s.cpld.Some? <==> index == CmdCpldRevR
    ensures s.cpld.Some? ==> s.cpld.value == (region[2], region[3])
    ensures s.threshold.Some? <==> index == CmdThreshQ || index == CmdUutStatusQ
    ensures s.dry.Some? <==> index == CmdDryWetQ || index == CmdUutStatusQ
    ensures s.sync.Some? <==> index == CmdSyncQ || index == CmdUutStatusQ
    ensures s.railOff.Some? <==> s.coilError.Some?
    ensures s.railOff.Some? <==> index == Cmd12vRlRailQ || index == CmdUutStatusQ
    ensures s.relays.Some? <==> index == CmdRelayStatusQ || index == CmdUutStatusQ
    ensures s.inputs.Some? <==> index == CmdInputStatusQ || index == CmdUutStatusQ
  {
    var cpld: Option<(bv32, bv32)> := None;
    if index == CmdCpldRevR {
      cpld := Some((region[8 / 4], region[12 / 4]));
    }
    var data: seq<bv32> := [0, 0, 0, 0, 0, 0, 0];
    var i := 0;
    while i <= 24
      invariant 0 <= i <= 28 && i % 4 == 0
      invariant |data| == 7
      invariant forall k :: 0 <= k < i / 4 ==> data[k] == Mask16(region[k])
    {
      var outData := region[i / 4];
      data := data[i / 4 := outData & 0xFFFF];
      i := i + 4;
    }
    var d2, d3, d4 := data[1], data[2], data[3];
    var full := index == CmdUutStatusQ;
    s := Status(
      frameError := d2 & 0x8000 != 0,
      commandError := d2 & 0x5000 != 0,
      threshold := if index == CmdThreshQ || full then Some(ThresholdOf(d2)) else None,
      dry := if index == CmdDryWetQ || full then Some(DryOf(d2)) else None,
      sync := if index == CmdSyncQ || full then Some(SyncOf(d2)) else None,
      railOff := if index == Cmd12vRlRailQ || full then Some(RailOff(d2)) else None,
      coilError := if index == Cmd12vRlRailQ || full then Some(CoilError(d2)) else None,
      relays := if index == CmdRelayStatusQ || full then Some(RelaysOf(d3)) else None,
      inputs := if index == CmdInputStatusQ || full then Some(InputsOf(d4)) else None,
      cpld := cpld);
  }

  /** The fields each command index is allowed to change. */
  function Touched(index: int): (f: set<Field>)
    ensures f != {} ==> CommandTypeF in f
    ensures ModIdF !in f
  {
    if index == CmdRelaysOn || index == CmdRelaysOff then
      {CommandTypeF, RelayAAF, RelayABF, RelayCAF, RelayCBF, RelayCCF}
    else if CmdThresh17 <= index <= CmdThresh166 then {CommandTypeF, ThresholdF}
    else if index == CmdDryWetD || index == CmdDryWetW then {CommandTypeF, DryWetF}
    else if index == CmdSyncYes || index == CmdSyncNo then {CommandTypeF, SynchrF}
    else if index == CmdRelayAA then {CommandTypeF, RelayAAF}
    else if index == CmdRelayAB then {CommandTypeF, RelayABF}
    else if index == CmdRelayCA then {CommandTypeF, RelayCAF}
    else if index == CmdRelayCB then {CommandTypeF, RelayCBF}
    else if index == CmdRelayCC then {CommandTypeF, RelayCCF}
    else if index == CmdCpldRevR || index == Cmd12vRlRail || IsFieldQuery(index) then {CommandTypeF}
    else {}
  }

  /** The commands that leave every field as it was. */
  predicate IsNoOp(index: int)
  {
    index == CmdCpldRevW || index == CmdUutStatusQ || index == CmdReset || index == CmdHelp
    || index == CmdExit || index == CmdDebug || !(0 <= index < Sentinel)
  }

  /** The commands that set the command type to WriteRequest. */
  predicate IsWriteCommand(index: int)
  {
    CmdThresh17 <= index <= CmdThresh166 || index == CmdDryWetD || index == CmdDryWetW
    || index == CmdSyncYes || index == CmdSyncNo || CmdRelayAA <= index <= CmdRelayCC
    || index == Cmd12vRlRail || index == CmdRelaysOn || index == CmdRelaysOff
  }

  /** The field that holds a relay. */
  function RelayField(k: Relay): Field
  {
    match k
    case AA => RelayAAF
    case AB => RelayABF
    case CA => RelayCAF
    case CB => RelayCBF
    case CC => RelayCCF
  }

  /** The fields an action may change. */
  function ActionTouches(a: Action): set<Field>
  {
    match a
    case SetCommandType(_) => {CommandTypeF}
    case SetThreshold(_) => {CommandTypeF, ThresholdF}
    case SetDryWet(_) => {CommandTypeF, DryWetF}
    case SetSync(_) => {CommandTypeF, SynchrF}
    case Toggle(k) => {CommandTypeF, RelayField(k)}
    case SetAllRelays(_) => {CommandTypeF, RelayAAF, RelayABF, RelayCAF, RelayCBF, RelayCCF}
    case NoChange => {}
  }

  /*
   * One lemma per relay: flipping keeps the field within its bit, touches
   * only that field, and flipping twice gives the fields back.
   */
  lemma ToggleAA(b: CommandBlocks)
    ensures RelaysOwnBits(b) ==> RelaysOwnBits(ToggleRelay(AA, b))
    ensures Diff(b, ToggleRelay(AA, b)) <= {RelayAAF}
    ensures ToggleRelay(AA, ToggleRelay(AA, b)) == b
  {
  }

  lemma ToggleAB(b: CommandBlocks)
    ensures RelaysOwnBits(b) ==> RelaysOwnBits(ToggleRelay(AB, b))
    ensures Diff(b, ToggleRelay(AB, b)) <= {RelayABF}
    ensures ToggleRelay(AB, ToggleRelay(AB, b)) == b
  {
  }

  lemma ToggleCA(b: CommandBlocks)
    ensures RelaysOwnBits(b) ==> RelaysOwnBits(ToggleRelay(CA, b))
    ensures Diff(b, ToggleRelay(CA, b)) <= {RelayCAF}
    ensures ToggleRelay(CA, ToggleRelay(CA, b)) == b
  {
  }

  lemma ToggleCB(b: CommandBlocks)
    ensures RelaysOwnBits(b) ==> RelaysOwnBits(ToggleRelay(CB, b))
    ensures Diff(b, ToggleRelay(CB, b)) <= {RelayCBF}
    ensures ToggleRelay(CB, ToggleRelay(CB, b)) == b
  {
  }

  lemma ToggleCC(b: CommandBlocks)
    ensures RelaysOwnBits(b) ==> RelaysOwnBits(ToggleRelay(CC, b))
    ensures Diff(b, ToggleRelay(CC, b)) <= {RelayCCF}
    ensures ToggleRelay(CC, ToggleRelay(CC, b)) == b
  {
  }

  /**
   * Any relay: its field has its own bit flipped, so a relay that is off
   * comes on and one that is on goes off, and the three facts above.
   */
  lemma ToggleFacts(k: Relay, b: CommandBlocks)
    ensures RelayValue(k, ToggleRelay(k, b)) == FlipBit(RelayValue(k, b), RelayMask(k))
    ensures RelaysOwnBits(b) ==> RelayValue(k, ToggleRelay(k, b)) == RelayMask(k) - RelayValue(k, b)
    ensures RelaysOwnBits(b) ==> RelaysOwnBits(ToggleRelay(k, b))
    ensures Diff(b, ToggleRelay(k, b)) <= {RelayField(k)}
    ensures ToggleRelay(k, ToggleRelay(k, b)) == b
  {
    match k
    case AA => ToggleAA(b);
    case AB => ToggleAB(b);
    case CA => ToggleCA(b);
    case CB => ToggleCB(b);
    case CC => ToggleCC(b);
  }

  /** The command type after one case of the switch. */
  function CommandTypeAfter(a: Action, before: u32): u32
  {
    match a
    case SetCommandType(c) => c
    case NoChange => before
    case _ => WriteRequest
  }

  /** What every case of the switch guarantees about the fields it returns. */
  predicate ApplyOk(a: Action, b: CommandBlocks)
  {
    (ActionFits(a) && InRange(b) ==> InRange(Apply(a, b)))
    && Diff(b, Apply(a, b)) <= ActionTouches(a)
    && Apply(a, b).commandType == CommandTypeAfter(a, b.commandType)
  }

  lemma SetCommandTypeOk(c: u32, b: CommandBlocks)
    ensures ApplyOk(SetCommandType(c), b)
  {
    var r := Apply(SetCommandType(c), b);
    assert r == b.(commandType := c);
  }

  lemma SetThresholdOk(c: u32, b: CommandBlocks)
    ensures ApplyOk(SetThreshold(c), b)
  {
    var r := Apply(SetThreshold(c), b);
    assert r == b.(commandType := WriteRequest, threshold := c);
  }

  lemma SetDryWetOk(c: u32, b: CommandBlocks)
    ensures ApplyOk(SetDryWet(c), b)
  {
    var r := Apply(SetDryWet(c), b);
    assert r == b.(commandType := WriteRequest, dryWet := c);
  }

  lemma SetSyncOk(c: u32, b: CommandBlocks)
    ensures ApplyOk(SetSync(c), b)
  {
    var r := Apply(SetSync(c), b);
    assert r == b.(commandType := WriteRequest, synchr := c);
  }

  lemma ToggleOk(k: Relay, b: CommandBlocks)
    ensures ApplyOk(Toggle(k), b)
  {
    ToggleFacts(k, b);
  }

  lemma SetAllRelaysOk(on: bool, b: CommandBlocks)
    ensures ApplyOk(SetAllRelays(on), b)
  {
  }

  /** One case of the switch keeps the fields in range, changes only the fields it names, and sets the command type. */
  lemma ApplyFacts(a: Action, b: CommandBlocks)
    ensures ApplyOk(a, b)
  {
    match a
    case SetCommandType(c) => SetCommandTypeOk(c, b);
    case SetThreshold(c) => SetThresholdOk(c, b);
    case SetDryWet(c) => SetDryWetOk(c, b);
    case SetSync(c) => SetSyncOk(c, b);
    case Toggle(k) => ToggleOk(k, b);
    case SetAllRelays(on) => SetAllRelaysOk(on, b);
    case NoChange =>
  }

  /** The cases of the switch touch exactly the fields the command table names. */
  lemma ActionTouchesTable(index: int)
    ensures ActionTouches(ActionOf(index)) == Touched(index)
  {
  }

  /** The dispatcher keeps every field within its width. */
  lemma HandlerKeepsRange(index: int, b: CommandBlocks)
    requires InRange(b)
    ensures InRange(Handler(index, b))
  {
    ApplyFacts(ActionOf(index), b);
  }

  /** The dispatcher changes only the fields its command names, and never the module id. */
  lemma HandlerTouchesOnly(index: int, b: CommandBlocks)
    ensures Diff(b, Handler(index, b)) <= Touched(index)
    ensures IsNoOp(index) ==> Handler(index, b) == b
  {
    ApplyFacts(ActionOf(index), b);
    ActionTouchesTable(index);
  }

  /** Each command leaves the command type as the command table says. */
  lemma HandlerCommandType(index: int, b: CommandBlocks)
    ensures IsWriteCommand(index) ==> Handler(index, b).commandType == WriteRequest
    ensures IsFieldQuery(index) ==> Handler(index, b).commandType == ReadRequest
    ensures index == CmdCpldRevR ==> Handler(index, b).commandType == CPLDRev
    ensures IsNoOp(index) ==> Handler(index, b).commandType == b.commandType
  {
    ApplyFacts(ActionOf(index), b);
  }

  /** Toggling the same relay twice restores every field but the command type. */
  lemma ToggleTwice(index: int, b: CommandBlocks)
    requires CmdRelayAA <= index <= CmdRelayCC
    ensures Handler(index, Handler(index, b)) == b.(commandType := WriteRequest)
  {
    var k := ActionOf(index).relay;
    ToggleFacts(k, b);
    ToggleFacts(k, b.(commandType := WriteRequest));
  }

  /**
   * Each setting command writes WriteRequest and the code its name says
   * into its one field, and leaves the rest of the fields as they were.
   */
  lemma HandlerSetsField(b: CommandBlocks)
    ensures Handler(CmdThresh17, b) == b.(commandType := WriteRequest, threshold := Threshold17V)
    ensures Handler(CmdThresh33, b) == b.(commandType := WriteRequest, threshold := Threshold33V)
    ensures Handler(CmdThresh84, b) == b.(commandType := WriteRequest, threshold := Threshold84V)
    ensures Handler(CmdThresh166, b) == b.(commandType := WriteRequest, threshold := Threshold166V)
    ensures Handler(CmdDryWetD, b) == b.(commandType := WriteRequest, dryWet := Dry)
    ensures Handler(CmdDryWetW, b) == b.(commandType := WriteRequest, dryWet := Wet)
    ensures Handler(CmdSyncYes, b) == b.(commandType := WriteRequest, synchr := SyncOn)
    ensures Handler(CmdSyncNo, b) == b.(commandType := WriteRequest, synchr := NoSync)
    ensures Handler(Cmd12vRlRail, b) == b.(commandType := WriteRequest)
    ensures Handler(CmdCpldRevR, b) == b.(commandType := CPLDRev)
  {
  }

  /** Each relay_xx command writes WriteRequest and XORs its own relay's bit, 1 << n for relay n. */
  lemma HandlerFlipsRelay(b: CommandBlocks)
    ensures Handler(CmdRelayAA, b) == b.(commandType := WriteRequest, relayAA := FlipBit(b.relayAA, 1))
    ensures Handler(CmdRelayAB, b) == b.(commandType := WriteRequest, relayAB := FlipBit(b.relayAB, 2))
    ensures Handler(CmdRelayCA, b) == b.(commandType := WriteRequest, relayCA := FlipBit(b.relayCA, 4))
    ensures Handler(CmdRelayCB, b) == b.(commandType := WriteRequest, relayCB := FlipBit(b.relayCB, 8))
    ensures Handler(CmdRelayCC, b) == b.(commandType := WriteRequest, relayCC := FlipBit(b.relayCC, 16))
  {
  }

  /** With each relay off or at its own bit, a relay_xx command switches that relay on if off and off if on. */
  lemma RelayCommandSwitches(b: CommandBlocks)
    requires InRange(b)
    ensures Handler(CmdRelayAA, b) == b.(commandType := WriteRequest, relayAA := 1 - b.relayAA)
    ensures Handler(CmdRelayAB, b) == b.(commandType := WriteRequest, relayAB := 2 - b.relayAB)
    ensures Handler(CmdRelayCA, b) == b.(commandType := WriteRequest, relayCA := 4 - b.relayCA)
    ensures Handler(CmdRelayCB, b) == b.(commandType := WriteRequest, relayCB := 8 - b.relayCB)
    ensures Handler(CmdRelayCC, b) == b.(commandType := WriteRequest, relayCC := 16 - b.relayCC)
  {
    HandlerFlipsRelay(b);
  }

  /** Frame word 4 is the complement of the relay base, 0xBFFF, whatever the relays. */
  lemma CmdFrame4IsBaseComplement()
    ensures CmdFrame4 == Complement16(RelayBase) == 0xBFFF
  {
    ConstantInverseWord();
  }

  /** relays_on and relays_off drive the relay word to 0x401F and 0x4000. */
  lemma RelaysOnOffWords(b: CommandBlocks)
    ensures RelayWordOf(Handler(CmdRelaysOn, b)) == 0x401F
    ensures RelayWordOf(Handler(CmdRelaysOff, b)) == 0x4000
  {
    assert ActionOf(CmdRelaysOn) == SetAllRelays(true);
    assert ActionOf(CmdRelaysOff) == SetAllRelays(false);
  }

  /** The threshold a threshold_N command names. */
  function CommandedThreshold(index: int): Threshold
    requires CmdThresh17 <= index <= CmdThresh166
  {
    if index == CmdThresh17 then V17
    else if index == CmdThresh33 then V33
    else if index == CmdThresh84 then V84
    else V166
  }

  /** 33 V and 84 V exchanged, the other two left alone. */
  function Swap33And84(t: Threshold): Threshold
  {
    match t
    case V33 => V84
    case V84 => V33
    case _ => t
  }

  /**
   * The encoder and the decoder disagree on the middle two codes: the
   * threshold a command's control word reads back as, once the UUT echoes
   * it, is the commanded one with 33 V and 84 V exchanged.
   */
  lemma ThresholdEcho(index: int, b: CommandBlocks, sh: nat)
    requires CmdThresh17 <= index <= CmdThresh166 && sh <= ShWrap && InRange(b)
    ensures ThresholdOf(ControlWordOf(Handler(index, b), sh)) == Swap33And84(CommandedThreshold(index))
  {
    var t := Handler(index, b);
    assert ActionOf(index) == SetThreshold(ThresholdCodeOf(index));
    HandlerKeepsRange(index, b);
    ControlWordThreshold(t, sh);
    ThresholdOfBits(ControlWordOf(t, sh));
    CodeReadsSwapped(index);
  }

  /** The code each threshold command writes reads back as the commanded threshold, 33 V and 84 V exchanged. */
  lemma CodeReadsSwapped(index: int)
    requires CmdThresh17 <= index <= CmdThresh166
    ensures ThresholdOfCode(ThresholdCodeOf(index) as bv32) == Swap33And84(CommandedThreshold(index))
  {
  }

  /** Hence threshold_33 reads back as 84 V and threshold_84 as 33 V. */
  lemma ThresholdEchoSwaps(b: CommandBlocks, sh: nat)
    requires sh <= ShWrap && InRange(b)
    ensures ThresholdOf(ControlWordOf(Handler(CmdThresh33, b), sh)) == V84
    ensures ThresholdOf(ControlWordOf(Handler(CmdThresh84, b), sh)) == V33
  {
    ThresholdEcho(CmdThresh33, b, sh);
    ThresholdEcho(CmdThresh84, b, sh);
  }

  /** A frame with sync on sends the counter back to 0. */
  lemma SyncResetsCounter(sh: nat, b: CommandBlocks)
    requires sh <= ShWrap
    ensures NextShNum(sh, Handler(CmdSyncYes, b).synchr) == 0
  {
  }
}
