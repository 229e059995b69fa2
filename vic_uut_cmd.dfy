/**
 * The older encoder and decoder of the Vic build. The frame layout and the
 * status masks are those of the later build; what differs is that the
 * words live in globals, the sample-hold counter and the inverse word are
 * never updated, and the read decoder is keyed by the command string.
 */
module VicUutCmd {
  import opened Wrappers
  import opened UutFrame
  import opened UutStatus
  import ZynqCli
  import VicCli
  import ZynqBramCmd

  /** Field codes of this revision. */
  const ChangeRequest: u32 := 0x1
  const DataUpdate: u32 := 0x2
  const CPLDRev: u32 := 0x0
  const ModIdCode: u32 := 0x3
  const Threshold17V: u32 := 0x3
  const Threshold33V: u32 := 0x2
  const Threshold84V: u32 := 0x1
  const Threshold166V: u32 := 0x0
  const Dry: u32 := 0x1
  const Wet: u32 := 0x0
  const Sync: u32 := 0x1
  const NoSync: u32 := 0x0

  /** The read kinds cmd_bram_read recognises (CmdIDEnum). */
  datatype CmdId =
    | CmdUnknown | CmdCpldRev | CmdUutStatus | CmdThreshStatus
    | CmdDryWetStatus | CmdSyncStatus | CmdRelayStatus | CmdInputStatus

  /** The enumerator values, 0 for CmdUnknown and then in declaration order. */
  function Code(id: CmdId): (n: nat)
    ensures n < 8
    ensures n == 0 <==> id == CmdUnknown
  {
    match id
    case CmdUnknown => 0
    case CmdCpldRev => 1
    case CmdUutStatus => 2
    case CmdThreshStatus => 3
    case CmdDryWetStatus => 4
    case CmdSyncStatus => 5
    case CmdRelayStatus => 6
    case CmdInputStatus => 7
  }

  /** The string each known id is compared with. */
  function IdName(id: CmdId): string
    requires id != CmdUnknown
  {
    match id
    case CmdCpldRev => "cpld_rev_r"
    case CmdUutStatus => "uut_status"
    case CmdThreshStatus => "thresh_?"
    case CmdDryWetStatus => "dry_wet_?"
    case CmdSyncStatus => "sync_?"
    case CmdRelayStatus => "relay_status_?"
    case CmdInputStatus => "input_status_?"
  }

  /**
   * The id of a command string: the chain of exact comparisons. A string
   * that equals no id's name is CmdUnknown.
   */
  function CmdIdOf(command: string): (id: CmdId)
    ensures id != CmdUnknown ==> IdName(id) == command
    ensures id == CmdUnknown ==> forall k :: k != CmdUnknown ==> IdName(k) != command
  {
    if command == "cpld_rev_r" then CmdCpldRev
    else if command == "uut_status" then CmdUutStatus
    else if command == "thresh_?" then CmdThreshStatus
    else if command == "dry_wet_?" then CmdDryWetStatus
    else if command == "sync_?" then CmdSyncStatus
    else if command == "relay_status_?" then CmdRelayStatus
    else if command == "input_status_?" then CmdInputStatus
    else CmdUnknown
  }

  /** The ids are distinct enumerators: their codes differ. */
  lemma CodesDistinct(a: CmdId, b: CmdId)
    ensures Code(a) == Code(b) <==> a == b
  {
  }

  /** Each id's name is looked up as that id: the names are distinct. */
  lemma IdOfName(id: CmdId)
    requires id != CmdUnknown
    ensures CmdIdOf(IdName(id)) == id
  {
  }

  /**
   * The full-status name of the command table, "uut_status_?", is not the
   * string compared here ("uut_status"), so it decodes as CmdUnknown.
   */
  lemma TableStatusNameUnknown()
    ensures CmdIdOf("uut_status_?") == CmdUnknown
    ensures CmdIdOf("uut_status") == CmdUutStatus
  {
  }

  /**
   * The command table's classifier and this decoder disagree on
   * "cpld_rev_r": it is classified as a write but read back here as the
   * CPLD revision.
   */
  lemma CpldReadClassifiedAsWrite()
    ensures VicCli.ProcessUartCmd("cpld_rev_r") == Some(VicCli.CmdWrite) && CmdIdOf("cpld_rev_r") == CmdCpldRev
  {
    assert VicCli.Name(0) == "cpld_rev_r";
    VicCli.TableNameClassified(0);
  }

  /**
   * They disagree on "uut_status_?" too: it is classified as a read but
   * decodes as CmdUnknown.
   */
  lemma StatusQueryDecodesUnknown()
    ensures VicCli.ProcessUartCmd("uut_status_?") == Some(VicCli.CmdRead) && CmdIdOf("uut_status_?") == CmdUnknown
  {
    assert VicCli.Name(13) == "uut_status_?";
    VicCli.TableNameClassified(13);
    TableStatusNameUnknown();
  }

  /**
   * The globals of the encoder. The counter SHnum is a global that is
   * never assigned, so it stays 0; command4 is set once, from the initial
   * command3.
   */
  class Encoder {
    const shNum: nat
    var command2: bv32
    var command3: bv32
    const command4: bv32
    /** The BRAM writes made so far. */
    var trace: seq<Event>

    ghost predicate Valid()
    {
      shNum == 0 && command4 == 0xBFFF
    }

    /** The initial globals: command2 0 (uninitialised static), command3 0x4000, command4 0xFFFF & ~command3. */
    constructor ()
      ensures Valid()
      ensures command2 == 0 && command3 == RelayBase && trace == []
    {
      shNum := 0;
      command2 := 0;
      command3 := RelayBase;
      command4 := 0xFFFF & !RelayBase;
      trace := [];
    }

    /**
     * cmd_bram_write: pack the fields and the counter into command2, OR the
     * relays into the high byte of the previous command3, write the five
     * words. The counter and command4 are left as they are.
     */
    method CmdBramWrite(cmd: CommandBlocks)
      requires Valid()
      modifies this
      ensures Valid()
      ensures command2 == ControlWordOf(cmd, shNum)
      ensures command3 == RelayWord(old(command3), Word(cmd.relayAA), Word(cmd.relayAB), Word(cmd.relayCA),
                                    Word(cmd.relayCB), Word(cmd.relayCC))
      ensures trace == old(trace) + FrameEvents(Header, command2, command3, command4, Footer)
      ensures command2 & 0xFF == 0
      ensures trace[|old(trace)| + 3] == BramWrite(0x0C, 0xBFFF)
      ensures RelaysOwnBits(cmd) && old(command3) >> 8 == 0x40 && old(command3) < 0x1_0000 ==>
                command3 == RelayWordOf(cmd) && command3 >> 8 == 0x40 && command3 < 0x1_0000
    {
      command2 := ControlWordOf(cmd, shNum);
      if RelaysOwnBits(cmd) && command3 >> 8 == 0x40 && command3 < 0x1_0000 {
        RelayWordKeepsBase(command3, cmd);
      }
      command3 := RelayWord(command3, Word(cmd.relayAA), Word(cmd.relayAB), Word(cmd.relayCA),
                            Word(cmd.relayCB), Word(cmd.relayCC));
      trace := trace + FrameEvents(Header, command2, command3, command4, Footer);
    }
  }

  /**
   * What cmd_bram_read reports for a command string and the seven status
   * words: the CPLD pair (offsets 8 and 12, unmasked) for the CPLD and
   * full-status ids, the two error flags always, and each group for its
   * own id or the full status. The relay group carries the rail and coil
   * flags.
   */
  function DecodeStatus(id: CmdId, region: seq<bv32>): Status
    requires |region| == 7
  {
    var d2, d3, d4 := Mask16(region[1]), Mask16(region[2]), Mask16(region[3]);
    var full := id == CmdUutStatus;
    Status(
      frameError := FrameError(d2),
      commandError := CommandError(d2),
      threshold := if id == CmdThreshStatus || full then Some(ThresholdOf(d2)) else None,
      dry := if id == CmdDryWetStatus || full then Some(DryOf(d2)) else None,
      sync := if id == CmdSyncStatus || full then Some(SyncOf(d2)) else None,
      railOff := if id == CmdRelayStatus || full then Some(RailOff(d2)) else None,
      coilError := if id == CmdRelayStatus || full then Some(CoilError(d2)) else None,
      relays := if id == CmdRelayStatus || full then Some(RelaysOf(d3)) else None,
      inputs := if id == CmdInputStatus || full then Some(InputsOf(d4)) else None,
      cpld := if id == CmdCpldRev || full then Some((region[2], region[3])) else None)
  }

  /**
   * cmd_bram_read: find the id of the command string, then read and
   * decode the status for it.
   */
  method CmdBramRead(command: string, region: seq<bv32>) returns (s: Status)
    requires |region| == 7
    ensures s == DecodeStatus(CmdIdOf(command), region)
  {
    var id := CmdIdOf(command);
    s := ReadStatus(id, region);
  }

  /**
   * The reads of cmd_bram_read once the id is known: the CPLD pair when it
   * is asked for, then the seven words at offsets 0..24 in steps of 4,
   * each masked to 16 bits, decoded.
   */
  method ReadStatus(id: CmdId, region: seq<bv32>) returns (s: Status)
    requires |region| == 7
    ensures s == DecodeStatus(id, region)
  {
    var cpld: Option<(bv32, bv32)> := None;
    if id == CmdCpldRev || id == CmdUutStatus {
      cpld := Some((region[8 / 4], region[12 / 4]));
    }
    var data: seq<bv32> := [0, 0, 0, 0, 0, 0, 0];
    var i := 0;
    while i <= 24
      invariant 0 <= i <= 28 && i % 4 == 0
      invariant |data| == 7
      invariant forall k :: 0 <= k < i / 4 ==> data[k] == Mask16(region[k])
    {
      var outData := region[i / 4];
      data := data[i / 4 := outData & 0xFFFF];
      i := i + 4;
    }
    var d2, d3, d4 := data[1], data[2], data[3];
    var full := id == CmdUutStatus;
    s := Status(
      frameError := d2 & 0x8000 != 0,
      commandError := d2 & 0x5000 != 0,
      threshold := if id == CmdThreshStatus || full then Some(ThresholdOf(d2)) else None,
      dry := if id == CmdDryWetStatus || full then Some(DryOf(d2)) else None,
      sync := if id == CmdSyncStatus || full then Some(SyncOf(d2)) else None,
      railOff := if id == CmdRelayStatus || full then Some(RailOff(d2)) else None,
      coilError := if id == CmdRelayStatus || full then Some(CoilError(d2)) else None,
      relays := if id == CmdRelayStatus || full then Some(RelaysOf(d3)) else None,
      inputs := if id == CmdInputStatus || full then Some(InputsOf(d4)) else None,
      cpld := cpld);
  }

  /**
   * The groups a read reports: the two error flags always, the CPLD pair
   * for the CPLD and full-status ids, and each group for its own id or the
   * full status.
   */
  lemma DecodeStatusGroups(id: CmdId, region: seq<bv32>)
    requires |region| == 7
    ensures DecodeStatus(id, region).frameError <==> Bit(region[1], 15)
    ensures DecodeStatus(id, region).commandError <==> Bit(region[1], 14) || Bit(region[1], 12)
    ensures DecodeStatus(id, region).cpld.Some? <==> id == CmdCpldRev || id == CmdUutStatus
    ensures DecodeStatus(id, region).cpld.Some? ==> DecodeStatus(id, region).cpld.value == (region[2], region[3])
    ensures DecodeStatus(id, region).threshold.Some? <==> id == CmdThreshStatus || id == CmdUutStatus
    ensures DecodeStatus(id, region).dry.Some? <==> id == CmdDryWetStatus || id == CmdUutStatus
    ensures DecodeStatus(id, region).sync.Some? <==> id == CmdSyncStatus || id == CmdUutStatus
    ensures DecodeStatus(id, region).relays.Some? <==> id == CmdRelayStatus || id == CmdUutStatus
    ensures DecodeStatus(id, region).railOff.Some? <==> id == CmdRelayStatus || id == CmdUutStatus
    ensures DecodeStatus(id, region).coilError.Some? <==> id == CmdRelayStatus || id == CmdUutStatus
    ensures DecodeStatus(id, region).inputs.Some? <==> id == CmdInputStatus || id == CmdUutStatus
  {
  }

  /**
   * The full status of this revision decodes the words as the later
   * uut_status_? does, and adds the CPLD pair, which the later build
   * reads only for cpld_rev_?.
   */
  lemma FullStatusAgreesWithZynq(region: seq<bv32>)
    requires |region| == 7
    ensures DecodeStatus(CmdUutStatus, region)
            == ZynqBramCmd.DecodeStatus(ZynqCli.CmdUutStatusQ, region).(cpld := Some((region[2], region[3])))
  {
  }

  /** An unknown command string still reports the two error flags, and nothing else. */
  lemma UnknownReportsErrorsOnly(command: string, region: seq<bv32>)
    requires |region| == 7 && CmdIdOf(command) == CmdUnknown
    ensures var s := DecodeStatus(CmdIdOf(command), region);
      s == Status(FrameError(Mask16(region[1])), CommandError(Mask16(region[1])),
                  None, None, None, None, None, None, None, None)
  {
  }
}
