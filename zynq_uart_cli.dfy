/**
 * The command table of the Zynq build and the lookup that maps a
 * command line to its table index.
 */
module ZynqCli {

  /** One table entry: the command name and its help text. */
  datatype CliCmd = CliCmd(name: string, description: string)

  /** Size of the line buffer: the longest line kept is one less. */
  const CmdBufferSize := 18
  /** 29 commands and the sentinel. */
  const MaxCommands := 30

  /** The command names of cli_cmd_list, in table order, ending with the empty sentinel name. */
  const CmdNames: seq<string> := [
    "cpld_rev_?", "cpld_rev_w", "thresh_17", "thresh_33", "thresh_84", "thresh_166",
    "thresh_?", "dry_wet_d", "dry_wet_w", "dry_wet_?", "sync_yes", "sync_no", "sync_?",
    "uut_status_?", "reset", "relay_aa", "relay_ab", "relay_ca", "relay_cb", "relay_cc",
    "relay_12v_rl", "relay_12v_?", "relays_?", "input_status_?", "relays_on", "relays_off",
    "-help", "exit", "debug", ""
  ]

  /** The help texts of cli_cmd_list, in the same order. */
  const CmdDescriptions: seq<string> := [
    "Read CPLD revision", "Write CPLD revision", "Set threshold to 17_V",
    "Set threshold to 33_V", "Set threshold to 84_V", "Set threshold to 166_V",
    "Read threshold status", "Set Dry mode", "Set Wet mode", "Read Dry/Wet status",
    "Enable sync", "Disable sync", "Read sync status", "Read/print full status",
    "Reset system", "Toggle relay AA", "Toggle relay AB", "Toggle relay CA", "Toggle relay CB",
    "Toggle relay CC", "Toggle relay 12V rail", "Read RLY 12V rail status",
    "All Relays status", "Read status for all inputs", "Toggle relays ON", "Toggle relays OFF",
    "Show help", "Exit CLI and close app.", "Toggle verbose-silent mode.", ""
  ]

  /** The whole table, cli_cmd_list. */
  const CliCmdList: seq<CliCmd> :=
    seq(MaxCommands, i requires 0 <= i < MaxCommands => CliCmd(CmdNames[i], CmdDescriptions[i]))

  /** The command indexes (en_cli_cmd_indx); each equals its name's table position. */
  const CmdCpldRevR := 0
  const CmdCpldRevW := 1
  const CmdThresh17 := 2
  const CmdThresh33 := 3
  const CmdThresh84 := 4
  const CmdThresh166 := 5
  const CmdThreshQ := 6
  const CmdDryWetD := 7
  const CmdDryWetW := 8
  const CmdDryWetQ := 9
  const CmdSyncYes := 10
  const CmdSyncNo := 11
  const CmdSyncQ := 12
  const CmdUutStatusQ := 13
  const CmdReset := 14
  const CmdRelayAA := 15
  const CmdRelayAB := 16
  const CmdRelayCA := 17
  const CmdRelayCB := 18
  const CmdRelayCC := 19
  const Cmd12vRlRail := 20
  const Cmd12vRlRailQ := 21
  const CmdRelayStatusQ := 22
  const CmdInputStatusQ := 23
  const CmdRelaysOn := 24
  const CmdRelaysOff := 25
  const CmdHelp := 26
  const CmdExit := 27
  const CmdDebug := 28
  const CmdUnknown := 29

  /** Index of the sentinel entry. */
  const Sentinel := MaxCommands - 1

  /** The names of the real commands (indexes 0..28). */
  function Name(i: nat): string
    requires i < MaxCommands
  {
    CmdNames[i]
  }

  /**
   * The table scan from index i on: the first entry whose name equals the
   * input exactly, or -1 once the empty-name sentinel is reached.
   */
  function Scan(input: string, i: nat): (r: int)
    requires i < MaxCommands
    decreases MaxCommands - i
    ensures r == -1 || i <= r < Sentinel
    ensures r >= 0 ==> Name(r) == input && forall j :: i <= j < r ==> Name(j) != input
    ensures r == -1 ==> forall j :: i <= j < Sentinel ==> Name(j) != input
  {
    if Name(i) == "" then -1
    else if Name(i) == input then i
    else Scan(input, i + 1)
  }

  /**
   * process_uart_cmd: "-help" is answered before the scan; otherwise the
   * index of the first exactly matching name, or -1.
   */
  function ProcessUartCmd(input: string): (r: int)
    ensures r == -1 || 0 <= r < Sentinel
    ensures r >= 0 ==> Name(r) == input
    ensures r >= 0 ==> forall j :: 0 <= j < r ==> Name(j) != input
    ensures r == -1 <==> forall j :: 0 <= j < Sentinel ==> Name(j) != input
  {
    if input == "-help" then CmdHelp else Scan(input, 0)
  }

  /** The table has 29 named entries and the sentinel at index MaxCommands - 1. */
  lemma TableShape()
    ensures |CmdNames| == |CmdDescriptions| == |CliCmdList| == MaxCommands
    ensures forall i :: 0 <= i < Sentinel ==> CliCmdList[i].name != ""
    ensures CliCmdList[Sentinel] == CliCmd("", "") && CmdUnknown == Sentinel
  {
  }

  /** Each index constant is the position of its command's name (indexes 0..5). */
  lemma IndexesMatchNamesLow()
    ensures CmdNames[CmdCpldRevR] == "cpld_rev_?" && CmdNames[CmdCpldRevW] == "cpld_rev_w"
    ensures CmdNames[CmdThresh17] == "thresh_17" && CmdNames[CmdThresh33] == "thresh_33"
    ensures CmdNames[CmdThresh84] == "thresh_84" && CmdNames[CmdThresh166] == "thresh_166"
  {
  }

  /** Each index constant is the position of its command's name (indexes 6..9). */
  lemma IndexesMatchNamesQueries()
    ensures CmdNames[CmdThreshQ] == "thresh_?" && CmdNames[CmdDryWetD] == "dry_wet_d"
    ensures CmdNames[CmdDryWetW] == "dry_wet_w" && CmdNames[CmdDryWetQ] == "dry_wet_?"
  {
  }

  /** Each index constant is the position of its command's name (indexes 10..19). */
  lemma IndexesMatchNamesMid()
    ensures CmdNames[CmdSyncYes] == "sync_yes" && CmdNames[CmdSyncNo] == "sync_no"
    ensures CmdNames[CmdSyncQ] == "sync_?" && CmdNames[CmdUutStatusQ] == "uut_status_?"
    ensures CmdNames[CmdReset] == "reset" && CmdNames[CmdRelayAA] == "relay_aa"
    ensures CmdNames[CmdRelayAB] == "relay_ab" && CmdNames[CmdRelayCA] == "relay_ca"
    ensures CmdNames[CmdRelayCB] == "relay_cb" && CmdNames[CmdRelayCC] == "relay_cc"
  {
  }

  /** Each index constant is the position of its command's name (indexes 20..28). */
  lemma IndexesMatchNamesHigh()
    ensures CmdNames[Cmd12vRlRail] == "relay_12v_rl" && CmdNames[Cmd12vRlRailQ] == "relay_12v_?"
    ensures CmdNames[CmdRelayStatusQ] == "relays_?" && CmdNames[CmdInputStatusQ] == "input_status_?"
    ensures CmdNames[CmdRelaysOn] == "relays_on" && CmdNames[CmdRelaysOff] == "relays_off"
    ensures CmdNames[CmdHelp] == "-help" && CmdNames[CmdExit] == "exit" && CmdNames[CmdDebug] == "debug"
  {
  }

  /** Every name fits the line buffer: at most 14 characters, and "input_status_?" has 14. */
  lemma NamesFitBuffer()
    ensures forall i :: 0 <= i < Sentinel ==> |Name(i)| <= 14 <= CmdBufferSize - 1
    ensures |Name(CmdInputStatusQ)| == 14
  {
  }

  /** '?' appears in a name only as its last character. */
  lemma QueryMarkOnlyLast()
    ensures forall i, k :: 0 <= i < Sentinel && 0 <= k < |Name(i)| && Name(i)[k] == '?' ==> k == |Name(i)| - 1
  {
  }

  /** The names are pairwise distinct, so the first match is the only match. */
  lemma NamesDistinct()
    ensures forall i, j :: 0 <= i < j < Sentinel ==> Name(i) != Name(j)
  {
  }

  /** Looking up a table name gives back its own index. */
  lemma {:induction false} LookupFindsName(i: nat)
    requires i < Sentinel
    ensures ProcessUartCmd(Name(i)) == i
  {
    NamesDistinct();
  }

  /** The "-help" shortcut agrees with what the scan alone would return. */
  lemma HelpShortcutAgrees()
    ensures Scan("-help", 0) == CmdHelp
  {
    assert Name(CmdHelp) == "-help";
    assert forall j :: 0 <= j < CmdHelp ==> Name(j) != "-help";
  }
}
