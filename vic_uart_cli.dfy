/**
 * The older command table of the Vic build and its process_uart_cmd,
 * which classifies a recognised command as a read or a write by whether
 * it contains '?'. The C function returns no value for "-help" and for an
 * unrecognised line; here those give None.
 */
module VicCli {
  import opened Wrappers

  /** Size of the line buffer: the longest line kept is one less. */
  const CmdBufferSize := 18
  /** The declared size of cli_cmd_list. */
  const MaxCommands := 28

  /** The two classifications. */
  const CmdRead := 2
  const CmdWrite := 1

  /**
   * The names of cli_cmd_list with initialisers, in order: 26 commands
   * and the empty-name sentinel. The 28th slot of the array has no
   * initialiser and is never reached.
   */
  const CmdNames: seq<string> := [
    "cpld_rev_r", "cpld_rev_w", "thresh_17", "thresh_33", "thresh_84", "thresh_166",
    "thresh_?", "dry_wet_d", "dry_wet_w", "dry_wet_?", "sync_yes", "sync_no", "sync_?",
    "uut_status_?", "chg_req", "reset", "relay_aa", "relay_ab", "relay_ca", "relay_cb",
    "relay_cc", "relay_all_on", "relay_all_off", "relay_status_?", "input_status_?",
    "-help", ""
  ]

  /** Index of the sentinel entry. */
  const Sentinel := 26

  /** The index of "-help" in the table. */
  const HelpIndex := 25

  function Name(i: nat): string
    requires i <= Sentinel
  {
    CmdNames[i]
  }

  /** The name contains '?' (strchr on the input). */
  predicate HasQueryMark(s: string)
  {
    exists k :: 0 <= k < |s| && s[k] == '?'
  }

  /**
   * The table scan from index i on: the first entry whose name equals the
   * input, or None once the empty-name sentinel is reached.
   */
  function Scan(input: string, i: nat): (r: Option<nat>)
    requires i <= Sentinel
    decreases Sentinel - i
    ensures r.Some? ==> i <= r.value < Sentinel && Name(r.value) == input
    ensures r.Some? ==> forall j :: i <= j < r.value ==> Name(j) != input
    ensures r.None? ==> forall j :: i <= j < Sentinel ==> Name(j) != input
  {
    if Name(i) == "" then None
    else if Name(i) == input then Some(i)
    else Scan(input, i + 1)
  }

  /** Read or write, by whether the line contains '?'. */
  function Classify(input: string): (c: nat)
    ensures c == CmdRead <==> HasQueryMark(input)
    ensures c == CmdRead || c == CmdWrite
  {
    if '?' in input then CmdRead else CmdWrite
  }

  /**
   * process_uart_cmd: "-help" prints the help text; otherwise a line that
   * names a table entry is classified, and any other line is reported as
   * unknown. Only a classified line has a result.
   */
  function ProcessUartCmd(input: string): (r: Option<nat>)
    ensures r.Some? <==> input != "-help" && exists j :: 0 <= j < Sentinel && Name(j) == input
    ensures r.Some? ==> (r.value == CmdRead <==> HasQueryMark(input))
    ensures r.Some? ==> r.value == CmdRead || r.value == CmdWrite
  {
    if input == "-help" then None
    else match Scan(input, 0)
      case None => None
      case Some(_) => Some(Classify(input))
  }

  /** The table fills 27 of the 28 slots, with the sentinel last and every other name non-empty. */
  lemma TableShape()
    ensures |CmdNames| == MaxCommands - 1 == Sentinel + 1
    ensures Name(Sentinel) == "" && Name(HelpIndex) == "-help"
    ensures forall i :: 0 <= i < Sentinel ==> Name(i) != ""
  {
  }

  /** The names are pairwise distinct. */
  lemma NamesDistinct()
    ensures forall i, j :: 0 <= i < j < Sentinel ==> Name(i) != Name(j)
  {
  }

  /** Every name fits the 18-byte line buffer with its terminator. */
  lemma NamesFitBuffer()
    ensures forall i :: 0 <= i < Sentinel ==> |Name(i)| <= CmdBufferSize - 1
  {
  }

  /** '?' appears in a name only as its last character. */
  lemma QueryMarkOnlyLast()
    ensures forall i, k :: 0 <= i < Sentinel && 0 <= k < |Name(i)| && Name(i)[k] == '?' ==> k == |Name(i)| - 1
  {
  }

  /** No name but the one at HelpIndex is "-help". */
  lemma HelpOnlyAtItsIndex()
    ensures forall i :: 0 <= i < Sentinel && i != HelpIndex ==> Name(i) != "-help"
  {
  }

  /**
   * Each command name but "-help" is classified, as a read exactly when
   * it ends in '?'.
   */
  lemma TableNameClassified(i: nat)
    requires i < Sentinel && i != HelpIndex
    ensures ProcessUartCmd(Name(i)) == Some(if Name(i)[|Name(i)| - 1] == '?' then CmdRead else CmdWrite)
  {
    var n := Name(i);
    TableShape();
    HelpOnlyAtItsIndex();
    QueryMarkOnlyLast();
    assert n != "" && n != "-help";
    assert HasQueryMark(n) ==> n[|n| - 1] == '?';
    assert n[|n| - 1] == '?' ==> HasQueryMark(n);
  }

  /** A line that is no table name, or is "-help", has no result. */
  lemma UnknownHasNoResult(input: string)
    requires input == "-help" || forall j :: 0 <= j < Sentinel ==> Name(j) != input
    ensures ProcessUartCmd(input).None?
  {
  }

  /** The names that end in '?' are the six at indexes 6, 9, 12, 13, 23 and 24. */
  lemma QueryNames()
    ensures forall i :: 0 <= i < Sentinel ==> (Name(i)[|Name(i)| - 1] == '?' <==> i in {6, 9, 12, 13, 23, 24})
  {
  }
}
