/**
 * The session loop of Vic/main.c that drives the Zynq engine: poll a line,
 * look it up, handle the meta commands (exit, debug, -help, unknown)
 * without touching the hardware, and for every other command pulse the
 * reset line, send one frame and read the status back. The fields handed
 * to the encoder are always the initial ones, since the loop never
 * reassigns them and the encoder takes them by value.
 */
module VicSession {
  import opened Wrappers
  import opened UutFrame
  import opened UutStatus
  import opened ZynqCli
  import opened ZynqBramCmd
  import opened LineAssembler

  /** st_frame_bits as main initialises it: ReadRequest, Mod_Id, 166 V, Wet, NoSync, relays off. */
  const InitialFrameBits := CommandBlocks(ReadRequest, ModIdCode, Threshold166V, Wet, NoSync, 0, 0, 0, 0, 0)

  /** The level main drives the FPGA reset output to before each frame. */
  const ResetLevel: bv32 := 1

  /** How the loop treats a looked-up index. */
  datatype Route = Exit | ToggleDebug | Ignore | Send

  function RouteOf(index: int): (r: Route)
    ensures r == Exit <==> index == CmdExit
    ensures r == ToggleDebug <==> index == CmdDebug
    ensures r == Ignore <==> index == CmdHelp || index == -1
  {
    if index == CmdExit then Exit
    else if index == CmdDebug then ToggleDebug
    else if index == CmdHelp || index == -1 then Ignore
    else Send
  }

  /** What the status read decoded for one sent command. */
  datatype Report = Report(index: int, status: Status)

  /** The hardware events of one sent command, with the counter at sh. */
  function FrameOf(index: int, sh: nat): (e: seq<Event>)
    requires sh <= ShWrap
    ensures |e| == 1 + |HandlerGpio(index)| + 5
    ensures e[0] == GpioWrite(ResetLevel) && e[1..] == WriteEvents(index, InitialFrameBits, sh)
  {
    [GpioWrite(ResetLevel)] + WriteEvents(index, InitialFrameBits, sh)
  }

  /** The counter after the commands in sent, starting from sh. */
  function ShAfterSent(sh: nat, sent: seq<int>): (r: nat)
    requires sh <= ShWrap
    ensures r <= ShWrap
  {
    if sent == [] then sh
    else NextShNum(ShAfterSent(sh, sent[..|sent| - 1]), Handler(sent[|sent| - 1], InitialFrameBits).synchr)
  }

  /** The hardware events of a run of sent commands. */
  function SessionTrace(sh: nat, sent: seq<int>): seq<Event>
    requires sh <= ShWrap
  {
    if sent == [] then []
    else SessionTrace(sh, sent[..|sent| - 1]) + FrameOf(sent[|sent| - 1], ShAfterSent(sh, sent[..|sent| - 1]))
  }

  /** The indexes that send a frame, in order. */
  function SentOf(indexes: seq<int>): (s: seq<int>)
    ensures |s| <= |indexes|
    ensures forall k :: 0 <= k < |s| ==> RouteOf(s[k]) == Send
  {
    if indexes == [] then []
    else SentOf(indexes[..|indexes| - 1])
         + (if RouteOf(indexes[|indexes| - 1]) == Send then [indexes[|indexes| - 1]] else [])
  }

  /** The debug flag after the indexes, each `debug` flipping it. */
  function DebugAfter(d: bool, indexes: seq<int>): bool
  {
    if indexes == [] then d
    else var before := DebugAfter(d, indexes[..|indexes| - 1]);
      if indexes[|indexes| - 1] == CmdDebug then !before else before
  }

  /** How many times x occurs in s. */
  function CountOf(x: int, s: seq<int>): nat
  {
    if s == [] then 0
    else CountOf(x, s[..|s| - 1]) + (if s[|s| - 1] == x then 1 else 0)
  }

  /** The debug flag ends up flipped exactly when debug was entered an odd number of times. */
  lemma {:induction false} DebugParity(d: bool, indexes: seq<int>)
    ensures DebugAfter(d, indexes) == (d != (CountOf(CmdDebug, indexes) % 2 == 1))
    decreases |indexes|
  {
    if indexes != [] {
      DebugParity(d, indexes[..|indexes| - 1]);
    }
  }

  /** The reports of the sent commands, the k-th read seeing the status words status(k). */
  function ReportsOf(sent: seq<int>, status: nat -> seq<bv32>): (r: seq<Report>)
    requires forall k :: |status(k)| == 7
    ensures |r| == |sent|
  {
    if sent == [] then []
    else ReportsOf(sent[..|sent| - 1], status)
         + [Report(sent[|sent| - 1], DecodeStatus(sent[|sent| - 1], status(|sent| - 1)))]
  }

  predicate NoExit(indexes: seq<int>)
  {
    forall k :: 0 <= k < |indexes| ==> indexes[k] != CmdExit
  }

  /** The state of main: the Debug flag, the fields, the line reader, the engine, and the reports read so far. */
  class Session {
    var debug: bool
    const frameBits: CommandBlocks
    const reader: LineReader
    const engine: Engine
    var reports: seq<Report>

    ghost predicate Valid()
      reads this, reader, engine
    {
      reader.Valid() && engine.Valid() && frameBits == InitialFrameBits
    }

    constructor ()
      ensures Valid() && debug && reports == []
      ensures fresh(reader) && fresh(reader.buffer) && fresh(engine)
      ensures reader.Pending() == [] && engine.shNum == 0 && engine.trace == []
    {
      debug := true;
      frameBits := InitialFrameBits;
      reader := new LineReader();
      engine := new Engine();
      reports := [];
    }

    /**
     * One pass of the loop after the lookup: exit leaves, debug flips the
     * flag, -help and unknown commands go round again, and anything else
     * pulses reset, writes a frame from the initial fields and reads the
     * status words region back.
     */
    method Dispatch(index: int, region: seq<bv32>) returns (exit: bool)
      requires Valid() && |region| == 7
      modifies this, engine
      ensures Valid()
      ensures exit <==> index == CmdExit
      ensures debug == (if index == CmdDebug then !old(debug) else old(debug))
      ensures RouteOf(index) != Send ==>
        engine.trace == old(engine.trace) && engine.shNum == old(engine.shNum) && reports == old(reports)
      ensures RouteOf(index) == Send ==>
        && engine.trace == old(engine.trace) + FrameOf(index, old(engine.shNum))
        && engine.shNum == NextShNum(old(engine.shNum), Handler(index, InitialFrameBits).synchr)
        && reports == old(reports) + [Report(index, DecodeStatus(index, region))]
    {
      exit := false;
      if index == CmdExit {
        exit := true;
        return;
      }
      if index == CmdDebug {
        debug := !debug;
        return;
      }
      if index == CmdHelp || index == -1 {
        return;
      }
      ghost var before := engine.trace;
      engine.trace := engine.trace + [GpioWrite(ResetLevel)];
      engine.CmdBramWrite(frameBits, index);
      AppendAssoc(before, [GpioWrite(ResetLevel)], WriteEvents(index, InitialFrameBits, old(engine.shNum)));
      var status := CmdBramRead(index, region);
      reports := reports + [Report(index, status)];
    }

    /**
     * The state after the looked-up commands indexes, none of them exit,
     * starting from the hardware log trace0, the reports reports0, the
     * counter sh0 and the flag debug0.
     */
    ghost predicate Replays(trace0: seq<Event>, reports0: seq<Report>, sh0: nat, debug0: bool,
                            indexes: seq<int>, status: nat -> seq<bv32>)
      requires sh0 <= ShWrap && forall k :: |status(k)| == 7
      reads this, engine
    {
      && reports == reports0 + ReportsOf(SentOf(indexes), status)
      && engine.trace == trace0 + SessionTrace(sh0, SentOf(indexes))
      && engine.shNum == ShAfterSent(sh0, SentOf(indexes))
      && debug == DebugAfter(debug0, indexes)
    }

    /**
     * One received line inside the loop: looked up as the C string in
     * the buffer, then dispatched, the k-th read seeing status(k).
     */
    method Step(line: string, status: nat -> seq<bv32>, sentCount: nat,
                ghost trace0: seq<Event>, ghost reports0: seq<Report>, ghost sh0: nat, ghost debug0: bool,
                ghost indexes: seq<int>)
      returns (exit: bool, sentAfter: nat, index: int, ghost after: seq<int>)
      requires Valid() && sh0 <= ShWrap && forall k :: |status(k)| == 7
      requires NoExit(indexes) && sentCount == |SentOf(indexes)|
      requires Replays(trace0, reports0, sh0, debug0, indexes, status)
      modifies this, engine
      ensures Valid()
      ensures index == ProcessUartCmd(CString(line))
      ensures exit <==> index == CmdExit
      ensures exit ==> Replays(trace0, reports0, sh0, debug0, indexes, status)
      ensures after == indexes + [index]
      ensures !exit ==> NoExit(after) && sentAfter == |SentOf(after)|
      ensures !exit ==> Replays(trace0, reports0, sh0, debug0, after, status)
    {
      index := ProcessUartCmd(CString(line));
      after := indexes + [index];
      ghost var sent := SentOf(indexes);
      ghost var sh := engine.shNum;
      exit := Dispatch(index, status(sentCount));
      sentAfter := sentCount;
      LastStep(indexes, index, debug0);
      assert !exit ==> debug == DebugAfter(debug0, indexes + [index]);
      if exit {
      } else if RouteOf(index) == Send {
        SentStep(trace0, reports0, sh0, sent, index, status);
        sentAfter := sentCount + 1;
      } else {
        assert SentOf(indexes + [index]) == sent;
      }
    }

    /**
     * The loop of main over the bytes that arrive: it ends at exit, or
     * when the bytes run out (where main would go on waiting). indexes
     * are the looked-up commands in order.
     */
    method Run(input: seq<char>, status: nat -> seq<bv32>) returns (exited: bool, ghost indexes: seq<int>)
      requires Valid() && forall k :: |status(k)| == 7
      modifies this, reader, reader.buffer, engine
      ensures Valid()
      ensures exited ==> |indexes| > 0 && indexes[|indexes| - 1] == CmdExit
      ensures var done := if exited then indexes[..|indexes| - 1] else indexes;
        && NoExit(done)
        && Replays(old(engine.trace), old(reports), old(engine.shNum), old(debug), done, status)
    {
      var pos := 0;
      var sentCount := 0;
      exited := false;
      indexes := [];
      while pos < |input|
        invariant Valid() && pos <= |input|
        invariant NoExit(indexes) && sentCount == |SentOf(indexes)|
        invariant Replays(old(engine.trace), old(reports), old(engine.shNum), old(debug), indexes, status)
        decreases |input| - pos
      {
        var line, used := reader.Poll(input[pos..]);
        pos := pos + used;
        if line.Some? {
          var exit, index;
          ghost var prior := indexes;
          exit, sentCount, index, indexes := Step(line.value, status, sentCount,
                                  old(engine.trace), old(reports), old(engine.shNum), old(debug), indexes);
          if exit {
            assert indexes[..|indexes| - 1] == prior;
            exited := true;
            return;
          }
        }
      }
    }
  }

  /** Appending one looked-up command to indexes, in terms of the sequence before it. */
  lemma LastStep(indexes: seq<int>, index: int, d: bool)
    ensures NoExit(indexes) && index != CmdExit ==> NoExit(indexes + [index])
    ensures SentOf(indexes + [index]) == SentOf(indexes) + (if RouteOf(index) == Send then [index] else [])
    ensures DebugAfter(d, indexes + [index]) == (if index == CmdDebug then !DebugAfter(d, indexes) else DebugAfter(d, indexes))
  {
    assert (indexes + [index])[..|indexes|] == indexes;
  }

  /** Appending one sent command to sent extends the log, the counter and the reports by that command alone. */
  lemma SentStep(trace0: seq<Event>, reports0: seq<Report>, sh0: nat, sent: seq<int>, index: int,
                 status: nat -> seq<bv32>)
    requires sh0 <= ShWrap && forall k :: |status(k)| == 7
    ensures trace0 + SessionTrace(sh0, sent + [index])
            == trace0 + SessionTrace(sh0, sent) + FrameOf(index, ShAfterSent(sh0, sent))
    ensures ShAfterSent(sh0, sent + [index])
            == NextShNum(ShAfterSent(sh0, sent), Handler(index, InitialFrameBits).synchr)
    ensures reports0 + ReportsOf(sent + [index], status)
            == reports0 + ReportsOf(sent, status) + [Report(index, DecodeStatus(index, status(|sent|)))]
  {
    assert (sent + [index])[..|sent|] == sent;
    AppendAssoc(trace0, SessionTrace(sh0, sent), FrameOf(index, ShAfterSent(sh0, sent)));
    AppendAssoc(reports0, ReportsOf(sent, status), [Report(index, DecodeStatus(index, status(|sent|)))]);
  }

  /** The relay word of a frame whose handler writes no GPIO sits fourth in it. */
  lemma FrameRelayWord(index: int, sh: nat)
    requires sh <= ShWrap && HandlerGpio(index) == []
    ensures |FrameOf(index, sh)| == 6
    ensures FrameOf(index, sh)[3] == BramWrite(0x08, RelayWordOf(Handler(index, InitialFrameBits)))
  {
    var t := Handler(index, InitialFrameBits);
    var f := FrameEvents(CmdFrame1, ControlWordOf(t, sh), RelayWordOf(t), CmdFrame4, CmdFrame5);
    assert WriteEvents(index, InitialFrameBits, sh) == f;
    assert FrameOf(index, sh) == [GpioWrite(ResetLevel)] + f;
  }

  /** relay_aa from the initial fields switches relay AA on and nothing else, with no GPIO write. */
  lemma RelayAAFromInitial()
    ensures HandlerGpio(CmdRelayAA) == []
    ensures RelayWordOf(Handler(CmdRelayAA, InitialFrameBits)) == 0x4001
  {
    var r := Handler(CmdRelayAA, InitialFrameBits);
    assert ActionOf(CmdRelayAA) == Toggle(AA);
    assert r == InitialFrameBits.(commandType := WriteRequest, relayAA := 1);
  }

  /**
   * Fields do not carry over between commands: two relay_aa commands in a
   * row both send relay AA on (relay word 0x4001), rather than the second
   * switching it back off.
   */
  lemma RelayToggleDoesNotPersist()
    ensures var t := SessionTrace(0, [CmdRelayAA, CmdRelayAA]);
      |t| == 12 && t[3] == BramWrite(0x08, 0x4001) && t[9] == BramWrite(0x08, 0x4001)
  {
    RelayAAFromInitial();
    var one := [CmdRelayAA];
    assert [CmdRelayAA, CmdRelayAA][..1] == one;
    assert one[..0] == [];
    var sh1 := ShAfterSent(0, one);
    FrameRelayWord(CmdRelayAA, 0);
    FrameRelayWord(CmdRelayAA, sh1);
    var f0, f1 := FrameOf(CmdRelayAA, 0), FrameOf(CmdRelayAA, sh1);
    assert SessionTrace(0, one) == f0;
    assert SessionTrace(0, [CmdRelayAA, CmdRelayAA]) == f0 + f1;
    assert (f0 + f1)[9] == f1[3];
  }
}
