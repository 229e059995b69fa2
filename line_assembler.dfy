/**
 * uart_cli_poll: the per-byte command-line assembler both controller
 * revisions use. Bytes arrive one by one; CR or LF ends a non-empty line,
 * a terminator on an empty buffer is ignored, and other bytes are stored
 * while there is room for them and the closing NUL.
 */
module LineAssembler {
  import opened Wrappers
  import opened ZynqCli

  /** The most characters a line can hold: one slot of the buffer is kept for the NUL. */
  const MaxLine := CmdBufferSize - 1

  predicate IsTerminator(c: char)
  {
    c == '\r' || c == '\n'
  }

  /** A line with no terminator in it. */
  predicate NoTerminator(s: string)
  {
    forall k :: 0 <= k < |s| ==> !IsTerminator(s[k])
  }

  /** What one call of the poll does: the line it returns, if any, the bytes it took, and what it leaves buffered. */
  datatype PollResult = PollResult(line: Option<string>, consumed: nat, pending: string)

  function Shift(r: PollResult): PollResult
  {
    r.(consumed := r.consumed + 1)
  }

  /**
   * The poll as a function of what is buffered and of the bytes that
   * arrive. When the bytes run out before a line is complete, nothing is
   * returned; the C loop would go on waiting.
   */
  function Assemble(pending: string, input: seq<char>): (r: PollResult)
    requires |pending| <= MaxLine
    ensures r.consumed <= |input|
    ensures |r.pending| <= MaxLine
    ensures r.line.None? ==> r.consumed == |input|
    ensures r.line.Some? ==>
      && 1 <= |r.line.value| <= MaxLine
      && r.pending == []
      && 1 <= r.consumed && IsTerminator(input[r.consumed - 1])
    ensures NoTerminator(pending) ==> NoTerminator(r.pending)
    ensures NoTerminator(pending) && r.line.Some? ==> NoTerminator(r.line.value)
    decreases |input|
  {
    if input == [] then PollResult(None, 0, pending)
    else if IsTerminator(input[0]) then
      if |pending| > 0 then PollResult(Some(pending), 1, [])
      else Shift(Assemble(pending, input[1..]))
    else if |pending| < MaxLine then Shift(Assemble(pending + [input[0]], input[1..]))
    else Shift(Assemble(pending, input[1..]))
  }

  /**
   * A line of text closed by a terminator comes back as the buffered text
   * followed by the line, cut at 17 characters, and the terminator is the
   * last byte taken.
   */
  lemma {:induction false} LineComesBack(pending: string, s: string, t: char)
    requires |pending| <= MaxLine && NoTerminator(s) && IsTerminator(t)
    requires |pending| + |s| > 0
    ensures var r := Assemble(pending, s + [t]);
      var n := if |pending| + |s| < MaxLine then |pending| + |s| else MaxLine;
      r.line == Some((pending + s)[..n]) && r.consumed == |s| + 1 && r.pending == []
    decreases |s|
  {
    var input := s + [t];
    if s == [] {
      assert input[0] == t;
      assert (pending + s)[..|pending|] == pending;
    } else {
      assert input[0] == s[0] && input[1..] == s[1..] + [t];
      assert !IsTerminator(s[0]);
      if |pending| < MaxLine {
        LineComesBack(pending + [s[0]], s[1..], t);
        assert pending + [s[0]] + s[1..] == pending + s;
      } else {
        LineComesBack(pending, s[1..], t);
        assert (pending + s[1..])[..MaxLine] == pending == (pending + s)[..MaxLine];
      }
    }
  }

  /** A terminator with nothing buffered is skipped: the poll goes on with the next byte. */
  lemma EmptyLineSkipped(t: char, rest: seq<char>)
    requires IsTerminator(t)
    ensures Assemble([], [t] + rest) == Shift(Assemble([], rest))
  {
    assert ([t] + rest)[1..] == rest;
  }

  /** The text of a C string: everything before the first NUL. */
  function CString(s: seq<char>): (r: string)
    ensures |r| <= |s|
    ensures r == s[..|r|]
    ensures forall k :: 0 <= k < |r| ==> r[k] != '\0'
    ensures |r| < |s| ==> s[|r|] == '\0'
  {
    if s == [] || s[0] == '\0' then [] else [s[0]] + CString(s[1..])
  }

  /**
   * The two static variables of uart_cli_poll: the 18-byte buffer and the
   * index of the next free slot.
   */
  class LineReader {
    const buffer: array<char>
    var bufferIndex: nat

    ghost predicate Valid()
      reads this
    {
      buffer.Length == CmdBufferSize && bufferIndex <= MaxLine
    }

    /** The characters buffered so far. */
    ghost function Pending(): string
      reads this, buffer
      requires Valid()
    {
      buffer[..bufferIndex]
    }

    constructor ()
      ensures Valid() && bufferIndex == 0 && fresh(buffer)
    {
      buffer := new char[CmdBufferSize](_ => '\0');
      bufferIndex := 0;
    }

    /**
     * Takes bytes from input until a line is complete. The returned line is
     * also left in the buffer as a NUL-terminated C string.
     */
    method Poll(input: seq<char>) returns (line: Option<string>, consumed: nat)
      requires Valid()
      modifies this, buffer
      ensures Valid()
      ensures var r := Assemble(old(Pending()), input);
        line == r.line && consumed == r.consumed && Pending() == r.pending
      ensures line.Some? ==> buffer[..|line.value| + 1] == line.value + ['\0']
    {
      ghost var start := Pending();
      var i := 0;
      while i < |input|
        invariant Valid()
        invariant 0 <= i <= |input|
        invariant Assemble(start, input) == ShiftBy(i, Assemble(Pending(), input[i..]))
        decreases |input| - i
      {
        var recvChar := input[i];
        ghost var before := Pending();
        assert input[i..][0] == recvChar && input[i..][1..] == input[i + 1..];
        if recvChar == '\r' || recvChar == '\n' {
          if bufferIndex > 0 {
            buffer[bufferIndex] := '\0';
            line := Some(buffer[..bufferIndex]);
            assert line.value == before;
            bufferIndex := 0;
            consumed := i + 1;
            return;
          }
          assert Assemble(before, input[i..]) == Shift(Assemble(Pending(), input[i + 1..]));
        } else if bufferIndex < CmdBufferSize - 1 {
          buffer[bufferIndex] := recvChar;
          bufferIndex := bufferIndex + 1;
          assert Pending() == before + [recvChar];
          assert Assemble(before, input[i..]) == Shift(Assemble(Pending(), input[i + 1..]));
        } else {
          assert Assemble(before, input[i..]) == Shift(Assemble(Pending(), input[i + 1..]));
        }
        ShiftByStep(i, Assemble(Pending(), input[i + 1..]));
        i := i + 1;
      }
      line, consumed := None, |input|;
    }
  }

  /** r with i more bytes counted as taken. */
  function ShiftBy(i: nat, r: PollResult): PollResult
  {
    r.(consumed := r.consumed + i)
  }

  lemma ShiftByStep(i: nat, r: PollResult)
    ensures ShiftBy(i, Shift(r)) == ShiftBy(i + 1, r)
  {
  }
}
