/**
 * The register frames of the AMC131M0x SPI driver. Every transfer is 15
 * bytes. A register command puts a three-bit opcode and bits 5..1 of the
 * address in the first byte and bit 0 of the address in the top bit of
 * the second; a write adds the 16-bit value big-endian in bytes 3 and 4.
 * Bytes are Python integers 0..255. Since the opcode bits 0xA0 and 0x60
 * have their low five bits clear and addr >> 1 is below 32, the source's
 * OR of the two is their sum (HeaderOrIsSum).
 */
module Amc13x {
  import opened Wrappers

  /** Length of every SPI transfer. */
  const FrameLength := 15
  /** The opcode bits of a register read and of a register write. */
  const ReadOpcode := 0xA0
  const WriteOpcode := 0x60
  /** The gain register. */
  const GainReg := 0x04

  predicate IsByte(b: int)
  {
    0 <= b < 256
  }

  predicate IsFrame(f: seq<int>)
  {
    |f| == FrameLength && forall i :: 0 <= i < |f| ==> IsByte(f[i])
  }

  /** n zero bytes. */
  function Zeros(n: nat): (z: seq<int>)
    ensures |z| == n && forall i :: 0 <= i < n ==> z[i] == 0
  {
    seq(n, _ => 0)
  }

  /** The first two bytes of a register command with the given opcode bits. */
  function CommandBytes(opcode: int, addr: int): seq<int>
    requires 0 <= addr <= 63
  {
    [opcode + addr / 2, (addr % 2) * 128]
  }

  /** read_reg's first transfer, or the ValueError for an address outside 0..63. */
  function ReadFrame(addr: int): (r: Result<seq<int>>)
    ensures r.Ok? <==> 0 <= addr <= 63
    ensures r.Ok? ==> IsFrame(r.value) && forall i :: 2 <= i < FrameLength ==> r.value[i] == 0
    ensures r.Ok? ==> r.value[0] == ReadOpcode + addr / 2 && r.value[1] == (addr % 2) * 128
  {
    if !(0 <= addr <= 63) then Err("Register address out of range (0-63).")
    else Ok(CommandBytes(ReadOpcode, addr) + [0] + Zeros(12))
  }

  /** write_reg's transfer, or the ValueError for a bad address or a value outside 16 bits. */
  function WriteFrame(addr: int, value: int): (r: Result<seq<int>>)
    ensures r.Ok? <==> 0 <= addr <= 63 && 0 <= value <= 65535
    ensures r.Ok? ==> IsFrame(r.value) && r.value[2] == 0 && forall i :: 5 <= i < FrameLength ==> r.value[i] == 0
    ensures r.Ok? ==> r.value[0] == WriteOpcode + addr / 2 && r.value[1] == (addr % 2) * 128
    ensures r.Ok? ==> r.value[3] == value / 256 && r.value[4] == value % 256
  {
    if !(0 <= addr <= 63) then Err("Register address out of range (0-63).")
    else if !(0 <= value <= 65535) then Err("Register value out of range (16-bit).")
    else Ok(CommandBytes(WriteOpcode, addr) + [0, value / 256, value % 256] + Zeros(10))
  }

  /** The opcode bits of a command: the top three bits of its first byte. */
  function Opcode(f: seq<int>): int
    requires |f| >= 1
  {
    f[0] / 32
  }

  /** The address a command names: ((b0 & 0x1F) << 1) | (b1 >> 7). */
  function FrameAddress(f: seq<int>): int
    requires |f| >= 2
  {
    (f[0] % 32) * 2 + f[1] / 128
  }

  /** The value a write carries: (b3 << 8) | b4. */
  function FrameValue(f: seq<int>): int
    requires |f| >= 5
  {
    f[3] * 256 + f[4]
  }

  /** A read frame has opcode 0b101 and names its address. */
  lemma ReadFrameDecodes(addr: int)
    requires 0 <= addr <= 63
    ensures Opcode(ReadFrame(addr).value) == 0x5 && FrameAddress(ReadFrame(addr).value) == addr
  {
    var f := ReadFrame(addr).value;
    assert f[0] == 0xA0 + addr / 2 && f[1] == (addr % 2) * 128;
  }

  /** A write frame has opcode 0b011 and carries its address and value. */
  lemma WriteFrameDecodes(addr: int, value: int)
    requires 0 <= addr <= 63 && 0 <= value <= 65535
    ensures Opcode(WriteFrame(addr, value).value) == 0x3
    ensures FrameAddress(WriteFrame(addr, value).value) == addr
    ensures FrameValue(WriteFrame(addr, value).value) == value
  {
    var f := WriteFrame(addr, value).value;
    assert f[0] == 0x60 + addr / 2 && f[1] == (addr % 2) * 128;
    assert f[3] == value / 256 && f[4] == value % 256;
  }

  /** A read and a write command are never the same frame, and neither is the all-zero no-op. */
  lemma CommandsDistinguishable(a1: int, a2: int, value: int)
    requires 0 <= a1 <= 63 && 0 <= a2 <= 63 && 0 <= value <= 65535
    ensures ReadFrame(a1).value != WriteFrame(a2, value).value
    ensures ReadFrame(a1).value != Zeros(FrameLength) && WriteFrame(a2, value).value != Zeros(FrameLength)
  {
    ReadFrameDecodes(a1);
    WriteFrameDecodes(a2, value);
  }

  /** The opcode bits and any h = addr >> 1 below 32 share no bit, so the source's OR is the sum taken here. */
  lemma HeaderOrIsSum(h: bv8)
    requires h < 32
    ensures 0xA0 | h == 0xA0 + h && 0x60 | h == 0x60 + h
  {
  }

  /** A 16-bit word from two big-endian bytes. */
  function BigEndian(hi: int, lo: int): (w: int)
    requires IsByte(hi) && IsByte(lo)
    ensures 0 <= w <= 65535 && w / 256 == hi && w % 256 == lo
  {
    hi * 256 + lo
  }

  /** What one register read exchanges: the frames sent, and the value returned. */
  datatype Exchange = Exchange(sent: seq<seq<int>>, value: int)

  /**
   * read_reg: the read command, then an all-zero transfer whose first two
   * received bytes are the register. rx2 is what that second transfer
   * receives. An out-of-range address fails before anything is sent.
   */
  function ReadReg(addr: int, rx2: seq<int>): (r: Result<Exchange>)
    requires IsFrame(rx2)
    ensures r.Ok? <==> 0 <= addr <= 63
    ensures r.Ok? ==> r.value.sent == [ReadFrame(addr).value, Zeros(FrameLength)]
    ensures r.Ok? ==> 0 <= r.value.value <= 65535
    ensures r.Ok? ==> r.value.value / 256 == rx2[0] && r.value.value % 256 == rx2[1]
  {
    match ReadFrame(addr)
    case Err(e) => Err(e)
    case Ok(tx) => Ok(Exchange([tx, Zeros(FrameLength)], BigEndian(rx2[0], rx2[1])))
  }

  /** get_gain: a read of the gain register. */
  function GetGain(rx2: seq<int>): (r: Result<Exchange>)
    requires IsFrame(rx2)
    ensures r.Ok? && |r.value.sent| == 2 && r.value.sent[0] == ReadFrame(GainReg).value
    ensures FrameAddress(r.value.sent[0]) == GainReg
  {
    ReadFrameDecodes(GainReg);
    ReadReg(GainReg, rx2)
  }

  /** read_raw_adc: the three channel words at bytes 3-4, 6-7 and 9-10 of an all-zero transfer. */
  function ReadRawAdc(rx: seq<int>): (w: seq<int>)
    requires IsFrame(rx)
    ensures |w| == 3
    ensures forall c :: 0 <= c < 3 ==> 0 <= w[c] <= 65535
    ensures forall c :: 0 <= c < 3 ==> w[c] / 256 == rx[3 * c + 3] && w[c] % 256 == rx[3 * c + 4]
  {
    [BigEndian(rx[3], rx[4]), BigEndian(rx[6], rx[7]), BigEndian(rx[9], rx[10])]
  }

  /** The channel read_adc_mv and read_adc_volt sample: 0, 1 or 2 as given, and 0 for anything else. */
  function Channel(ch: int): (c: int)
    ensures 0 <= c < 3
    ensures c == ch <==> 0 <= ch < 3
    ensures !(0 <= ch < 3) ==> c == 0
  {
    if ch !in [0, 1, 2] then 0 else ch
  }

  /** One sample of a channel: the word of a raw read that the channel selects. */
  function ChannelSample(rx: seq<int>, ch: int): (s: int)
    requires IsFrame(rx)
    ensures 0 <= s <= 65535
    ensures s / 256 == rx[3 * Channel(ch) + 3] && s % 256 == rx[3 * Channel(ch) + 4]
  {
    ReadRawAdc(rx)[Channel(ch)]
  }
}
