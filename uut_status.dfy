/**
 * Decoding of the seven-word status read that all three revisions share:
 * each flag is one mask test on a status word, and the threshold is read
 * back from bits 10-11 with the priority 17V, 33V, 84V, 166V.
 */
module UutStatus {
  import opened Wrappers
  import opened UutFrame

  datatype Threshold = V17 | V33 | V84 | V166

  /** What one status read reports; `None` marks a group the command does not show. */
  datatype Status = Status(
    frameError: bool,
    commandError: bool,
    threshold: Option<Threshold>,
    dry: Option<bool>,
    sync: Option<bool>,
    railOff: Option<bool>,
    coilError: Option<bool>,
    relays: Option<seq<bool>>,
    inputs: Option<seq<bool>>,
    cpld: Option<(bv32, bv32)>)

  /** A read word keeps only its low 16 bits (`out_data & 0xFFFF`). */
  function Mask16(w: bv32): (m: bv32)
    ensures m < 0x1_0000
    ensures forall k: nat :: k < 16 ==> (Bit(m, k) <==> Bit(w, k))
  {
    w & 0xFFFF
  }

  /** Frame error: mask 0x8000 of the second status word. */
  predicate FrameError(w2: bv32)
    ensures FrameError(w2) <==> Bit(w2, 15)
  {
    w2 & 0x8000 != 0
  }

  /** Command error: mask 0x5000, which takes bit 12 (the coil-error bit) as well as bit 14. */
  predicate CommandError(w2: bv32)
    ensures CommandError(w2) <==> Bit(w2, 14) || Bit(w2, 12)
  {
    w2 & 0x5000 != 0
  }

  /** 12V relay rail reported off: mask 0x2000. */
  predicate RailOff(w2: bv32)
    ensures RailOff(w2) <==> Bit(w2, 13)
  {
    w2 & 0x2000 != 0
  }

  /** Coil error: mask 0x1000. */
  predicate CoilError(w2: bv32)
    ensures CoilError(w2) <==> Bit(w2, 12)
  {
    w2 & 0x1000 != 0
  }

  /** Dry mode reported: mask 0x200. */
  predicate DryOf(w2: bv32)
    ensures DryOf(w2) <==> Bit(w2, 9)
  {
    w2 & 0x200 != 0
  }

  /** Synchronisation reported: mask 0x100. */
  predicate SyncOf(w2: bv32)
    ensures SyncOf(w2) <==> Bit(w2, 8)
  {
    w2 & 0x100 != 0
  }

  /** The threshold read back, both bits first, then bit 10, then bit 11. */
  function ThresholdOf(w2: bv32): (t: Threshold)
    ensures t == V17 <==> Bit(w2, 10) && Bit(w2, 11)
    ensures t == V33 <==> Bit(w2, 10) && !Bit(w2, 11)
    ensures t == V84 <==> !Bit(w2, 10) && Bit(w2, 11)
    ensures t == V166 <==> !Bit(w2, 10) && !Bit(w2, 11)
  {
    if w2 & 0xC00 == 0xC00 then V17
    else if w2 & 0x400 == 0x400 then V33
    else if w2 & 0x800 == 0x800 then V84
    else V166
  }

  /** The threshold a two-bit code in bits 11:10 reads as: 11 is 17 V, 01 is 33 V, 10 is 84 V, 00 is 166 V. */
  function ThresholdOfCode(c: bv32): Threshold
  {
    if c == 3 then V17 else if c == 1 then V33 else if c == 2 then V84 else V166
  }

  /** The decoder depends on bits 11:10 only. */
  lemma ThresholdOfBits(w2: bv32)
    ensures ThresholdOf(w2) == ThresholdOfCode((w2 >> 10) & 3)
  {
  }

  /** Relays AA, AB, CA, CB, CC, from masks 0x01 .. 0x10 of the third status word. */
  function RelaysOf(w3: bv32): (r: seq<bool>)
    ensures |r| == 5
    ensures forall i: nat :: i < 5 ==> (r[i] <==> Bit(w3, i))
  {
    [w3 & 0x01 != 0, w3 & 0x02 != 0, w3 & 0x04 != 0, w3 & 0x08 != 0, w3 & 0x10 != 0]
  }

  /** Inputs 1..7, from masks 0x01 .. 0x40 of the fourth status word: input k is bit k-1. */
  function InputsOf(w4: bv32): (r: seq<bool>)
    ensures |r| == 7
    ensures forall i: nat :: i < 7 ==> (r[i] <==> Bit(w4, i))   // r[i] is input i+1
  {
    [w4 & 0x01 != 0, w4 & 0x02 != 0, w4 & 0x04 != 0, w4 & 0x08 != 0,
     w4 & 0x10 != 0, w4 & 0x20 != 0, w4 & 0x40 != 0]
  }

  /** A coil error is always also reported as a command error, since 0x5000 covers 0x1000. */
  lemma CoilErrorIsCommandError(w2: bv32)
    requires CoilError(w2)
    ensures CommandError(w2)
  {
  }

  /** The decoders look only at the low 16 bits, so masking the read word changes nothing. */
  lemma DecodersIgnoreHighBits(w: bv32)
    ensures FrameError(Mask16(w)) == FrameError(w) && CommandError(Mask16(w)) == CommandError(w)
    ensures RailOff(Mask16(w)) == RailOff(w) && CoilError(Mask16(w)) == CoilError(w)
    ensures DryOf(Mask16(w)) == DryOf(w) && SyncOf(Mask16(w)) == SyncOf(w)
    ensures ThresholdOf(Mask16(w)) == ThresholdOf(w)
    ensures RelaysOf(Mask16(w)) == RelaysOf(w) && InputsOf(Mask16(w)) == InputsOf(w)
  {
  }
}
