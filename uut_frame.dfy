/**
 * The command-frame layout that all three controller revisions share:
 * the control word, the relay word, its 16-bit complement, the constant
 * header and footer words, and the five BRAM offsets the frame goes to.
 * Words are 32-bit, as the C code holds them (u32 / unsigned int).
 */
module UutFrame {

  /** Bit positions of the control-word fields. */
  const PosCmdType := 14
  const PosModId := 12
  const PosThreshold := 10
  const PosDryWet := 9
  const PosSync := 8

  /** Constant frame words: header 0x7E with board id 1001, and footer 0x7E. */
  const Header: bv32 := 0x7E09
  const Footer: bv32 := 0x7E

  /** Value of the relay word before any relay is OR-ed in. */
  const RelayBase: bv32 := 0x4000

  /** Byte offsets, within the command region, of the five frame words. */
  const FrameOffsets: seq<bv32> := [0x00, 0x04, 0x08, 0x0C, 0x10]

  /** What the controller does to the hardware, in order. */
  datatype Event =
    | GpioWrite(value: bv32)                 // XGpio_DiscreteWrite on the output channel
    | BramWrite(offset: bv32, word: bv32)    // XBram_WriteReg into the command region

  /** A C `u32` value held as an integer (command fields, counters, codes). */
  type u32 = x: int | 0 <= x < 0x1_0000_0000

  /** The single-bit masks the relay fields use: 1 << 0 .. 1 << 4. */
  predicate IsLowBit(m: int)
  {
    m == 1 || m == 2 || m == 4 || m == 8 || m == 16
  }

  /** The bit of mask m is set in x. */
  predicate BitSet(x: u32, m: int)
    requires IsLowBit(m)
  {
    (x / m) % 2 == 1
  }

  lemma FlipFacts1(x: u32)
    ensures !BitSet(x, 1) ==> x + 1 < 0x1_0000_0000 && BitSet(x + 1, 1)
    ensures BitSet(x, 1) ==> x >= 1 && !BitSet(x - 1, 1)
    ensures !BitSet(x, 1) ==> (x + 1) % 1 == x % 1 && (x + 1) / 2 == x / 2
    ensures BitSet(x, 1) ==> (x - 1) % 1 == x % 1 && (x - 1) / 2 == x / 2
  {
  }

  lemma FlipFacts2(x: u32)
    ensures !BitSet(x, 2) ==> x + 2 < 0x1_0000_0000 && BitSet(x + 2, 2)
    ensures BitSet(x, 2) ==> x >= 2 && !BitSet(x - 2, 2)
    ensures !BitSet(x, 2) ==> (x + 2) % 2 == x % 2 && (x + 2) / 4 == x / 4
    ensures BitSet(x, 2) ==> (x - 2) % 2 == x % 2 && (x - 2) / 4 == x / 4
  {
  }

  lemma FlipFacts4(x: u32)
    ensures !BitSet(x, 4) ==> x + 4 < 0x1_0000_0000 && BitSet(x + 4, 4)
    ensures BitSet(x, 4) ==> x >= 4 && !BitSet(x - 4, 4)
    ensures !BitSet(x, 4) ==> (x + 4) % 4 == x % 4 && (x + 4) / 8 == x / 8
    ensures BitSet(x, 4) ==> (x - 4) % 4 == x % 4 && (x - 4) / 8 == x / 8
  {
  }

  lemma FlipFacts8(x: u32)
    ensures !BitSet(x, 8) ==> x + 8 < 0x1_0000_0000 && BitSet(x + 8, 8)
    ensures BitSet(x, 8) ==> x >= 8 && !BitSet(x - 8, 8)
    ensures !BitSet(x, 8) ==> (x + 8) % 8 == x % 8 && (x + 8) / 16 == x / 16
    ensures BitSet(x, 8) ==> (x - 8) % 8 == x % 8 && (x - 8) / 16 == x / 16
  {
  }

  lemma FlipFacts16(x: u32)
    ensures !BitSet(x, 16) ==> x + 16 < 0x1_0000_0000 && BitSet(x + 16, 16)
    ensures BitSet(x, 16) ==> x >= 16 && !BitSet(x - 16, 16)
    ensures !BitSet(x, 16) ==> (x + 16) % 16 == x % 16 && (x + 16) / 32 == x / 32
    ensures BitSet(x, 16) ==> (x - 16) % 16 == x % 16 && (x - 16) / 32 == x / 32
  {
  }

  /** Setting a clear bit stays within 32 bits and sets it; clearing a set bit clears it. */
  lemma FlipFacts(x: u32, m: int)
    requires IsLowBit(m)
    ensures !BitSet(x, m) ==> x + m < 0x1_0000_0000 && BitSet(x + m, m)
    ensures BitSet(x, m) ==> x >= m && !BitSet(x - m, m)
    ensures !BitSet(x, m) ==> (x + m) % m == x % m && (x + m) / (2 * m) == x / (2 * m)
    ensures BitSet(x, m) ==> (x - m) % m == x % m && (x - m) / (2 * m) == x / (2 * m)
  {
    if m == 1 { FlipFacts1(x); }
    else if m == 2 { FlipFacts2(x); }
    else if m == 4 { FlipFacts4(x); }
    else if m == 8 { FlipFacts8(x); }
    else { FlipFacts16(x); }
  }

  /**
   * `x ^ m` for a single-bit mask m, written in integer arithmetic: the bit
   * is cleared when it is set and set when it is clear.
   */
  function FlipBit(x: u32, m: int): (r: u32)
    requires IsLowBit(m)
    ensures BitSet(r, m) <==> !BitSet(x, m)
    ensures r % m == x % m && r / (2 * m) == x / (2 * m)
    ensures x == 0 ==> r == m
    ensures x == m ==> r == 0
  {
    FlipFacts(x, m);
    if BitSet(x, m) then x - m else x + m
  }

  /** Flipping the same bit twice gives the value back. */
  lemma FlipBitTwice(x: u32, m: int)
    requires IsLowBit(m)
    ensures FlipBit(FlipBit(x, m), m) == x
  {
  }

  /**
   * A u32 field value as the 32-bit word the C code ORs into a command
   * word. The values the command fields and relays take are listed
   * before the general conversion; WordIsCast shows that every case
   * agrees with it.
   */
  function Word(x: u32): bv32
  {
    if x == 0 then 0 else if x == 1 then 1 else if x == 2 then 2 else if x == 3 then 3
    else if x == 4 then 4 else if x == 8 then 8 else if x == 16 then 16
    else x as bv32
  }

  /** Word is the u32-to-32-bit-word conversion. */
  lemma WordIsCast(x: u32)
    ensures Word(x) == x as bv32
  {
  }

  /** A field value below 4 keeps its value as a 32-bit word. */
  lemma SmallWord(x: u32)
    requires x < 4
    ensures Word(x) < 4
  {
  }

  /** Bit k of w is set. */
  predicate Bit(w: bv32, k: nat)
    requires k < 32
  {
    w & (1 << k) != 0
  }

  /** Every control field fits the width the layout gives it. */
  predicate FieldsFit(ct: bv32, mid: bv32, th: bv32, dw: bv32, sy: bv32)
  {
    ct < 4 && mid < 4 && th < 4 && dw < 2 && sy < 2
  }

  /**
   * The control word: the five fields shifted to their positions, then
   * bits 0-7 replaced by the sample-hold counter.
   */
  function ControlWord(ct: bv32, mid: bv32, th: bv32, dw: bv32, sy: bv32, sh: bv8): (w: bv32)
    ensures w & 0xFF == sh as bv32
    ensures FieldsFit(ct, mid, th, dw, sy) ==>
      && w < 0x1_0000
      && (w >> 14) & 3 == ct && (w >> 12) & 3 == mid && (w >> 10) & 3 == th
      && (w >> 9) & 1 == dw && (w >> 8) & 1 == sy
  {
    (FieldBits(ct, mid, th, dw, sy) & 0xFFFF_FF00) | sh as bv32
  }

  /** The five fields shifted to their positions and OR-ed, before the counter goes in. */
  function FieldBits(ct: bv32, mid: bv32, th: bv32, dw: bv32, sy: bv32): (w: bv32)
    ensures FieldsFit(ct, mid, th, dw, sy) ==>
      && w < 0x1_0000 && w & 0xFF == 0
      && (w >> 14) & 3 == ct && (w >> 12) & 3 == mid && (w >> 10) & 3 == th
      && (w >> 9) & 1 == dw && (w >> 8) & 1 == sy
  {
    (ct << PosCmdType) | (mid << PosModId) | (th << PosThreshold) | (dw << PosDryWet) | (sy << PosSync)
  }

  /** The relay word: bits 8-15 of the previous relay word, OR the five relay fields. */
  function RelayWord(prev: bv32, aa: bv32, ab: bv32, ca: bv32, cb: bv32, cc: bv32): (w: bv32)
    ensures (aa | ab | ca | cb | cc) < 0x100 ==>
      w & 0xFF00 == prev & 0xFF00 && w & 0xFF == aa | ab | ca | cb | cc && w < 0x1_0000
  {
    (prev & 0xFF00) | aa | ab | ca | cb | cc
  }

  /** The 16-bit complement of a word, as `0xFFFF & ~w`. */
  function Complement16(w: bv32): (c: bv32)
    ensures c < 0x1_0000
    ensures c & (w & 0xFFFF) == 0 && c | (w & 0xFFFF) == 0xFFFF
  {
    0xFFFF & !w
  }

  /** The BRAM writes of one frame, words 1..5 at offsets 0x00..0x10 in order. */
  function FrameEvents(w1: bv32, w2: bv32, w3: bv32, w4: bv32, w5: bv32): (e: seq<Event>)
    ensures |e| == 5
    ensures e[0] == BramWrite(0x00, w1) && e[1] == BramWrite(0x04, w2) && e[2] == BramWrite(0x08, w3)
    ensures e[3] == BramWrite(0x0C, w4) && e[4] == BramWrite(0x10, w5)
  {
    [ BramWrite(FrameOffsets[0], w1), BramWrite(FrameOffsets[1], w2), BramWrite(FrameOffsets[2], w3),
      BramWrite(FrameOffsets[3], w4), BramWrite(FrameOffsets[4], w5) ]
  }

  /** The constant inverse word 0xFFFF & ~0x4000 is 0xBFFF. */
  lemma ConstantInverseWord()
    ensures Complement16(RelayBase) == 0xBFFF
  {
  }

  /**
   * With the relay base 0x4000 and relay fields inside the low byte, the
   * relay word's high byte is 0x40, and its complement is the constant
   * 0xBFFF exactly when every relay is off.
   */
  lemma RelayWordFromBase(aa: bv32, ab: bv32, ca: bv32, cb: bv32, cc: bv32)
    requires (aa | ab | ca | cb | cc) < 0x100
    ensures RelayWord(RelayBase, aa, ab, ca, cb, cc) >> 8 == 0x40
    ensures Complement16(RelayWord(RelayBase, aa, ab, ca, cb, cc)) == 0xBFFF
            <==> (aa | ab | ca | cb | cc) == 0
  {
    var w := RelayWord(RelayBase, aa, ab, ca, cb, cc);
    assert w == 0x4000 | (aa | ab | ca | cb | cc);
  }

  /** The five control-word positions with widths 2, 2, 2, 1, 1 tile bits 8-15 without overlap. */
  lemma FieldMasksTile()
    ensures (3 as bv32 << PosCmdType) & (3 as bv32 << PosModId) == 0
    ensures ((3 as bv32 << PosCmdType) | (3 as bv32 << PosModId)) & (3 as bv32 << PosThreshold) == 0
    ensures ((3 as bv32 << PosCmdType) | (3 as bv32 << PosModId) | (3 as bv32 << PosThreshold))
            & ((1 as bv32 << PosDryWet) | (1 as bv32 << PosSync)) == 0
    ensures (1 as bv32 << PosDryWet) & (1 as bv32 << PosSync) == 0
    ensures (3 as bv32 << PosCmdType) | (3 as bv32 << PosModId) | (3 as bv32 << PosThreshold)
            | (1 as bv32 << PosDryWet) | (1 as bv32 << PosSync) == 0xFF00
  {
  }

  /** The sample-hold counter wraps to 0 once it has reached this value. */
  const ShWrap: nat := 128

  /** The ten holders of one command frame (u32 each). */
  datatype CommandBlocks = CommandBlocks(
    commandType: u32, modId: u32, threshold: u32, dryWet: u32, synchr: u32,
    relayAA: u32, relayAB: u32, relayCA: u32, relayCB: u32, relayCC: u32)

  /** Names of the ten fields, to say which of them a command may change. */
  datatype Field =
    | CommandTypeF | ModIdF | ThresholdF | DryWetF | SynchrF
    | RelayAAF | RelayABF | RelayCAF | RelayCBF | RelayCCF

  /** The fields in which two records differ. */
  function Diff(a: CommandBlocks, b: CommandBlocks): (d: set<Field>)
    ensures d == {} <==> a == b
  {
    (if a.commandType != b.commandType then {CommandTypeF} else {})
    + (if a.modId != b.modId then {ModIdF} else {})
    + (if a.threshold != b.threshold then {ThresholdF} else {})
    + (if a.dryWet != b.dryWet then {DryWetF} else {})
    + (if a.synchr != b.synchr then {SynchrF} else {})
    + (if a.relayAA != b.relayAA then {RelayAAF} else {})
    + (if a.relayAB != b.relayAB then {RelayABF} else {})
    + (if a.relayCA != b.relayCA then {RelayCAF} else {})
    + (if a.relayCB != b.relayCB then {RelayCBF} else {})
    + (if a.relayCC != b.relayCC then {RelayCCF} else {})
  }

  /** Each relay field is off or holds its own bit: AA 1, AB 2, CA 4, CB 8, CC 16. */
  predicate RelaysOwnBits(b: CommandBlocks)
  {
    (b.relayAA == 0 || b.relayAA == 1) && (b.relayAB == 0 || b.relayAB == 2)
    && (b.relayCA == 0 || b.relayCA == 4) && (b.relayCB == 0 || b.relayCB == 8)
    && (b.relayCC == 0 || b.relayCC == 16)
  }

  /** A relay field that is off or holds its bit is, as a word, 0 or that bit. */
  lemma RelayWord1(x: u32)
    requires x == 0 || x == 1
    ensures Word(x) == 0 || Word(x) == 1
  {
    if x == 0 { assert Word(x) == 0; } else { assert Word(x) == 1; }
  }

  lemma RelayWord2(x: u32)
    requires x == 0 || x == 2
    ensures Word(x) == 0 || Word(x) == 2
  {
    if x == 0 { assert Word(x) == 0; } else { assert Word(x) == 2; }
  }

  lemma RelayWord4(x: u32)
    requires x == 0 || x == 4
    ensures Word(x) == 0 || Word(x) == 4
  {
    if x == 0 { assert Word(x) == 0; } else { assert Word(x) == 4; }
  }

  lemma RelayWord8(x: u32)
    requires x == 0 || x == 8
    ensures Word(x) == 0 || Word(x) == 8
  {
    if x == 0 { assert Word(x) == 0; } else { assert Word(x) == 8; }
  }

  lemma RelayWord16(x: u32)
    requires x == 0 || x == 16
    ensures Word(x) == 0 || Word(x) == 16
  {
    if x == 0 { assert Word(x) == 0; } else { assert Word(x) == 16; }
  }

  /** The relay fields as words are each 0 or their own bit, so their OR stays in the low byte. */
  lemma RelayWords(b: CommandBlocks)
    requires RelaysOwnBits(b)
    ensures Word(b.relayAA) == 0 || Word(b.relayAA) == 1
    ensures Word(b.relayAB) == 0 || Word(b.relayAB) == 2
    ensures Word(b.relayCA) == 0 || Word(b.relayCA) == 4
    ensures Word(b.relayCB) == 0 || Word(b.relayCB) == 8
    ensures Word(b.relayCC) == 0 || Word(b.relayCC) == 16
    ensures (Word(b.relayAA) | Word(b.relayAB) | Word(b.relayCA) | Word(b.relayCB) | Word(b.relayCC)) < 0x100
  {
    RelayWord1(b.relayAA);
    RelayWord2(b.relayAB);
    RelayWord4(b.relayCA);
    RelayWord8(b.relayCB);
    RelayWord16(b.relayCC);
  }

  /** Every field holds a value its width allows, and each relay at most its own bit. */
  predicate InRange(b: CommandBlocks)
  {
    b.commandType < 4 && b.modId < 4 && b.threshold < 4 && b.dryWet < 2 && b.synchr < 2
    && RelaysOwnBits(b)
  }

  /**
   * With the previous relay word's high byte 0x40 and relays holding at
   * most their own bits, the new relay word is 0x4000 OR the relays, and
   * so keeps the high byte.
   */
  lemma RelayWordKeepsBase(prev: bv32, f: CommandBlocks)
    requires prev >> 8 == 0x40 && prev < 0x1_0000 && RelaysOwnBits(f)
    ensures var w := RelayWord(prev, Word(f.relayAA), Word(f.relayAB), Word(f.relayCA),
                               Word(f.relayCB), Word(f.relayCC));
      w == RelayWordOf(f) && w >> 8 == 0x40 && w < 0x1_0000
  {
    RelayWords(f);
    RelayWordFromBase(Word(f.relayAA), Word(f.relayAB), Word(f.relayCA), Word(f.relayCB), Word(f.relayCC));
    assert prev & 0xFF00 == RelayBase & 0xFF00;
  }

  /** The inverse word a frame sends is 0xBFFF exactly when every relay is off. */
  lemma InverseTracksRelays(f: CommandBlocks)
    requires RelaysOwnBits(f)
    ensures Complement16(RelayWordOf(f)) == 0xBFFF
            <==> f.relayAA == 0 && f.relayAB == 0 && f.relayCA == 0 && f.relayCB == 0 && f.relayCC == 0
  {
    RelayWords(f);
    RelayWordFromBase(Word(f.relayAA), Word(f.relayAB), Word(f.relayCA), Word(f.relayCB), Word(f.relayCC));
  }

  /** The counter after a write: 0 once it is 128 or when the frame asks for sync (field not 0), else one more. */
  function NextShNum(sh: nat, synchr: u32): (n: nat)
    requires sh <= ShWrap
    ensures n <= ShWrap
    ensures n == 0 || n == sh + 1
    ensures n == sh + 1 <==> sh < ShWrap && synchr == 0
  {
    if sh == ShWrap || synchr != 0 then 0 else sh + 1
  }

  /** The control word of a frame (word 2), from the handled fields and the counter. */
  function ControlWordOf(t: CommandBlocks, sh: nat): bv32
    requires sh <= ShWrap
  {
    ControlWord(Word(t.commandType), Word(t.modId), Word(t.threshold),
                Word(t.dryWet), Word(t.synchr), sh as bv8)
  }

  /** The relay word of a frame (word 3): 0x4000 OR the five relay fields. */
  function RelayWordOf(t: CommandBlocks): bv32
  {
    RelayWord(RelayBase, Word(t.relayAA), Word(t.relayAB), Word(t.relayCA),
              Word(t.relayCB), Word(t.relayCC))
  }

  /** The threshold bits of a control word hold the threshold field. */
  lemma ControlWordThreshold(t: CommandBlocks, sh: nat)
    requires InRange(t) && sh <= ShWrap
    ensures (ControlWordOf(t, sh) >> 10) & 3 == Word(t.threshold)
  {
    SmallWord(t.commandType);
    SmallWord(t.modId);
    SmallWord(t.threshold);
    SmallWord(t.dryWet);
    SmallWord(t.synchr);
    var w := ControlWord(Word(t.commandType), Word(t.modId), Word(t.threshold),
                         Word(t.dryWet), Word(t.synchr), sh as bv8);
    assert ControlWordOf(t, sh) == w;
  }

  /** The counter after n writes without sync, starting from sh. */
  function ShAfter(sh: nat, n: nat): (r: nat)
    requires sh <= ShWrap
    ensures r <= ShWrap
    decreases n
  {
    if n == 0 then sh else ShAfter(NextShNum(sh, 0), n - 1)
  }

  /** From 0, the counter takes the values 0, 1, .., 128 and then starts over. */
  lemma {:induction false} ShNumCycle(n: nat)
    ensures ShAfter(0, n) == n % (ShWrap + 1)
  {
    ShAfterFrom(0, n);
  }

  lemma {:induction false} ShAfterFrom(sh: nat, n: nat)
    requires sh <= ShWrap
    ensures ShAfter(sh, n) == (sh + n) % (ShWrap + 1)
    decreases n
  {
    if n > 0 {
      var next := NextShNum(sh, 0);
      ShAfterFrom(next, n - 1);
      if sh == ShWrap {
        assert sh + n == (next + n - 1) + (ShWrap + 1);
      } else {
        assert sh + n == next + n - 1;
      }
    }
  }
}
