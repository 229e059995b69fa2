/**
 * The BarGraph-2 driver: ten two-colour LEDs behind three daisy-chained
 * shift registers. Each LED colour is a table entry of three register
 * bytes (reg3, reg2, reg1); showing several LEDs at once ORs their entries
 * together, and every update shifts the three bytes out, reg3 first. The
 * bytes are Python integers and the SPI bus is the log of bytes written.
 */
module BarGraph2 {
  import opened Wrappers

  /** Python's | on non-negative integers, one bit at a time from the lowest. */
  function BitOr(a: nat, b: nat): nat
    decreases a + b
  {
    if a == 0 then b
    else if b == 0 then a
    else 2 * BitOr(a / 2, b / 2) + (if a % 2 == 1 || b % 2 == 1 then 1 else 0)
  }

  /** The lowest bit of an OR is the OR of the lowest bits, and the rest is the OR of the rest. */
  lemma BitOrSplit(a: nat, b: nat)
    ensures BitOr(a, b) % 2 == (if a % 2 == 1 || b % 2 == 1 then 1 else 0)
    ensures BitOr(a, b) / 2 == BitOr(a / 2, b / 2)
  {
  }

  lemma {:induction false} BitOrCommutes(a: nat, b: nat)
    ensures BitOr(a, b) == BitOr(b, a)
    decreases a + b
  {
    if a != 0 && b != 0 {
      BitOrCommutes(a / 2, b / 2);
    }
  }

  lemma {:induction false} BitOrIdempotent(a: nat)
    ensures BitOr(a, a) == a
  {
    if a != 0 {
      BitOrIdempotent(a / 2);
    }
  }

  lemma {:induction false} BitOrAssociates(a: nat, b: nat, c: nat)
    ensures BitOr(BitOr(a, b), c) == BitOr(a, BitOr(b, c))
    decreases a + b + c
  {
    if a != 0 && b != 0 && c != 0 {
      BitOrAssociates(a / 2, b / 2, c / 2);
      var x, y := BitOr(BitOr(a, b), c), BitOr(a, BitOr(b, c));
      BitOrSplit(a, b);
      BitOrSplit(b, c);
      BitOrSplit(BitOr(a, b), c);
      BitOrSplit(a, BitOr(b, c));
      assert x / 2 == y / 2 && x % 2 == y % 2;
    }
  }

  /** The OR of two numbers below 2^k is below 2^k. */
  lemma {:induction false} BitOrBelow(a: nat, b: nat, k: nat)
    requires a < Pow2(k) && b < Pow2(k)
    ensures BitOr(a, b) < Pow2(k)
  {
    if a != 0 && b != 0 {
      BitOrBelow(a / 2, b / 2, k - 1);
    }
  }

  function Pow2(k: nat): (p: nat)
    ensures p >= 1
  {
    if k == 0 then 1 else 2 * Pow2(k - 1)
  }

  /** A power of two: exactly one bit set. */
  predicate IsPow2(n: nat)
    decreases n
  {
    n == 1 || (n > 1 && n % 2 == 0 && IsPow2(n / 2))
  }

  /** The three register bytes of one display state. */
  datatype Regs = Regs(r3: nat, r2: nat, r1: nat)

  const Off := Regs(0, 0, 0)

  /** The three colour tables. */
  datatype Colour = Green | Yellow | Red

  /** The number of LEDs. */
  const LedCount := 10

  const GreenTable: seq<Regs> := [
    Regs(0, 0, 1), Regs(0, 0, 2), Regs(0, 0, 4), Regs(0, 0, 8), Regs(0, 0, 16),
    Regs(0, 0, 32), Regs(0, 0, 64), Regs(0, 0, 128), Regs(0, 1, 0), Regs(0, 2, 0)
  ]
  const RedTable: seq<Regs> := [
    Regs(0, 4, 0), Regs(0, 8, 0), Regs(0, 16, 0), Regs(0, 32, 0), Regs(0, 64, 0),
    Regs(0, 128, 0), Regs(1, 0, 0), Regs(2, 0, 0), Regs(4, 0, 0), Regs(8, 0, 0)
  ]
  const YellowTable: seq<Regs> := [
    Regs(0, 4, 1), Regs(0, 8, 2), Regs(0, 16, 4), Regs(0, 32, 8), Regs(0, 64, 16),
    Regs(0, 128, 32), Regs(1, 0, 64), Regs(2, 0, 128), Regs(4, 1, 0), Regs(8, 2, 0)
  ]

  function Table(c: Colour): (t: seq<Regs>)
    ensures |t| == LedCount
  {
    match c
    case Green => GreenTable
    case Yellow => YellowTable
    case Red => RedTable
  }

  /** The entry of LED index (1..10) in a colour. */
  function Entry(c: Colour, index: int): Regs
    requires 1 <= index <= LedCount
  {
    Table(c)[index - 1]
  }

  /** The colour names led_range and led_range_all accept. */
  function ColourOf(name: string): (r: Result<Colour>)
    ensures r == Ok(Green) <==> name == "green"
    ensures r == Ok(Red) <==> name == "red"
    ensures r == Ok(Yellow) <==> name == "yellow"
  {
    if name == "green" then Ok(Green)
    else if name == "red" then Ok(Red)
    else if name == "yellow" then Ok(Yellow)
    else Err("Color must be 'green', 'red', or 'yellow'")
  }

  function Or(a: Regs, b: Regs): Regs
  {
    Regs(BitOr(a.r3, b.r3), BitOr(a.r2, b.r2), BitOr(a.r1, b.r1))
  }

  /** All three registers hold bytes. */
  predicate IsBytes(a: Regs)
  {
    a.r3 < 256 && a.r2 < 256 && a.r1 < 256
  }

  /** Every bit lit in a is lit in b. */
  predicate Within(a: Regs, b: Regs)
  {
    BitOr(a.r3, b.r3) == b.r3 && BitOr(a.r2, b.r2) == b.r2 && BitOr(a.r1, b.r1) == b.r1
  }

  /** No bit is lit in both: ORing them adds them. */
  predicate Disjoint(a: Regs, b: Regs)
  {
    BitOr(a.r3, b.r3) == a.r3 + b.r3 && BitOr(a.r2, b.r2) == a.r2 + b.r2 && BitOr(a.r1, b.r1) == a.r1 + b.r1
  }

  /** Exactly one bit of the 24 is lit. */
  predicate OneBit(a: Regs)
  {
    (IsPow2(a.r3) && a.r2 == 0 && a.r1 == 0) || (a.r3 == 0 && IsPow2(a.r2) && a.r1 == 0)
    || (a.r3 == 0 && a.r2 == 0 && IsPow2(a.r1))
  }

  /** ORing keeps what was lit and adds the new entry. */
  lemma OrGrows(a: Regs, b: Regs)
    ensures Within(a, Or(a, b)) && Within(b, Or(a, b))
  {
    forall x: nat, y: nat | true
      ensures BitOr(x, BitOr(x, y)) == BitOr(x, y) && BitOr(y, BitOr(x, y)) == BitOr(x, y)
    {
      BitOrAssociates(x, x, y);
      BitOrIdempotent(x);
      BitOrCommutes(x, y);
      BitOrAssociates(y, y, x);
      BitOrIdempotent(y);
    }
  }

  lemma WithinReflexive(a: Regs)
    ensures Within(a, a)
  {
    BitOrIdempotent(a.r3);
    BitOrIdempotent(a.r2);
    BitOrIdempotent(a.r1);
  }

  /** A state lighting both a and b lights their OR. */
  lemma OrWithin(a: Regs, b: Regs, c: Regs)
    requires Within(a, c) && Within(b, c)
    ensures Within(Or(a, b), c)
  {
    BitOrAssociates(a.r3, b.r3, c.r3);
    BitOrAssociates(a.r2, b.r2, c.r2);
    BitOrAssociates(a.r1, b.r1, c.r1);
  }

  lemma WithinTransitive(a: Regs, b: Regs, c: Regs)
    requires Within(a, b) && Within(b, c)
    ensures Within(a, c)
  {
    BitOrAssociates(a.r3, b.r3, c.r3);
    BitOrAssociates(a.r2, b.r2, c.r2);
    BitOrAssociates(a.r1, b.r1, c.r1);
  }

  /** The OR of two byte states is a byte state. */
  lemma OrBytes(a: Regs, b: Regs)
    requires IsBytes(a) && IsBytes(b)
    ensures IsBytes(Or(a, b))
  {
    assert Pow2(8) == 256;
    BitOrBelow(a.r3, b.r3, 8);
    BitOrBelow(a.r2, b.r2, 8);
    BitOrBelow(a.r1, b.r1, 8);
  }

  /**
   * The tables: each entry holds bytes, each green and each red entry
   * lights one LED of one colour, the green and red bits of an LED are
   * apart, and yellow lights both.
   */
  lemma TablesShape()
    ensures forall k :: 0 <= k < LedCount ==> OneBit(GreenTable[k]) && OneBit(RedTable[k])
    ensures forall k :: 0 <= k < LedCount ==> Disjoint(GreenTable[k], RedTable[k])
    ensures forall k :: 0 <= k < LedCount ==> YellowTable[k] == Or(GreenTable[k], RedTable[k])
    ensures forall c: Colour, k :: 0 <= k < LedCount ==> IsBytes(Table(c)[k])
  {
    forall k | 0 <= k < LedCount
      ensures OneBit(GreenTable[k]) && OneBit(RedTable[k]) && Disjoint(GreenTable[k], RedTable[k])
      ensures YellowTable[k] == Or(GreenTable[k], RedTable[k])
      ensures forall c: Colour :: IsBytes(Table(c)[k])
    {
      EntryShape(k);
    }
  }

  /** The table facts for one LED, checked entry by entry. */
  lemma EntryShape(k: int)
    requires 0 <= k < LedCount
    ensures OneBit(GreenTable[k]) && OneBit(RedTable[k]) && Disjoint(GreenTable[k], RedTable[k])
    ensures YellowTable[k] == Or(GreenTable[k], RedTable[k])
    ensures forall c: Colour :: IsBytes(Table(c)[k])
  {
    EntryOneBit(k);
    EntryDisjoint(k);
    EntryYellow(k);
  }

  lemma EntryOneBit(k: int)
    requires 0 <= k < LedCount
    ensures OneBit(GreenTable[k]) && OneBit(RedTable[k])
    ensures forall c: Colour :: IsBytes(Table(c)[k])
  {
    if k == 0 {} else if k == 1 {} else if k == 2 {} else if k == 3 {} else if k == 4 {}
    else if k == 5 {} else if k == 6 {} else if k == 7 {} else if k == 8 {} else {}
  }

  lemma EntryBytes(c: Colour, index: int)
    requires 1 <= index <= LedCount
    ensures IsBytes(Entry(c, index))
  {
    EntryOneBit(index - 1);
  }

  lemma EntryDisjoint(k: int)
    requires 0 <= k < LedCount
    ensures Disjoint(GreenTable[k], RedTable[k])
  {
    if k == 0 {} else if k == 1 {} else if k == 2 {} else if k == 3 {} else if k == 4 {}
    else if k == 5 {} else if k == 6 {} else if k == 7 {} else if k == 8 {} else {}
  }

  lemma EntryYellow(k: int)
    requires 0 <= k < LedCount
    ensures YellowTable[k] == Or(GreenTable[k], RedTable[k])
  {
    if k == 0 {} else if k == 1 {} else if k == 2 {} else if k == 3 {} else if k == 4 {}
    else if k == 5 {} else if k == 6 {} else if k == 7 {} else if k == 8 {} else {}
  }

  /** The bytes segment_switch shifts out: reg3, reg2, reg1. */
  function Bytes(r: Regs): (b: seq<int>)
    ensures |b| == 3 && b[0] == r.r3 && b[1] == r.r2 && b[2] == r.r1
  {
    [r.r3, r.r2, r.r1]
  }

  /** What led_color shows: the LED's entry for an index in 1..10, and nothing otherwise. */
  function LedColorRegs(c: Colour, index: int): (r: Regs)
    ensures 1 <= index <= LedCount ==> r == Table(c)[index - 1]
    ensures !(1 <= index <= LedCount) ==> r == Off
  {
    if 1 <= index <= LedCount then Entry(c, index) else Off
  }

  /** The table entry level_graph takes for an LED: green up to g, yellow up to g + y, red after. */
  function LevelEntry(index: int, g: int, y: int): (r: Regs)
    requires 1 <= index <= LedCount
    ensures index <= g ==> r == GreenTable[index - 1]
    ensures g < index <= g + y ==> r == YellowTable[index - 1]
    ensures g < index && g + y < index ==> r == RedTable[index - 1]
  {
    if index <= g then Entry(Green, index)
    else if index <= g + y then Entry(Yellow, index)
    else Entry(Red, index)
  }

  /** The OR of the level entries of LEDs 1..level: what a level graph lights. */
  function LevelRegs(level: int, g: int, y: int): Regs
    requires 0 <= level <= LedCount
  {
    if level == 0 then Off else Or(LevelRegs(level - 1, g, y), LevelEntry(level, g, y))
  }

  /** What level_graph sends: the level's OR for a level in 1..10, nothing lit otherwise. */
  function LevelGraphRegs(level: int, g: int, y: int): Regs
  {
    if 1 <= level <= LedCount then LevelRegs(level, g, y) else Off
  }

  /** A higher level lights every bit a lower one does. */
  lemma {:induction false} LevelMonotone(k: int, l: int, g: int, y: int)
    requires 0 <= k <= l <= LedCount
    ensures Within(LevelRegs(k, g, y), LevelRegs(l, g, y))
    decreases l - k
  {
    if k == l {
      WithinReflexive(LevelRegs(k, g, y));
    } else {
      LevelMonotone(k, l - 1, g, y);
      OrGrows(LevelRegs(l - 1, g, y), LevelEntry(l, g, y));
      WithinTransitive(LevelRegs(k, g, y), LevelRegs(l - 1, g, y), LevelRegs(l, g, y));
    }
  }

  /** Every LED up to the level is lit in its colour. */
  lemma {:induction false} LevelLightsEach(level: int, g: int, y: int, i: int)
    requires 1 <= i <= level <= LedCount
    ensures Within(LevelEntry(i, g, y), LevelRegs(level, g, y))
  {
    OrGrows(LevelRegs(i - 1, g, y), LevelEntry(i, g, y));
    LevelMonotone(i, level, g, y);
    WithinTransitive(LevelEntry(i, g, y), LevelRegs(i, g, y), LevelRegs(level, g, y));
  }

  /** A level graph sends bytes. */
  lemma {:induction false} LevelBytes(level: int, g: int, y: int)
    requires 0 <= level <= LedCount
    ensures IsBytes(LevelRegs(level, g, y))
  {
    if level > 0 {
      LevelBytes(level - 1, g, y);
      EntryBytes(Green, level);
      EntryBytes(Yellow, level);
      EntryBytes(Red, level);
      OrBytes(LevelRegs(level - 1, g, y), LevelEntry(level, g, y));
    }
  }

  /** The indices range(start, end + step, step) visits: start to end inclusive, either way. */
  function Visit(start: int, end: int): (v: seq<int>)
    ensures |v| == (if end >= start then end - start else start - end) + 1
    ensures v[0] == start && v[|v| - 1] == end
    ensures forall i :: 0 <= i < |v| ==> v[i] == if end >= start then start + i else start - i
  {
    if end >= start then seq(end - start + 1, i => start + i)
    else seq(start - end + 1, i => start - i)
  }

  /** The OR of the entries of the in-range indices among the first n of idxs. */
  function Accumulate(c: Colour, idxs: seq<int>, n: nat): Regs
    requires n <= |idxs|
  {
    if n == 0 then Off
    else
      var prev := Accumulate(c, idxs, n - 1);
      var idx := idxs[n - 1];
      if 1 <= idx <= LedCount then Or(prev, Entry(c, idx)) else prev
  }

  /** The bytes led_range_all's loop sends for the first n indices: the running OR after each in-range one. */
  function RangeAllBytes(c: Colour, idxs: seq<int>, n: nat): seq<int>
    requires n <= |idxs|
  {
    if n == 0 then []
    else
      var idx := idxs[n - 1];
      RangeAllBytes(c, idxs, n - 1) + (if 1 <= idx <= LedCount then Bytes(Accumulate(c, idxs, n)) else [])
  }

  /** The bytes led_range's loop sends for the first n indices: led_color for each in turn. */
  function RangeBytes(c: Colour, idxs: seq<int>, n: nat): seq<int>
    requires n <= |idxs|
  {
    if n == 0 then [] else RangeBytes(c, idxs, n - 1) + Bytes(LedColorRegs(c, idxs[n - 1]))
  }

  /** One more index in 1..10: led_range_all ORs its entry in and sends the result. */
  lemma AccumulateStepIn(c: Colour, idxs: seq<int>, n: nat)
    requires n < |idxs| && 1 <= idxs[n] <= LedCount
    ensures Accumulate(c, idxs, n + 1) == Or(Accumulate(c, idxs, n), Table(c)[idxs[n] - 1])
    ensures RangeAllBytes(c, idxs, n + 1) == RangeAllBytes(c, idxs, n) + Bytes(Accumulate(c, idxs, n + 1))
  {
  }

  /** One more index outside 1..10: led_range_all skips it. */
  lemma AccumulateStepOut(c: Colour, idxs: seq<int>, n: nat)
    requires n < |idxs| && !(1 <= idxs[n] <= LedCount)
    ensures Accumulate(c, idxs, n + 1) == Accumulate(c, idxs, n)
    ensures RangeAllBytes(c, idxs, n + 1) == RangeAllBytes(c, idxs, n)
  {
  }

  /** Every in-range index's entry among the first n is lit in their OR. */
  lemma {:induction false} AccumulateLightsEach(c: Colour, idxs: seq<int>, n: nat, j: int)
    requires n <= |idxs| && 0 <= j < n && 1 <= idxs[j] <= LedCount
    ensures Within(Entry(c, idxs[j]), Accumulate(c, idxs, n))
  {
    var prev := Accumulate(c, idxs, n - 1);
    if j == n - 1 {
      OrGrows(prev, Entry(c, idxs[j]));
    } else {
      AccumulateLightsEach(c, idxs, n - 1, j);
      if 1 <= idxs[n - 1] <= LedCount {
        OrGrows(prev, Entry(c, idxs[n - 1]));
        WithinTransitive(Entry(c, idxs[j]), prev, Accumulate(c, idxs, n));
      }
    }
  }

  /** Only entries of in-range indices are lit: the OR is within any state that lights all of them. */
  lemma {:induction false} AccumulateOnlyThose(c: Colour, idxs: seq<int>, n: nat, bound: Regs)
    requires n <= |idxs|
    requires forall j :: 0 <= j < n && 1 <= idxs[j] <= LedCount ==> Within(Entry(c, idxs[j]), bound)
    ensures Within(Accumulate(c, idxs, n), bound)
  {
    if n > 0 {
      AccumulateOnlyThose(c, idxs, n - 1, bound);
      if 1 <= idxs[n - 1] <= LedCount {
        OrWithin(Accumulate(c, idxs, n - 1), Entry(c, idxs[n - 1]), bound);
      }
    }
  }

  /** Each step of led_range_all only adds bits: the running OR never loses one. */
  lemma {:induction false} AccumulateMonotone(c: Colour, idxs: seq<int>, m: nat, n: nat)
    requires m <= n <= |idxs|
    ensures Within(Accumulate(c, idxs, m), Accumulate(c, idxs, n))
    decreases n - m
  {
    if m == n {
      WithinReflexive(Accumulate(c, idxs, m));
    } else {
      AccumulateMonotone(c, idxs, m, n - 1);
      var prev := Accumulate(c, idxs, n - 1);
      if 1 <= idxs[n - 1] <= LedCount {
        OrGrows(prev, Entry(c, idxs[n - 1]));
        WithinTransitive(Accumulate(c, idxs, m), prev, Accumulate(c, idxs, n));
      }
    }
  }

  /** led_range_all sends bytes. */
  lemma {:induction false} AccumulateBytes(c: Colour, idxs: seq<int>, n: nat)
    requires n <= |idxs|
    ensures IsBytes(Accumulate(c, idxs, n))
  {
    if n > 0 {
      AccumulateBytes(c, idxs, n - 1);
      var idx := idxs[n - 1];
      if 1 <= idx <= LedCount {
        EntryBytes(c, idx);
        OrBytes(Accumulate(c, idxs, n - 1), Entry(c, idx));
      }
    }
  }

  /**
   * The driver's output. The chip-select pulses around each byte, the
   * master reset and the PWM pin are not modelled.
   */
  class Display {
    var sent: seq<int>

    constructor ()
      ensures sent == []
    {
      sent := [];
    }

    /** write_byte: one byte over SPI. */
    method WriteByte(data: int)
      modifies this
      ensures sent == old(sent) + [data]
    {
      sent := sent + [data];
    }

    /** segment_switch: reg3, then reg2, then reg1. */
    method SegmentSwitch(r: Regs)
      modifies this
      ensures sent == old(sent) + Bytes(r)
    {
      WriteByte(r.r3);
      WriteByte(r.r2);
      WriteByte(r.r1);
    }

    /** lights_off: all three registers cleared. */
    method LightsOff()
      modifies this
      ensures sent == old(sent) + Bytes(Off)
    {
      SegmentSwitch(Off);
    }

    /** led_color: one LED in the given colour, or all off for an index outside 1..10. */
    method LedColor(index: int, c: Colour)
      modifies this
      ensures sent == old(sent) + Bytes(LedColorRegs(c, index))
    {
      if 1 <= index <= LedCount {
        SegmentSwitch(Table(c)[index - 1]);
      } else {
        LightsOff();
      }
    }

    /**
     * led_range: each LED from start to end in turn, then all off. An
     * unknown colour fails before anything is sent. The delay is not
     * modelled.
     */
    method LedRange(start: int, end: int, colour: string) returns (r: Result<()>)
      modifies this
      ensures r.Ok? <==> ColourOf(colour).Ok?
      ensures r.Err? ==> sent == old(sent)
      ensures r.Ok? ==> sent == old(sent) + RangeBytes(ColourOf(colour).value, Visit(start, end), |Visit(start, end)|) + Bytes(Off)
    {
      var cm := ColourOf(colour);
      if cm.Err? {
        return Err(cm.reason);
      }
      Sweep(Visit(start, end), cm.value);
      r := Ok(());
    }

    /** The loop of led_range over the indices the range visits, once the colour is known. */
    method Sweep(idxs: seq<int>, c: Colour)
      modifies this
      ensures sent == old(sent) + RangeBytes(c, idxs, |idxs|) + Bytes(Off)
    {
      var i := 0;
      while i < |idxs|
        invariant 0 <= i <= |idxs|
        invariant sent == old(sent) + RangeBytes(c, idxs, i)
      {
        var idx := idxs[i];
        LedColor(idx, c);
        AppendAssoc(old(sent), RangeBytes(c, idxs, i), Bytes(LedColorRegs(c, idx)));
        i := i + 1;
      }
      LightsOff();
    }

    /**
     * led_range_all: the LEDs from start to end lit cumulatively: the
     * running OR after each in-range index, then the final OR once more.
     */
    method LedRangeAll(start: int, end: int, colour: string) returns (r: Result<Regs>)
      modifies this
      ensures r.Ok? <==> ColourOf(colour).Ok?
      ensures r.Err? ==> sent == old(sent)
      ensures r.Ok? ==> r.value == Accumulate(ColourOf(colour).value, Visit(start, end), |Visit(start, end)|)
      ensures r.Ok? ==> sent == old(sent) + RangeAllBytes(ColourOf(colour).value, Visit(start, end), |Visit(start, end)|) + Bytes(r.value)
    {
      var cm := ColourOf(colour);
      if cm.Err? {
        return Err(cm.reason);
      }
      var lit := SweepAll(Visit(start, end), cm.value);
      r := Ok(lit);
    }

    /** The loop of led_range_all over the indices the range visits, once the colour is known; lit is the final OR. */
    method SweepAll(idxs: seq<int>, c: Colour) returns (lit: Regs)
      modifies this
      ensures lit == Accumulate(c, idxs, |idxs|)
      ensures sent == old(sent) + RangeAllBytes(c, idxs, |idxs|) + Bytes(lit)
    {
      var reg3, reg2, reg1: nat := 0, 0, 0;
      var i := 0;
      while i < |idxs|
        invariant 0 <= i <= |idxs|
        invariant Regs(reg3, reg2, reg1) == Accumulate(c, idxs, i)
        invariant sent == old(sent) + RangeAllBytes(c, idxs, i)
      {
        var idx := idxs[i];
        if 1 <= idx <= LedCount {
          var l := Table(c)[idx - 1];
          // reg3 |= l3; reg2 |= l2; reg1 |= l1
          var next := Or(Regs(reg3, reg2, reg1), l);
          reg3, reg2, reg1 := next.r3, next.r2, next.r1;
          AccumulateStepIn(c, idxs, i);
          SegmentSwitch(next);
          AppendAssoc(old(sent), RangeAllBytes(c, idxs, i), Bytes(next));
        } else {
          AccumulateStepOut(c, idxs, i);
        }
        i := i + 1;
      }
      lit := Regs(reg3, reg2, reg1);
      SegmentSwitch(lit);
    }

    /**
     * level_graph over the driver's own Graph tables: greenCount green
     * LEDs, then yellowCount yellow, then red, lit up to the level; a
     * level outside 1..10 turns all off. The red count is not used.
     */
    method LevelGraph(level: int, greenCount: int, yellowCount: int)
      modifies this
      ensures sent == old(sent) + Bytes(LevelGraphRegs(level, greenCount, yellowCount))
    {
      if !(1 <= level <= LedCount) {
        LightsOff();
        return;
      }
      var lit := LevelLoop(level, greenCount, yellowCount);
      SegmentSwitch(lit);
    }
  }

  /** The loop of level_graph for a level in 1..10: the OR of the entries of LEDs 1..level. */
  method LevelLoop(level: int, greenCount: int, yellowCount: int) returns (lit: Regs)
    requires 1 <= level <= LedCount
    ensures lit == LevelRegs(level, greenCount, yellowCount)
  {
    var greenEnd := greenCount;
    var yellowEnd := greenCount + yellowCount;
    var reg3, reg2, reg1: nat := 0, 0, 0;
    var idx := 1;
    while idx <= level
      invariant 1 <= idx <= level + 1
      invariant Regs(reg3, reg2, reg1) == LevelRegs(idx - 1, greenCount, yellowCount)
    {
      var l: Regs;
      if idx <= greenEnd {
        l := Entry(Green, idx);
      } else if idx <= yellowEnd {
        l := Entry(Yellow, idx);
      } else {
        l := Entry(Red, idx);
      }
      assert l == LevelEntry(idx, greenCount, yellowCount);
      // reg3 |= l3; reg2 |= l2; reg1 |= l1
      var next := Or(Regs(reg3, reg2, reg1), l);
      reg3, reg2, reg1 := next.r3, next.r2, next.r1;
      idx := idx + 1;
    }
    lit := Regs(reg3, reg2, reg1);
  }
}
