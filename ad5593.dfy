/**
 * The AD5593 eight-channel ADC/DAC/GPIO driver. Every configuration call
 * reads a register back, fills the three-byte buffer _data in place and
 * writes it: a pointer register followed by an MSB and an LSB in which
 * one pin bit is set, cleared or flipped. The I2C bus is a log of
 * transfers; what the device answers to a read is given.
 */
module Ad5593 {
  import opened Wrappers

  /** Mode nibbles of the pointer byte. */
  const ConfigMode: bv8 := 0x00
  const DacWrite: bv8 := 0x10
  const AdcReadback: bv8 := 0x40
  const DacReadback: bv8 := 0x50
  const GpioReadback: bv8 := 0x60
  const RegReadback: bv8 := 0x70

  /** Control registers. */
  const NoOpReg: bv8 := 0x00
  const AdcSeqReg: bv8 := 0x02
  const GpContrRef: bv8 := 0x03
  const AdcPinConf: bv8 := 0x04
  const DacPinConf: bv8 := 0x05
  const GpioWConf: bv8 := 0x08
  const GpioWData: bv8 := 0x09
  const GpioRConf: bv8 := 0x0A
  const PwrdwnRefconf: bv8 := 0x0B
  const Io3StatePin: bv8 := 0x0D
  const SoftReset: bv8 := 0x0F

  /** Three-state settings. */
  const StateLow := 0
  const StateHigh := 1
  const StateHImpd := 3

  /** One I2C transfer to the device. */
  datatype I2c =
    | ByteWrite(b: bv8)                          // write_byte
    | BlockRead(reg: bv8, count: nat)            // read_i2c_block_data
    | BlockWrite(cmd: bv8, payload: seq<bv8>)    // write_i2c_block_data

  /** The transfers of _read(reg): the pointer byte, then a two-byte block read. */
  function ReadTransfers(reg: bv8): seq<I2c>
  {
    [ByteWrite(reg), BlockRead(reg, 2)]
  }

  /** The mask 1 << pin of a pin 0..7. */
  function PinMask(pin: int): (m: bv8)
    requires 0 <= pin < 8
    ensures m != 0 && m & (m - 1) == 0
    ensures m == (1 as bv8) << pin
  {
    [0x01, 0x02, 0x04, 0x08, 0x10, 0x20, 0x40, 0x80][pin]
  }

  /** Different pins have different mask bits. */
  lemma PinMasksDisjoint(p: int, q: int)
    requires 0 <= p < 8 && 0 <= q < 8 && p != q
    ensures PinMask(p) & PinMask(q) == 0
  {
  }

  /** validate_pin: a pin 0..7 is returned as it is, anything else is a ValueError. */
  function ValidatePin(pin: int): (r: Result<int>)
    ensures r.Ok? <==> 0 <= pin <= 7
    ensures r.Ok? ==> r.value == pin
  {
    if !(0 <= pin <= 7) then Err("Invalid pin. Use 0-7.") else Ok(pin)
  }

  /** Setting a mask bit: the bit is set and every other bit is kept. */
  lemma SetKeepsOthers(b: bv8, m: bv8)
    ensures (b | m) & m == m && (b | m) & !m == b & !m
  {
  }

  /** Clearing a mask bit: the bit is clear and every other bit is kept. */
  lemma ClearKeepsOthers(b: bv8, m: bv8)
    ensures (b & !m) & m == 0 && (b & !m) & !m == b & !m
  {
  }

  /** Flipping a mask bit changes exactly the mask bits. */
  lemma FlipChangesMask(b: bv8, m: bv8)
    ensures (b ^ m) ^ b == m
  {
  }

  /** getVref of a readback LSB: 2500 * (bit 5 + 1). */
  function Vref(lsb: bv8): (v: int)
    ensures v == 2500 || v == 5000
    ensures v == 5000 <==> lsb & 0x20 != 0
  {
    2500 * ((((lsb & 0x20) >> 5) as int) + 1)
  }

  /** One raw ADC sample: the low nibble of the first byte, then the second byte. */
  function RawAdc(msg: seq<bv8>): (v: int)
    requires |msg| == 2
    ensures 0 <= v <= 4095
    ensures v / 256 == (msg[0] & 0x0F) as int && v % 256 == msg[1] as int
  {
    (((msg[0] & 0x0F) as int) * 256) + msg[1] as int
  }

  /** The samples of a sequence of readbacks. */
  function RawSamples(msgs: seq<seq<bv8>>): (r: seq<int>)
    requires forall i :: 0 <= i < |msgs| ==> |msgs[i]| == 2
    ensures |r| == |msgs|
    ensures forall i :: 0 <= i < |msgs| ==> r[i] == RawAdc(msgs[i])
  {
    if msgs == [] then [] else RawSamples(msgs[..|msgs| - 1]) + [RawAdc(msgs[|msgs| - 1])]
  }

  function Sum(s: seq<int>): int
  {
    if s == [] then 0 else Sum(s[..|s| - 1]) + s[|s| - 1]
  }

  /** Samples in 0..4095 sum to at most 4095 per sample. */
  lemma {:induction false} SumBounds(s: seq<int>)
    requires forall i :: 0 <= i < |s| ==> 0 <= s[i] <= 4095
    ensures 0 <= Sum(s) <= 4095 * |s|
  {
    if s != [] {
      SumBounds(s[..|s| - 1]);
    }
  }

  /** The integer average of at least one such sample is again in 0..4095. */
  lemma AverageBounds(s: seq<int>)
    requires |s| > 0
    requires forall i :: 0 <= i < |s| ==> 0 <= s[i] <= 4095
    ensures 0 <= Sum(s) / |s| <= 4095
  {
    SumBounds(s);
    var n, t := |s|, Sum(s);
    var q := t / n;
    assert q * n <= t;
    if q > 4095 {
      LargerProduct(q, n);
      assert false;
    }
  }

  /** A factor above 4095 makes a product above 4095 times the other factor. */
  lemma {:induction false} LargerProduct(q: int, n: int)
    requires q > 4095 && n > 0
    ensures q * n > 4095 * n
  {
    if n > 1 {
      LargerProduct(q, n - 1);
      assert q * n == q * (n - 1) + q;
    }
  }

  /** The byte holding a number 0..255. */
  function ToByte(x: nat): (b: bv8)
    requires x < 256
    ensures b as int == x
  {
    if x == 0 then 0 else ToByte(x - 1) + 1
  }

  /** The low byte of (v >> 8) & 0xFF and of v & 0xFF, with Python's floor shift for negative v. */
  function HighByte(v: int): (b: bv8)
    ensures b as int == (v / 256) % 256
  {
    ToByte((v / 256) % 256)
  }

  function LowByte(v: int): (b: bv8)
    ensures b as int == v % 256
  {
    ToByte(v % 256)
  }

  /** The two bytes of a 16-bit DAC code give the code back. */
  lemma DacBytesRoundTrip(v: int)
    requires 0 <= v < 0x1_0000
    ensures HighByte(v) as int * 256 + LowByte(v) as int == v
  {
  }

  /** The driver: the buffer filled before each write, the reference voltage, and the bus log. */
  class Adac {
    const data: array<bv8>
    const intrRef: int
    const vref: int
    var bus: seq<I2c>

    ghost predicate Valid()
      reads this
    {
      data.Length == 3
    }

    /** The buffer as the block write sends it. */
    function Buffer(): seq<bv8>
      reads this, data
      requires Valid()
    {
      data[..]
    }

    /** _write: the first byte of the buffer as the command, the other two as the payload. */
    method Flush()
      requires Valid()
      modifies this`bus
      ensures bus == old(bus) + [BlockWrite(data[0], data[1..])]
    {
      bus := bus + [BlockWrite(data[0], data[1..])];
    }

    /**
     * The read-modify-write step every configuration call ends with: the
     * readback of reg on the bus, then the buffer filled with reg and the
     * new MSB and LSB, then written.
     */
    method Rewrite(reg: bv8, msb: bv8, lsb: bv8)
      requires Valid()
      modifies data, this`bus
      ensures data[..] == [ConfigMode | reg, msb, lsb]
      ensures bus == old(bus) + ReadTransfers(RegReadback | reg) + [BlockWrite(ConfigMode | reg, [msb, lsb])]
    {
      bus := bus + ReadTransfers(RegReadback | reg);
      data[0] := ConfigMode | reg;
      data[1] := msb;
      data[2] := lsb;
      Flush();
    }

    /** __init__: a zeroed buffer, vref 2500 with the internal reference, and a soft reset. */
    constructor (intrRef: int, vref: int)
      ensures Valid() && this.intrRef == intrRef
      ensures this.vref == if intrRef == 0 then vref else 2500
      ensures data[..] == [SoftReset, 0x0D, 0x00]
      ensures bus == [BlockWrite(SoftReset, [0x0D, 0x00])]
      ensures fresh(data)
    {
      data := new bv8[3](_ => 0);
      this.intrRef := intrRef;
      this.vref := if intrRef == 0 then vref else 2500;
      bus := [];
      new;
      Reset();
    }

    /** reset: the soft-reset command [0x0F, 0x0D, 0]. */
    method Reset()
      requires Valid()
      modifies data, this`bus
      ensures data[..] == [ConfigMode | SoftReset, 0x0D, 0x00]
      ensures bus == old(bus) + [BlockWrite(SoftReset, [0x0D, 0x00])]
    {
      data[0] := ConfigMode | SoftReset;
      data[1] := 0x0D;
      data[2] := 0;
      Flush();
    }

    /**
     * The shape every conf_* call shares: validate the pin, read the
     * register back, copy its MSB, set the pin's bit in its LSB, write.
     */
    method ConfPin(reg: bv8, pin: int, rb: seq<bv8>) returns (r: Result<int>)
      requires Valid() && |rb| == 2
      modifies data, this`bus
      ensures r == ValidatePin(pin)
      ensures r.Err? ==> bus == old(bus) && data[..] == old(data[..])
      ensures r.Ok? ==> data[..] == [ConfigMode | reg, rb[0], rb[1] | PinMask(pin)]
      ensures r.Ok? ==> bus == old(bus) + ReadTransfers(RegReadback | reg)
                         + [BlockWrite(ConfigMode | reg, [rb[0], rb[1] | PinMask(pin)])]
    {
      r := ValidatePin(pin);
      if r.Err? {
        return;
      }
      Rewrite(reg, rb[0], rb[1] | PinMask(pin));
    }

    /** conf_output: the pin's bit in GPIO_W_CONF. */
    method ConfOutput(pin: int, rb: seq<bv8>) returns (r: Result<int>)
      requires Valid() && |rb| == 2
      modifies data, this`bus
      ensures r == ValidatePin(pin)
      ensures r.Err? ==> bus == old(bus) && data[..] == old(data[..])
      ensures r.Ok? ==> data[..] == [GpioWConf, rb[0], rb[1] | PinMask(pin)]
      ensures r.Ok? ==> bus == old(bus) + ReadTransfers(RegReadback | GpioWConf) + [BlockWrite(GpioWConf, data[1..])]
    {
      r := ConfPin(GpioWConf, pin, rb);
    }

    /** conf_input: the pin's bit in GPIO_R_CONF. */
    method ConfInput(pin: int, rb: seq<bv8>) returns (r: Result<int>)
      requires Valid() && |rb| == 2
      modifies data, this`bus
      ensures r == ValidatePin(pin)
      ensures r.Err? ==> bus == old(bus) && data[..] == old(data[..])
      ensures r.Ok? ==> data[..] == [GpioRConf, rb[0], rb[1] | PinMask(pin)]
      ensures r.Ok? ==> bus == old(bus) + ReadTransfers(RegReadback | GpioRConf) + [BlockWrite(GpioRConf, data[1..])]
    {
      r := ConfPin(GpioRConf, pin, rb);
    }

    /** conf_dac: the pin's bit in DAC_PIN_CONF. */
    method ConfDac(pin: int, rb: seq<bv8>) returns (r: Result<int>)
      requires Valid() && |rb| == 2
      modifies data, this`bus
      ensures r == ValidatePin(pin)
      ensures r.Err? ==> bus == old(bus) && data[..] == old(data[..])
      ensures r.Ok? ==> data[..] == [DacPinConf, rb[0], rb[1] | PinMask(pin)]
      ensures r.Ok? ==> bus == old(bus) + ReadTransfers(RegReadback | DacPinConf) + [BlockWrite(DacPinConf, data[1..])]
    {
      r := ConfPin(DacPinConf, pin, rb);
    }

    /** conf_3_state: the pin's bit in IO_3STATE_PIN. */
    method Conf3State(pin: int, rb: seq<bv8>) returns (r: Result<int>)
      requires Valid() && |rb| == 2
      modifies data, this`bus
      ensures r == ValidatePin(pin)
      ensures r.Err? ==> bus == old(bus) && data[..] == old(data[..])
      ensures r.Ok? ==> data[..] == [Io3StatePin, rb[0], rb[1] | PinMask(pin)]
      ensures r.Ok? ==> bus == old(bus) + ReadTransfers(RegReadback | Io3StatePin) + [BlockWrite(Io3StatePin, data[1..])]
    {
      r := ConfPin(Io3StatePin, pin, rb);
    }

    /**
     * conf_adc: the pin's bit in ADC_PIN_CONF; with the internal
     * reference, then also bit 1 of the MSB of PWRDWN_REFCONF, and bit 5
     * of the LSB of GP_CONTR_REF set for gain 2 and cleared otherwise.
     * rb, rbRef and rbGain are the three readbacks, in order.
     */
    method ConfAdc(pin: int, gain: int, rb: seq<bv8>, rbRef: seq<bv8>, rbGain: seq<bv8>) returns (r: Result<int>)
      requires Valid() && |rb| == 2 && |rbRef| == 2 && |rbGain| == 2
      modifies data, this`bus
      ensures r == ValidatePin(pin)
      ensures r.Err? ==> bus == old(bus) && data[..] == old(data[..])
      ensures r.Ok? && intrRef != 1 ==>
        bus == old(bus) + ReadTransfers(RegReadback | AdcPinConf)
               + [BlockWrite(AdcPinConf, [rb[0], rb[1] | PinMask(pin)])]
      ensures r.Ok? && intrRef == 1 ==>
        bus == old(bus) + ReadTransfers(RegReadback | AdcPinConf)
               + [BlockWrite(AdcPinConf, [rb[0], rb[1] | PinMask(pin)])]
               + ReadTransfers(RegReadback | PwrdwnRefconf)
               + [BlockWrite(PwrdwnRefconf, [rbRef[0] | 0x02, rbRef[1]])]
               + ReadTransfers(RegReadback | GpContrRef)
               + [BlockWrite(GpContrRef, [rbGain[0], if gain == 2 then rbGain[1] | 0x20 else rbGain[1] & !0x20])]
      ensures r.Ok? && intrRef != 1 ==> data[..] == [AdcPinConf, rb[0], rb[1] | PinMask(pin)]
      ensures r.Ok? && intrRef == 1 ==>
        data[..] == [GpContrRef, rbGain[0], if gain == 2 then rbGain[1] | 0x20 else rbGain[1] & !0x20]
    {
      r := ConfPin(AdcPinConf, pin, rb);
      if r.Err? {
        return;
      }
      if intrRef == 1 {
        ghost var b0 := bus;
        Rewrite(PwrdwnRefconf, rbRef[0] | 0x02, rbRef[1]);
        ghost var b1 := bus;
        Rewrite(GpContrRef, rbGain[0], if gain == 2 then rbGain[1] | 0x20 else rbGain[1] & !0x20);
        assert bus == b0 + (b1[|b0|..] + bus[|b1|..]);
      }
    }

    /**
     * set_3_state: HIGH sets the pin's bit, LOW and H_IMPD clear it; any
     * other state leaves the LSB of the buffer as the previous call left
     * it, and that stale byte is what is written.
     */
    method Set3State(pin: int, state: int, rb: seq<bv8>) returns (r: Result<()>)
      requires Valid() && |rb| == 2
      modifies data, this`bus
      ensures r.Ok? <==> ValidatePin(pin).Ok?
      ensures r.Err? ==> bus == old(bus) && data[..] == old(data[..])
      ensures r.Ok? ==> data[0] == Io3StatePin && data[1] == rb[0]
      ensures r.Ok? ==> data[2] == if state == StateHigh then rb[1] | PinMask(pin)
                                   else if state == StateLow || state == StateHImpd then rb[1] & !PinMask(pin)
                                   else old(data[2])
      ensures r.Ok? ==> bus == old(bus) + ReadTransfers(RegReadback | Io3StatePin) + [BlockWrite(Io3StatePin, data[1..])]
    {
      var v := ValidatePin(pin);
      if v.Err? {
        return Err(v.reason);
      }
      var lsb := data[2];
      if state == StateHigh {
        lsb := rb[1] | PinMask(pin);
      } else if state == StateLow {
        lsb := rb[1] & !PinMask(pin);
      } else if state == StateHImpd {
        lsb := rb[1] & !PinMask(pin);
      }
      Rewrite(Io3StatePin, rb[0], lsb);
      r := Ok(());
    }

    /** setOutput: MSB 0, the readback LSB with the pin's bit set for a true value and cleared otherwise. */
    method SetOutput(pin: int, value: bool, rb: seq<bv8>) returns (r: Result<()>)
      requires Valid() && |rb| == 2
      modifies data, this`bus
      ensures r.Ok? <==> ValidatePin(pin).Ok?
      ensures r.Err? ==> bus == old(bus) && data[..] == old(data[..])
      ensures r.Ok? ==> data[..] == [GpioWData, NoOpReg, if value then rb[1] | PinMask(pin) else rb[1] & !PinMask(pin)]
      ensures r.Ok? ==> bus == old(bus) + ReadTransfers(RegReadback | GpioWData) + [BlockWrite(GpioWData, data[1..])]
    {
      var v := ValidatePin(pin);
      if v.Err? {
        return Err(v.reason);
      }
      Rewrite(GpioWData, NoOpReg, if value then rb[1] | PinMask(pin) else rb[1] & !PinMask(pin));
      r := Ok(());
    }

    /** toggle: MSB 0, the readback LSB with the pin's bit flipped. */
    method Toggle(pin: int, rb: seq<bv8>) returns (r: Result<()>)
      requires Valid() && |rb| == 2
      modifies data, this`bus
      ensures r.Ok? <==> ValidatePin(pin).Ok?
      ensures r.Err? ==> bus == old(bus) && data[..] == old(data[..])
      ensures r.Ok? ==> data[..] == [GpioWData, NoOpReg, rb[1] ^ PinMask(pin)]
      ensures r.Ok? ==> data[2] ^ rb[1] == PinMask(pin)
      ensures r.Ok? ==> bus == old(bus) + ReadTransfers(RegReadback | GpioWData) + [BlockWrite(GpioWData, data[1..])]
    {
      var v := ValidatePin(pin);
      if v.Err? {
        return Err(v.reason);
      }
      FlipChangesMask(rb[1], PinMask(pin));
      Rewrite(GpioWData, NoOpReg, rb[1] ^ PinMask(pin));
      r := Ok(());
    }

    /** setVref: bit 1 of the MSB of PWRDWN_REFCONF set to activate the reference, cleared otherwise. */
    method SetVref(activate: bool, rb: seq<bv8>)
      requires Valid() && |rb| == 2
      modifies data, this`bus
      ensures data[..] == [PwrdwnRefconf, if activate then rb[0] | 0x02 else rb[0] & !0x02, rb[1]]
      ensures bus == old(bus) + ReadTransfers(RegReadback | PwrdwnRefconf) + [BlockWrite(PwrdwnRefconf, data[1..])]
    {
      Rewrite(PwrdwnRefconf, if activate then rb[0] | 0x02 else rb[0] & !0x02, rb[1]);
    }

    /** powerAll: bit 2 of the MSB of PWRDWN_REFCONF cleared to power up, set to power down. */
    method PowerAll(state: bool, rb: seq<bv8>)
      requires Valid() && |rb| == 2
      modifies data, this`bus
      ensures data[..] == [PwrdwnRefconf, if state then rb[0] & !0x04 else rb[0] | 0x04, rb[1]]
      ensures bus == old(bus) + ReadTransfers(RegReadback | PwrdwnRefconf) + [BlockWrite(PwrdwnRefconf, data[1..])]
    {
      Rewrite(PwrdwnRefconf, if state then rb[0] & !0x04 else rb[0] | 0x04, rb[1]);
    }

    /** getVref: read GP_CONTR_REF back and report 2500 or 5000 by bit 5 of its LSB. */
    method GetVref(rb: seq<bv8>) returns (v: int)
      requires Valid() && |rb| == 2
      modifies this`bus
      ensures v == Vref(rb[1])
      ensures bus == old(bus) + ReadTransfers(RegReadback | GpContrRef)
    {
      bus := bus + ReadTransfers(RegReadback | GpContrRef);
      v := 2500 * ((((rb[1] & 0x20) >> 5) as int) + 1);
    }

    /** getInputState: the pin's bit of the second byte of a GPIO readback, as 0 or 1. */
    method GetInputState(pin: int, msg: seq<bv8>) returns (r: Result<int>)
      requires Valid() && |msg| == 2
      modifies this`bus
      ensures r.Ok? <==> ValidatePin(pin).Ok?
      ensures r.Err? ==> bus == old(bus)
      ensures r.Ok? ==> (r.value == 0 || r.value == 1) && (r.value == 1 <==> msg[1] & PinMask(pin) != 0)
      ensures r.Ok? ==> bus == old(bus) + ReadTransfers(GpioReadback)
    {
      var v := ValidatePin(pin);
      if v.Err? {
        return Err(v.reason);
      }
      bus := bus + ReadTransfers(GpioReadback);
      r := Ok(if msg[1] & PinMask(pin) != 0 then 1 else 0);
    }

    /**
     * setDACmVolt with the code already computed: the DAC command byte
     * 0x10 | pin, then the code's high and low bytes.
     */
    method SetDac(pin: int, dacValue: int) returns (r: Result<()>)
      requires Valid()
      modifies data, this`bus
      ensures r.Ok? <==> ValidatePin(pin).Ok?
      ensures r.Err? ==> bus == old(bus) && data[..] == old(data[..])
      ensures r.Ok? ==> data[..] == [DacWrite | PinIndex(pin), HighByte(dacValue), LowByte(dacValue)]
      ensures r.Ok? ==> bus == old(bus) + [BlockWrite(data[0], data[1..])]
    {
      var v := ValidatePin(pin);
      if v.Err? {
        return Err(v.reason);
      }
      data[0] := DacWrite | PinIndex(pin);
      data[1] := HighByte(dacValue);
      data[2] := LowByte(dacValue);
      Flush();
      r := Ok(());
    }

    /** The sampling loop of readADCmVolt: one block read of the ADC readback per sample. */
    method TakeSamples(msgs: seq<seq<bv8>>) returns (values: seq<int>)
      requires forall i :: 0 <= i < |msgs| ==> |msgs[i]| == 2
      modifies this`bus
      ensures values == RawSamples(msgs)
      ensures bus == old(bus) + seq(|msgs|, _ => BlockRead(AdcReadback, 2))
    {
      values := [];
      var x := 0;
      while x < |msgs|
        invariant 0 <= x <= |msgs|
        invariant values == RawSamples(msgs[..x])
        invariant bus == old(bus) + seq(x, _ => BlockRead(AdcReadback, 2))
      {
        bus := bus + [BlockRead(AdcReadback, 2)];
        values := values + [RawAdc(msgs[x])];
        assert msgs[..x + 1][..x] == msgs[..x];
        x := x + 1;
      }
      assert msgs[..x] == msgs;
    }

    /**
     * readADCmVolt up to the averaging: select the pin in ADC_SEQ_REG with
     * repetition on, then take one sample per readback and average them
     * with integer division. msgs are the readbacks, one per sample.
     */
    method ReadAdc(pin: int, rb: seq<bv8>, msgs: seq<seq<bv8>>) returns (r: Result<int>)
      requires Valid() && |rb| == 2
      requires forall i :: 0 <= i < |msgs| ==> |msgs[i]| == 2
      modifies data, this`bus
      ensures ValidatePin(pin).Err? ==> r.Err? && bus == old(bus) && data[..] == old(data[..])
      ensures ValidatePin(pin).Ok? && |msgs| == 0 ==> r.Err?
      ensures ValidatePin(pin).Ok? && |msgs| > 0 ==> r == Ok(Sum(RawSamples(msgs)) / |msgs|)
      ensures r.Ok? ==> 0 <= r.value <= 4095
      ensures ValidatePin(pin).Ok? ==> data[..] == [AdcSeqReg, rb[0] | 0x02, PinMask(pin)]
      ensures ValidatePin(pin).Ok? ==>
        bus == old(bus) + ReadTransfers(RegReadback | AdcSeqReg) + [BlockWrite(AdcSeqReg, data[1..]), ByteWrite(AdcReadback)]
               + seq(|msgs|, _ => BlockRead(AdcReadback, 2))
    {
      var v := ValidatePin(pin);
      if v.Err? {
        return Err(v.reason);
      }
      Rewrite(AdcSeqReg, rb[0] | 0x02, PinMask(pin));
      bus := bus + [ByteWrite(AdcReadback)];
      var values := TakeSamples(msgs);
      if |values| == 0 {
        return Err("division by zero");
      }
      AverageBounds(values);
      r := Ok(Sum(values) / |values|);
    }
  }

  /** The pin number as the low bits of the DAC command byte. */
  function PinIndex(pin: int): (b: bv8)
    requires 0 <= pin < 8
    ensures b as int == pin
  {
    [0, 1, 2, 3, 4, 5, 6, 7][pin]
  }
}
