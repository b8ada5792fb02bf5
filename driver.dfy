/** The PCA9557 8-bit I/O-expander driver: setting a pin's mode, output level
    or polarity is a read-modify-write of one bit of one of the chip's four
    registers; reading a pin's level is one read of the Input register. */
module Driver {
  import opened Bits
  import opened I2C

  /** Default I2C address of the chip. */
  const PCA9557_ADDR := 0x19

  /** Register addresses. */
  const PCA9557_INPUT_REG: Reg := 0x00
  const PCA9557_OUTPUT_REG: Reg := 0x01
  const PCA9557_POLARITY_REG: Reg := 0x02
  const PCA9557_CONFIG_REG: Reg := 0x03

  /** Pin levels, directions and polarities. */
  const PIN_LOW := 0
  const PIN_HIGH := 1
  const PIN_OUTPUT := 0
  const PIN_INPUT := 1
  const PIN_NON_INVERTED := 0
  const PIN_INVERTED := 1

  /** Pin modes as the `machine.Pin`-like adapter names them. */
  const IN := 1
  const OUT := 0

  /** `0 <= pin <= 7`; the mask `1 << pin` of a valid pin fits in a byte. */
  predicate PinValid(pin: int): (valid: bool)
    ensures valid ==> 0 <= pin && Pow2(pin) < 256
  {
    if 0 <= pin <= 7 then Pow2Monotone(pin, 7); true else false
  }

  // ---------------------------------------------------------------------
  // The bit update rule

  lemma MaskFacts(current: Byte, pin: nat)
    requires pin < 8
    ensures AndNot(current, Pow2(pin)) < 256 && Or(current, Pow2(pin)) < 256
    ensures forall q :: Bit(AndNot(current, Pow2(pin)), q) == if Bit(current, q) == 1 && Bit(Pow2(pin), q) == 0 then 1 else 0
    ensures forall q :: Bit(Or(current, Pow2(pin)), q) == if Bit(current, q) == 1 || Bit(Pow2(pin), q) == 1 then 1 else 0
    ensures forall q :: Bit(Pow2(pin), q) == if q == pin then 1 else 0
  {
    Pow2Byte();
    assert Pow2(pin) < 256 by {
      if pin < 8 {
        assert Pow2(pin) <= Pow2(7) by { Pow2Monotone(pin, 7); }
      }
    }
    OrBelow(current, Pow2(pin), 8);
    forall q: nat
      ensures Bit(AndNot(current, Pow2(pin)), q) == if Bit(current, q) == 1 && Bit(Pow2(pin), q) == 0 then 1 else 0
      ensures Bit(Or(current, Pow2(pin)), q) == if Bit(current, q) == 1 || Bit(Pow2(pin), q) == 1 then 1 else 0
      ensures Bit(Pow2(pin), q) == if q == pin then 1 else 0
    {
      BitOfAndNot(current, Pow2(pin), q);
      BitOfOr(current, Pow2(pin), q);
      BitOfPow2(pin, q);
    }
  }

  lemma {:induction false} Pow2Monotone(m: nat, n: nat)
    requires m <= n
    ensures Pow2(m) <= Pow2(n)
  {
    if m < n {
      Pow2Monotone(m, n - 1);
    }
  }

  /** The byte a read-modify-write writes back: `current & ~(1 << pin)` when
      `clear`, `current | (1 << pin)` otherwise. It is a byte again, bit `pin`
      holds the requested value and the other seven bits are those of `current`. */
  function UpdateBit(current: Byte, pin: nat, clear: bool): (r: int)
    requires pin < 8
    ensures 0 <= r < 256
    ensures Bit(r, pin) == if clear then 0 else 1
    ensures forall q :: 0 <= q < 8 && q != pin ==> Bit(r, q) == Bit(current, q)
  {
    MaskFacts(current, pin);
    if clear then AndNot(current, Pow2(pin)) else Or(current, Pow2(pin))
  }

  /** Updating the same bit twice: the second update alone decides the result. */
  lemma UpdateBitOverwrite(v: Byte, pin: nat, first: bool, second: bool)
    requires pin < 8
    ensures UpdateBit(UpdateBit(v, pin, first), pin, second) == UpdateBit(v, pin, second)
  {
    ByteBitsDetermine(UpdateBit(UpdateBit(v, pin, first), pin, second), UpdateBit(v, pin, second));
  }

  /** Updates of two different bits commute. */
  lemma UpdateBitCommutes(v: Byte, p: nat, q: nat, cp: bool, cq: bool)
    requires p < 8 && q < 8 && p != q
    ensures UpdateBit(UpdateBit(v, p, cp), q, cq) == UpdateBit(UpdateBit(v, q, cq), p, cp)
  {
    ByteBitsDetermine(UpdateBit(UpdateBit(v, p, cp), q, cq), UpdateBit(UpdateBit(v, q, cq), p, cp));
  }

  /** Requesting the value a bit already has changes nothing. */
  lemma UpdateBitKeeps(v: Byte, pin: nat, clear: bool)
    requires pin < 8
    requires Bit(v, pin) == if clear then 0 else 1
    ensures UpdateBit(v, pin, clear) == v
  {
    ByteBitsDetermine(UpdateBit(v, pin, clear), v);
  }

  /** Setting bit `pin` one way and then back to its original value restores the byte. */
  lemma UpdateBitUndo(v: Byte, pin: nat, clear: bool)
    requires pin < 8
    ensures UpdateBit(UpdateBit(v, pin, clear), pin, Bit(v, pin) == 0) == v
  {
    UpdateBitOverwrite(v, pin, clear, Bit(v, pin) == 0);
    UpdateBitKeeps(v, pin, Bit(v, pin) == 0);
  }

  /** `PIN_HIGH if value & (1 << pin) else PIN_LOW`: exactly bit `pin` of `value`. */
  function PinLevel(value: Byte, pin: nat): (level: int)
    requires pin < 8
    ensures level == Bit(value, pin)
  {
    AndPow2(value, pin);
    if And(value, Pow2(pin)) != 0 then PIN_HIGH else PIN_LOW
  }

  // ---------------------------------------------------------------------
  // The register file after each kind of transaction sequence

  /** What `_read_reg(reg)` yields: the register's byte, or 0 when the transport failed. */
  function ReadValue(regs: RegFile, reg: Reg, fails: bool): (v: Byte)
    ensures fails ==> v == 0
    ensures v == regs[reg] || v == 0
    ensures v != regs[reg] ==> fails
  {
    if fails then 0 else regs[reg]
  }

  /** The register file after a read-modify-write of bit `pin` of `reg`, given
      whether its read and its write failed. */
  function AfterRmw(regs: RegFile, reg: Reg, pin: nat, clear: bool, readFails: bool, writeFails: bool): (r: RegFile)
    requires pin < 8
    ensures writeFails ==> r == regs
    ensures forall other: Reg :: other != reg ==> r[other] == regs[other]
    ensures !writeFails ==> Bit(r[reg], pin) == if clear then 0 else 1
    ensures !readFails ==> forall q :: 0 <= q < 8 && q != pin ==> Bit(r[reg], q) == Bit(regs[reg], q)
  {
    if writeFails then regs else regs[reg := UpdateBit(ReadValue(regs, reg, readFails), pin, clear)]
  }

  /** A failed read reads as 0, so a write that then succeeds wipes every other
      bit of the register: only bit `pin` can be left set. */
  lemma FailedReadClearsOtherBits(regs: RegFile, reg: Reg, pin: nat, clear: bool)
    requires pin < 8
    ensures AfterRmw(regs, reg, pin, clear, true, false)[reg] == if clear then 0 else Pow2(pin)
  {
    MaskFacts(0, pin);
    forall q | 0 <= q < 8 {
      BitOfZero(q);
    }
    ByteBitsDetermine(AfterRmw(regs, reg, pin, clear, true, false)[reg], if clear then 0 else Pow2(pin));
  }

  /** The register file after construction, given whether the two startup writes failed. */
  function AfterStartup(regs: RegFile, configFails: bool, outputFails: bool): (r: RegFile)
    ensures r[PCA9557_INPUT_REG] == regs[PCA9557_INPUT_REG]
    ensures r[PCA9557_POLARITY_REG] == regs[PCA9557_POLARITY_REG]
    ensures r[PCA9557_CONFIG_REG] == if configFails then regs[PCA9557_CONFIG_REG] else 0x00
    ensures r[PCA9557_OUTPUT_REG] == if outputFails then regs[PCA9557_OUTPUT_REG] else 0xFF
  {
    var afterConfig := if configFails then regs else regs[PCA9557_CONFIG_REG := 0x00];
    if outputFails then afterConfig else afterConfig[PCA9557_OUTPUT_REG := 0xFF]
  }

  // ---------------------------------------------------------------------
  // The binary formatter and its inverse

  function Digit(b: nat): (c: char)
  {
    if b == 1 then '1' else '0'
  }

  /** The number a most-significant-first string of binary digits denotes. */
  function BinaryValue(s: string): (v: nat)
  {
    if s == [] then 0 else 2 * BinaryValue(s[..|s| - 1]) + (if s[|s| - 1] == '1' then 1 else 0)
  }

  lemma {:induction false} DigitsDenote(v: nat, n: nat, s: string)
    requires v < Pow2(n) && |s| == n
    requires forall k :: 0 <= k < n ==> s[k] == Digit(Bit(v, n - 1 - k))
    ensures BinaryValue(s) == v
  {
    if n > 0 {
      var init := s[..n - 1];
      forall k | 0 <= k < n - 1
        ensures init[k] == Digit(Bit(v / 2, n - 2 - k))
      {
        assert Bit(v, n - 1 - k) == Bit(v / 2, n - 2 - k);
      }
      DigitsDenote(v / 2, n - 1, init);
      assert s[n - 1] == Digit(v % 2);
    }
  }

  /** Reading back the 8 digits the formatter produces gives the byte again. */
  lemma FormatRoundTrip(v: Byte, s: string)
    requires |s| == 8 && forall k :: 0 <= k < 8 ==> s[k] == Digit(Bit(v, 7 - k))
    ensures BinaryValue(s) == v
  {
    Pow2Byte();
    DigitsDenote(v, 8, s);
  }

  // ---------------------------------------------------------------------
  // The driver

  class PCA9557 {
    /** The bus handle the driver was given (`self.i2c`). */
    const chip: Bus
    const addr: int
    const debug: bool

    /** The whole effect of a per-pin read-modify-write of `reg`: on a valid pin,
        one read and one write of `reg`, with the register file as `AfterRmw`
        gives it; on an invalid pin, no bus transaction at all. */
    twostate predicate BitWritten(reg: Reg, pin: int, clear: bool)
      reads chip
    {
      if PinValid(pin) then
        var regs, faults := old(chip.regs), old(chip.faults);
        chip.regs == AfterRmw(regs, reg, pin, clear, Fails(faults, 0), Fails(faults, 1))
        && chip.faults == Drop(faults, 2)
        && chip.log == old(chip.log) + [Read(addr, reg), Write(addr, reg, UpdateBit(ReadValue(regs, reg, Fails(faults, 0)), pin, clear))]
      else
        unchanged(chip)
    }

    /** Whether a per-pin read-modify-write reports success. */
    twostate predicate Succeeded(pin: int, ok: bool)
      reads chip
    {
      ok == (PinValid(pin) && !Fails(old(chip.faults), 1))
    }

    /** The whole effect of `get_pin_value(pin)` with result `level`. */
    twostate predicate LevelRead(pin: int, level: int)
      reads chip
    {
      if PinValid(pin) then
        level == PinLevel(ReadValue(old(chip.regs), PCA9557_INPUT_REG, Fails(old(chip.faults), 0)), pin)
        && chip.regs == old(chip.regs) && chip.faults == Drop(old(chip.faults), 1)
        && chip.log == old(chip.log) + [Read(addr, PCA9557_INPUT_REG)]
      else
        level == -1 && unchanged(chip)
    }

    /** Reads Config and Output, writes Config := 0x00 and Output := 0xFF, and
        with `debug` reads both back; failed writes do not make construction fail. */
    constructor (i2c: Bus, addr: int := PCA9557_ADDR, debug: bool := false)
      modifies i2c
      ensures chip == i2c && this.addr == addr && this.debug == debug
      ensures i2c.regs == AfterStartup(old(i2c.regs), Fails(old(i2c.faults), 2), Fails(old(i2c.faults), 3))
      ensures i2c.log == old(i2c.log)
                         + [Read(addr, PCA9557_CONFIG_REG), Read(addr, PCA9557_OUTPUT_REG),
                            Write(addr, PCA9557_CONFIG_REG, 0x00), Write(addr, PCA9557_OUTPUT_REG, 0xFF)]
                         + (if debug then [Read(addr, PCA9557_CONFIG_REG), Read(addr, PCA9557_OUTPUT_REG)] else [])
      ensures i2c.faults == Drop(old(i2c.faults), if debug then 6 else 4)
    {
      chip := i2c;
      this.addr := addr;
      this.debug := debug;
      new;
      ghost var faults := i2c.faults;
      var config := ReadReg(PCA9557_CONFIG_REG);
      var output := ReadReg(PCA9557_OUTPUT_REG);
      var _ := WriteReg(PCA9557_CONFIG_REG, 0x00);
      var _ := WriteReg(PCA9557_OUTPUT_REG, 0xFF);
      DropDrop(faults, 1, 1);
      DropDrop(faults, 2, 1);
      DropDrop(faults, 3, 1);
      if debug {
        config := ReadReg(PCA9557_CONFIG_REG);
        output := ReadReg(PCA9557_OUTPUT_REG);
        DropDrop(faults, 4, 1);
        DropDrop(faults, 5, 1);
      }
    }

    /** `_write_reg`: a value that is not a byte fails before any bus traffic;
        otherwise one write, whose success is the result. */
    method WriteReg(reg: Reg, value: int) returns (ok: bool)
      modifies chip
      ensures !(0 <= value < 256) ==> !ok && unchanged(chip)
      ensures 0 <= value < 256 ==>
        ok == !Fails(old(chip.faults), 0)
        && chip.regs == (if ok then old(chip.regs)[reg := value] else old(chip.regs))
        && chip.faults == Drop(old(chip.faults), 1)
        && chip.log == old(chip.log) + [Write(addr, reg, value)]
    {
      if !(0 <= value < 256) {
        return false;
      }
      ok := chip.WriteToMem(addr, reg, value);
    }

    /** `_read_reg`: one read; the register's byte, or 0 when the transport failed. */
    method ReadReg(reg: Reg) returns (value: Byte)
      modifies chip
      ensures value == ReadValue(old(chip.regs), reg, Fails(old(chip.faults), 0))
      ensures chip.regs == old(chip.regs) && chip.faults == Drop(old(chip.faults), 1)
      ensures chip.log == old(chip.log) + [Read(addr, reg)]
    {
      var data := chip.ReadFromMem(addr, reg);
      match data
      case Some(b) => value := b;
      case None => value := 0;
    }

    /** `_format_binary`: eight digits, most significant bit first. */
    method FormatBinary(value: nat) returns (binary: string)
      ensures |binary| == 8
      ensures forall k :: 0 <= k < 8 ==> binary[k] == Digit(Bit(value, 7 - k))
    {
      binary := "";
      for i := 8 downto 0
        invariant |binary| == 8 - i
        invariant forall k :: 0 <= k < 8 - i ==> binary[k] == Digit(Bit(value, 7 - k))
      {
        AndPow2(value, i);
        if And(value, Pow2(i)) != 0 {
          binary := binary + "1";
        } else {
          binary := binary + "0";
        }
      }
    }

    /** The read-modify-write the three `set_pin_*` operations share. */
    method ReadModifyWrite(reg: Reg, pin: nat, clear: bool) returns (ok: bool)
      requires pin < 8
      modifies chip
      ensures Succeeded(pin, ok)
      ensures BitWritten(reg, pin, clear)
    {
      ghost var faults := chip.faults;
      var current := ReadReg(reg);
      var newValue := UpdateBit(current, pin, clear);
      DropDrop(faults, 1, 1);
      ok := WriteReg(reg, newValue);
    }

    /** `set_pin_mode`: `PIN_OUTPUT` clears Config bit `pin`, any other mode sets it. */
    method SetPinMode(pin: int, mode: int) returns (ok: bool)
      modifies chip
      ensures Succeeded(pin, ok)
      ensures BitWritten(PCA9557_CONFIG_REG, pin, mode == PIN_OUTPUT)
    {
      if !PinValid(pin) {
        return false;
      }
      ok := ReadModifyWrite(PCA9557_CONFIG_REG, pin, mode == PIN_OUTPUT);
    }

    /** `set_pin_value`: `PIN_LOW` clears Output bit `pin`, any other value sets it. */
    method SetPinValue(pin: int, value: int) returns (ok: bool)
      modifies chip
      ensures Succeeded(pin, ok)
      ensures BitWritten(PCA9557_OUTPUT_REG, pin, value == PIN_LOW)
    {
      if !PinValid(pin) {
        return false;
      }
      ok := ReadModifyWrite(PCA9557_OUTPUT_REG, pin, value == PIN_LOW);
    }

    /** `get_pin_value`: bit `pin` of the Input register as read, or -1 for an invalid pin. */
    method GetPinValue(pin: int) returns (level: int)
      modifies chip
      ensures LevelRead(pin, level)
      ensures PinValid(pin) <==> level != -1
      ensures PinValid(pin) ==> level == PIN_LOW || level == PIN_HIGH
    {
      if !PinValid(pin) {
        return -1;
      }
      var value := ReadReg(PCA9557_INPUT_REG);
      level := PinLevel(value, pin);
    }

    /** `set_pin_polarity`: `PIN_NON_INVERTED` clears Polarity bit `pin`, any other value sets it. */
    method SetPinPolarity(pin: int, polarity: int) returns (ok: bool)
      modifies chip
      ensures Succeeded(pin, ok)
      ensures BitWritten(PCA9557_POLARITY_REG, pin, polarity == PIN_NON_INVERTED)
    {
      if !PinValid(pin) {
        return false;
      }
      ok := ReadModifyWrite(PCA9557_POLARITY_REG, pin, polarity == PIN_NON_INVERTED);
    }

    /** `read_all_pins`: Input, Output, Config and Polarity, read in that order. */
    method ReadAllPins() returns (inputVal: Byte, outputVal: Byte, configVal: Byte, polarityVal: Byte)
      modifies chip
      ensures inputVal == ReadValue(old(chip.regs), PCA9557_INPUT_REG, Fails(old(chip.faults), 0))
      ensures outputVal == ReadValue(old(chip.regs), PCA9557_OUTPUT_REG, Fails(old(chip.faults), 1))
      ensures configVal == ReadValue(old(chip.regs), PCA9557_CONFIG_REG, Fails(old(chip.faults), 2))
      ensures polarityVal == ReadValue(old(chip.regs), PCA9557_POLARITY_REG, Fails(old(chip.faults), 3))
      ensures chip.regs == old(chip.regs) && chip.faults == Drop(old(chip.faults), 4)
      ensures chip.log == old(chip.log) + [Read(addr, PCA9557_INPUT_REG), Read(addr, PCA9557_OUTPUT_REG),
                                           Read(addr, PCA9557_CONFIG_REG), Read(addr, PCA9557_POLARITY_REG)]
    {
      ghost var faults := chip.faults;
      inputVal := ReadReg(PCA9557_INPUT_REG);
      outputVal := ReadReg(PCA9557_OUTPUT_REG);
      DropDrop(faults, 1, 1);
      configVal := ReadReg(PCA9557_CONFIG_REG);
      DropDrop(faults, 2, 1);
      polarityVal := ReadReg(PCA9557_POLARITY_REG);
      DropDrop(faults, 3, 1);
    }

    /** `write_output`: `set_pin_value` with the value passed through. */
    method WriteOutput(pin: int, value: int) returns (ok: bool)
      modifies chip
      ensures Succeeded(pin, ok)
      ensures BitWritten(PCA9557_OUTPUT_REG, pin, value == PIN_LOW)
    {
      ok := SetPinValue(pin, value);
    }

    /** `pin_high`: `set_pin_value(pin, PIN_HIGH)`. */
    method PinHigh(pin: int) returns (ok: bool)
      modifies chip
      ensures Succeeded(pin, ok)
      ensures BitWritten(PCA9557_OUTPUT_REG, pin, false)
    {
      ok := SetPinValue(pin, PIN_HIGH);
    }

    /** `pin_low`: `set_pin_value(pin, PIN_LOW)`. */
    method PinLow(pin: int) returns (ok: bool)
      modifies chip
      ensures Succeeded(pin, ok)
      ensures BitWritten(PCA9557_OUTPUT_REG, pin, true)
    {
      ok := SetPinValue(pin, PIN_LOW);
    }

    /** `pin_value`: high for a non-zero value, low for zero. */
    method PinValue(pin: int, value: int) returns (ok: bool)
      modifies chip
      ensures Succeeded(pin, ok)
      ensures BitWritten(PCA9557_OUTPUT_REG, pin, value == 0)
    {
      ok := SetPinValue(pin, if value != 0 then PIN_HIGH else PIN_LOW);
    }
  }

  // ---------------------------------------------------------------------
  // The single-pin adapter

  /** What `PCA9557Pin.value` returns: the write's success, or the level read. */
  datatype Reply = Written(ok: bool) | Level(level: int)

  class PCA9557Pin {
    const pca9557: PCA9557
    const pinNum: int
    const debug: bool

    /** Holds the expander and the pin, and configures the pin as an output. */
    constructor (pca9557: PCA9557, pinNum: int, debug: bool := false)
      modifies pca9557.chip
      ensures this.pca9557 == pca9557 && this.pinNum == pinNum && this.debug == debug
      ensures pca9557.BitWritten(PCA9557_CONFIG_REG, pinNum, true)
    {
      this.pca9557 := pca9557;
      this.pinNum := pinNum;
      this.debug := debug;
      new;
      var _ := pca9557.SetPinMode(pinNum, PIN_OUTPUT);
    }

    /** Drives the pin high. */
    method On() returns (ok: bool)
      modifies pca9557.chip
      ensures pca9557.Succeeded(pinNum, ok)
      ensures pca9557.BitWritten(PCA9557_OUTPUT_REG, pinNum, false)
    {
      ok := pca9557.SetPinValue(pinNum, PIN_HIGH);
    }

    /** Drives the pin low. */
    method Off() returns (ok: bool)
      modifies pca9557.chip
      ensures pca9557.Succeeded(pinNum, ok)
      ensures pca9557.BitWritten(PCA9557_OUTPUT_REG, pinNum, true)
    {
      ok := pca9557.SetPinValue(pinNum, PIN_LOW);
    }

    /** With a value, drives the pin high for a non-zero value and low for zero;
        without one, reads the pin's level. */
    method Value(val: Option<int> := None) returns (reply: Reply)
      modifies pca9557.chip
      ensures val.Some? ==> reply.Written? && pca9557.Succeeded(pinNum, reply.ok)
                            && pca9557.BitWritten(PCA9557_OUTPUT_REG, pinNum, val.value == 0)
      ensures val.None? ==> reply.Level? && pca9557.LevelRead(pinNum, reply.level)
    {
      match val
      case Some(v) =>
        var ok := pca9557.SetPinValue(pinNum, if v != 0 then PIN_HIGH else PIN_LOW);
        reply := Written(ok);
      case None =>
        var level := pca9557.GetPinValue(pinNum);
        reply := Level(level);
    }

    /** Mode `IN` makes the pin an input, any other mode an output, no mode
        touches nothing; returns the adapter itself. */
    method Init(mode: Option<int> := None) returns (self: PCA9557Pin)
      modifies pca9557.chip
      ensures self == this
      ensures mode.None? ==> unchanged(pca9557.chip)
      ensures mode.Some? ==> pca9557.BitWritten(PCA9557_CONFIG_REG, pinNum, mode.value != IN)
    {
      if mode.Some? {
        var pinMode := if mode.value == 1 then PIN_INPUT else PIN_OUTPUT;
        var _ := pca9557.SetPinMode(pinNum, pinMode);
      }
      return this;
    }
  }

  /** Startup on a chip whose Config is 0xFF: construction, making pin 3 an
      input, then pin 3 going high outside the driver. */
  method StartupScenario() returns (config: Byte, output: Byte, after: Byte, level: int)
    ensures config == 0x00 && output == 0xFF
    ensures after == 0x08 && level == PIN_HIGH
  {
    var bus := new Bus(0x00, 0x00, 0x00, 0xFF, []);
    var expander := new PCA9557(bus);
    config, output := bus.regs[PCA9557_CONFIG_REG], bus.regs[PCA9557_OUTPUT_REG];
    var ok := expander.SetPinMode(3, PIN_INPUT);
    after := bus.regs[PCA9557_CONFIG_REG];
    bus.ExternalChange(PCA9557_INPUT_REG, 0x08);
    level := expander.GetPinValue(3);
  }
}
