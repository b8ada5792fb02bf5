# PCA9557 I/O-expander driver, modelled in Dafny

The PCA9557 is an 8-bit I2C I/O expander with four one-byte registers:
Input (0x00, live input levels), Output (0x01, driven levels), Polarity
(0x02, 1 = inverted input sense) and Config (0x03, 0 = output, 1 = input).
The MicroPython driver `pca9557.py` sets a pin's mode, output level or
polarity by a read-modify-write of one bit of one of these registers, reads a
pin's level with a single read of Input, and a small adapter
class, `PCA9557Pin`, exposes one pin through a `machine.Pin`-like interface.

The project has three modules:

- `Bits` (`bits.dfy`): Python's `&`, `& ~` and `|` on non-negative integers,
  `1 << n`, single bits, and lemmas about them (the bit of an `& ~` or `|` is
  the Boolean combination of the operands' bits; `x & (1 << p)` is
  bit `p` of `x` times `1 << p`; `|` of two bytes is a byte; a byte is
  determined by its eight bits).
- `I2C` (`i2c.dfy`): the bus the driver talks to, as a class `Bus` that
  simulates one chip: its register file (`regs`, indexed by register address),
  a fault script (`faults`, one entry per upcoming transaction, `true` meaning
  the transport fails it; past the script's end every transaction succeeds)
  and a log of every transaction issued (`log`). `ReadFromMem` and
  `WriteToMem` stand for `machine.I2C.readfrom_mem` and `writeto_mem`.
- `Driver` (`driver.dfy`): the register and pin constants, the pure bit-update
  rule with its lemmas, the classes `PCA9557` and `PCA9557Pin`, and a startup
  scenario.

Every state-changing driver method states its whole effect on the bus: the
new register file, how much of the fault script it consumed, and exactly which
transactions it appended to the log, so "no bus access for an invalid pin" is
`unchanged(chip)` and "construction issues read Config, read Output, write
Config := 0x00, write Output := 0xFF, in that order" is an equation on the log.
Each per-pin read-modify-write is specified through the twostate predicates
`PCA9557.BitWritten` (the effect) and `PCA9557.Succeeded` (the result equals
the write's success), and the register file it leaves is the pure function
`AfterRmw`, whose contract and lemmas carry the bit-level properties.

Construction always succeeds, as the code is written: `_write_reg` catches
every exception and returns `False`, and `__init__` ignores both startup
writes' results; the
registers reach Config = 0x00 and Output = 0xFF only for the writes that
succeeded (`AfterStartup`). The re-raise in `__init__` cannot be reached
through these helpers.

Reads mask transport failure as 0, as the code does; `FailedReadClearsOtherBits`
proves the consequence: when the read of a read-modify-write fails and the
write succeeds, every other bit of the register is cleared.

The constants of `pca9557.py:17-29` (default address 0x19, the four register
addresses, `PIN_LOW`/`PIN_HIGH`, `PIN_OUTPUT`/`PIN_INPUT`,
`PIN_NON_INVERTED`/`PIN_INVERTED`) and `IN`/`OUT` of `pca9557.py:368-369` are
declared with the same names and values at the top of `driver.dfy`. The
default arguments `addr=PCA9557_ADDR, debug=False` of `PCA9557.__init__` and
`debug=False` of `PCA9557Pin.__init__` are default parameters of the two
constructors, and the defaults `val=None` of `value` and `mode=None` of `init`
are default parameters `None` of `PCA9557Pin.Value` and `PCA9557Pin.Init`.

## Model

| member | source | states |
|---|---|---|
| `Bits.BitOfAndNot` | pca9557.py:155 | bit i of `a & ~b` is set iff bit i of `a` is set and bit i of `b` is clear |
| `Bits.BitOfOr` | pca9557.py:158 | bit i of Python's bitwise or of `a` and `b` is set iff bit i of `a` or of `b` is set |
| `Bits.BitOfPow2` | pca9557.py:155 | `1 << p` has bit p set and no other |
| `Bits.AndPow2` | pca9557.py:205 | `a & (1 << p)` is bit p of `a` times `1 << p`, so it is non-zero iff bit p is set |
| `Bits.OrBelow` | pca9557.py:158 | the bitwise or of two n-bit numbers is an n-bit number |
| `Bits.Pow2` | pca9557.py:155 | `1 << n` is positive |
| `Bits.Bit` | pca9557.py:131 | bit i of a number is 0 or 1 |
| `Bits.And` | pca9557.py:205 | `a & b` exceeds neither operand |
| `Bits.AndNot` | pca9557.py:155 | `a & ~b` never exceeds `a` |
| `Bits.Or` | pca9557.py:158 | `a` or-ed with `b` is at least each operand |
| `Driver.PinValid` | pca9557.py:147 | the range check `0 <= pin <= 7`; for a valid pin the mask `1 << pin` fits in a byte |
| `Driver.ReadValue` | pca9557.py:111-117 | the value `_read_reg` yields: 0 when the read failed, the register's byte otherwise, so it differs from the byte only when the read failed |
| `I2C.Bus.ReadFromMem` | pca9557.py:112 | simulated `readfrom_mem(addr, reg, 1)`: the register's byte, or no data when the transport fails; one logged read; no register changes |
| `I2C.Bus.WriteToMem` | pca9557.py:95 | simulated `writeto_mem(addr, reg, bytes([value]))`: success unless the transport fails; a successful write stores the byte in that register only; one logged write |
| `Driver.UpdateBit` | pca9557.py:153-158 | the value written back is a byte (so `bytes([value])` cannot fail), bit `pin` is 0 when clearing and 1 when setting, and the other seven bits are those read |
| `Driver.UpdateBitOverwrite` | pca9557.py:153-158 | updating bit `pin` twice equals doing only the second update |
| `Driver.UpdateBitCommutes` | pca9557.py:153-158 | updates of two different pins commute |
| `Driver.UpdateBitKeeps` | pca9557.py:153-158 | requesting the value a bit already has leaves the byte unchanged |
| `Driver.UpdateBitUndo` | pca9557.py:153-158 | changing bit `pin` and then restoring its old value restores the byte |
| `Driver.PinLevel` | pca9557.py:205 | `PIN_HIGH if value & (1 << pin) else PIN_LOW` is exactly bit `pin` of the value: 0 or 1, never -1 |
| `Driver.AfterRmw` | pca9557.py:152-160 | after a read-modify-write: a failed write leaves the register file unchanged; no other register changes; a successful write leaves bit `pin` as requested; with a successful read the other seven bits keep their values |
| `Driver.FailedReadClearsOtherBits` | pca9557.py:111-117 | a failed read (read as 0) followed by a successful write leaves only bit `pin` possibly set |
| `Driver.AfterStartup` | pca9557.py:63-68 | after the startup writes, Config is 0x00 and Output is 0xFF for each write that succeeded, the old value otherwise; Input and Polarity are untouched |
| `Driver.FormatRoundTrip` | pca9557.py:129-135 | reading back the eight binary digits of a byte, most significant first, gives the byte |
| `Driver.PCA9557.constructor` | pca9557.py:42-82 | keeps bus, address and debug flag; issues read Config, read Output, write Config := 0x00, write Output := 0xFF (and with `debug` two more reads), in that order; the register file is `AfterStartup` of the writes' outcomes; never fails |
| `Driver.PCA9557.WriteReg` | pca9557.py:84-100 | a value outside 0..255 returns false with no bus transaction; otherwise one write, whose success is the result; a failed write changes no register |
| `Driver.PCA9557.ReadReg` | pca9557.py:102-117 | one read of the register; returns its byte, or 0 when the transport failed; no register changes |
| `Driver.PCA9557.FormatBinary` | pca9557.py:119-135 | eight characters, character k is '1' iff bit 7-k of the value is set and '0' otherwise |
| `Driver.PCA9557.ReadModifyWrite` | pca9557.py:152-160 | one read and one write of the register, register file as `AfterRmw` gives it, result equal to the write's success |
| `Driver.PCA9557.SetPinMode` | pca9557.py:137-160 | invalid pin: false and no bus transaction; otherwise `PIN_OUTPUT` clears Config bit `pin` and any other mode sets it, as `AfterRmw`; result is the write's success |
| `Driver.PCA9557.SetPinValue` | pca9557.py:162-188 | invalid pin: false and no bus transaction; otherwise `PIN_LOW` clears Output bit `pin` and any other value sets it; result is the write's success |
| `Driver.PCA9557.GetPinValue` | pca9557.py:190-205 | invalid pin: -1 and no bus transaction; otherwise one read of Input and the result is bit `pin` of the value read (0 or 1); -1 exactly for an invalid pin |
| `Driver.PCA9557.SetPinPolarity` | pca9557.py:207-230 | invalid pin: false and no bus transaction; otherwise `PIN_NON_INVERTED` clears Polarity bit `pin` and any other value sets it; result is the write's success |
| `Driver.PCA9557.ReadAllPins` | pca9557.py:232-250 | reads Input, Output, Config, Polarity in that order and returns each read value in that order; no register changes |
| `Driver.PCA9557.WriteOutput` | pca9557.py:252-262 | same effect and result as `SetPinValue(pin, value)` |
| `Driver.PCA9557.PinHigh` | pca9557.py:265-274 | same effect and result as `SetPinValue(pin, PIN_HIGH)`: sets Output bit `pin` |
| `Driver.PCA9557.PinLow` | pca9557.py:276-285 | same effect and result as `SetPinValue(pin, PIN_LOW)`: clears Output bit `pin` |
| `Driver.PCA9557.PinValue` | pca9557.py:287-297 | sets Output bit `pin` for a non-zero value and clears it for zero, like `SetPinValue` |
| `Driver.PCA9557Pin.constructor` | pca9557.py:305-319 | keeps expander, pin and debug flag, and performs `SetPinMode(pinNum, PIN_OUTPUT)` |
| `Driver.PCA9557Pin.On` | pca9557.py:321-327 | `SetPinValue(pinNum, PIN_HIGH)`: effect and result |
| `Driver.PCA9557Pin.Off` | pca9557.py:329-335 | `SetPinValue(pinNum, PIN_LOW)`: effect and result |
| `Driver.PCA9557Pin.Value` | pca9557.py:337-349 | with a value: sets the pin high iff the value is non-zero and returns the write's success; without one: returns `GetPinValue(pinNum)` with its effect |
| `Driver.PCA9557Pin.Init` | pca9557.py:351-365 | mode 1 configures the pin as input, any other mode as output, no mode touches no register; returns the adapter itself |
| `Driver.StartupScenario` | pca9557.py:57-68 | on a chip with Config 0xFF and Output 0x00, construction leaves Config 0x00 and Output 0xFF; making pin 3 an input gives Config 0x08; with Input bit 3 then set, `GetPinValue(3)` is 1 |

## Left out

- The `machine.I2C` transport is replaced by the simulated `I2C.Bus`; which transactions fail is given by its fault script instead of by hardware, and the device address is recorded in the log but not interpreted.
- All `print` diagnostics and `sys.print_exception` are left out; they do not affect results or register contents. The debug reads in `__init__` are bus transactions and are modelled.
- Exception types are not distinguished: a transport failure is one Boolean outcome, and the `except ... raise` of `__init__` is not modelled because no exception reaches it.
- The chip's electrical behaviour is not modelled: Input is supplied from outside (`Bus.ExternalChange`), polarity inversion does not change what Input reports, the simulated chip does not refuse writes to the read-only Input register (the driver never issues one), and Output bits of input pins are stored like any other.
- The `pull` argument of `init` and the `PULL_UP`/`PULL_DOWN` constants are ignored by the code and left out.
- Concurrency, and the lost update two interleaved read-modify-writes could cause, are left out: the driver is single-threaded.
- Python's dynamic typing is not modelled: pins, modes, levels and polarities are integers, and truthiness of a level is "non-zero".
- Driver.PCA9557.FormatBinary: takes a non-negative integer; Python's two's-complement view of a negative argument is not modelled (every caller passes a register byte).
