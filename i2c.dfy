/** A simulated I2C bus with one PCA9557 on it: the chip's four-register file,
    a scripted fault oracle that decides which transactions the transport fails,
    and a log of every transaction the driver issued. */
module I2C {
  import opened Bits

  datatype Option<T> = None | Some(value: T)

  /** A register address of the chip. */
  type Reg = r: int | 0 <= r < 4

  /** The chip's registers, indexed by register address. */
  type RegFile = s: seq<Byte> | |s| == 4 witness [0, 0, 0, 0]

  /** One bus transaction, as the transport sees it. */
  datatype Transaction =
    | Read(addr: int, reg: Reg)
    | Write(addr: int, reg: Reg, value: Byte)

  /** Whether the `k`-th transaction from now fails; past the script's end none does. */
  function Fails(faults: seq<bool>, k: nat): (fails: bool)
  {
    k < |faults| && faults[k]
  }

  /** The fault script after `n` more transactions. */
  function Drop(faults: seq<bool>, n: nat): (rest: seq<bool>)
  {
    if n <= |faults| then faults[n..] else []
  }

  lemma DropDrop(faults: seq<bool>, m: nat, n: nat)
    ensures Drop(Drop(faults, m), n) == Drop(faults, m + n)
    ensures forall k: nat :: Fails(Drop(faults, m), k) == Fails(faults, m + k)
  {
  }

  class Bus {
    var regs: RegFile
    var faults: seq<bool>
    var log: seq<Transaction>

    constructor (input: Byte, output: Byte, polarity: Byte, config: Byte, faults: seq<bool>)
      ensures regs == [input, output, polarity, config]
      ensures this.faults == faults && log == []
    {
      regs := [input, output, polarity, config];
      this.faults := faults;
      log := [];
    }

    /** `readfrom_mem(addr, reg, 1)`: the register's byte, or `None` when the transport fails. */
    method ReadFromMem(addr: int, reg: Reg) returns (data: Option<Byte>)
      modifies this
      ensures data == if Fails(old(faults), 0) then None else Some(old(regs)[reg])
      ensures regs == old(regs)
      ensures faults == Drop(old(faults), 1) && log == old(log) + [Read(addr, reg)]
    {
      data := if Fails(faults, 0) then None else Some(regs[reg]);
      faults := Drop(faults, 1);
      log := log + [Read(addr, reg)];
    }

    /** `writeto_mem(addr, reg, bytes([value]))`: whether the transport accepted the write. */
    method WriteToMem(addr: int, reg: Reg, value: Byte) returns (ok: bool)
      modifies this
      ensures ok == !Fails(old(faults), 0)
      ensures regs == if ok then old(regs)[reg := value] else old(regs)
      ensures faults == Drop(old(faults), 1) && log == old(log) + [Write(addr, reg, value)]
    {
      ok := !Fails(faults, 0);
      if ok {
        regs := regs[reg := value];
      }
      faults := Drop(faults, 1);
      log := log + [Write(addr, reg, value)];
    }

    /** The world outside the driver changes a register (pin levels showing up in Input). */
    method ExternalChange(reg: Reg, value: Byte)
      modifies this
      ensures regs == old(regs)[reg := value]
      ensures faults == old(faults) && log == old(log)
    {
      regs := regs[reg := value];
    }
  }
}
