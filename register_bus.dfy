/**
 * The register bus the driver talks to, reduced to what the driver observes:
 * the answers to reads, as oracles over the writes made so far, and the log
 * of single-byte register writes.
 */
module RegisterBus {
  import opened Bytes

  /** One `write8(register, value)` transaction. */
  datatype Write = Write(reg: Byte, value: Byte)

  class Bus {
    /** The device address the handle was opened for. */
    const address: Byte
    /** What `read8(register)` returns, given the writes issued so far. */
    const read8: (seq<Write>, Byte) -> Byte
    /** What `read_block(register, count)` returns, given the writes issued so far; any length. */
    const readBlock: (seq<Write>, Byte, nat) -> seq<Byte>
    /** Every write issued on this handle, oldest first. */
    var log: seq<Write>

    constructor (address: Byte, read8: (seq<Write>, Byte) -> Byte, readBlock: (seq<Write>, Byte, nat) -> seq<Byte>)
      ensures this.address == address && this.read8 == read8 && this.readBlock == readBlock
      ensures log == []
    {
      this.address := address;
      this.read8 := read8;
      this.readBlock := readBlock;
      log := [];
    }

    function Read8(reg: Byte): Byte
      reads this
    {
      read8(log, reg)
    }

    function ReadBlock(reg: Byte, count: nat): seq<Byte>
      reads this
    {
      readBlock(log, reg, count)
    }

    method Write8(reg: Byte, value: Byte)
      modifies this
      ensures log == old(log) + [Write(reg, value)]
    {
      log := log + [Write(reg, value)];
    }
  }

  /** Five writes issued one after another extend the log by those five, in order. */
  lemma AppendFiveWrites(log: seq<Write>, a: Write, b: Write, c: Write, d: Write, e: Write)
    ensures log + [a] + [b] + [c] + [d] + [e] == log + [a, b, c, d, e]
  {
  }

  /** The register contents a sequence of writes leaves behind, starting from `regs`. */
  function Apply(regs: map<Byte, Byte>, log: seq<Write>): (r: map<Byte, Byte>)
    ensures forall reg :: reg in regs ==> reg in r
    ensures forall i :: 0 <= i < |log| ==> log[i].reg in r
    decreases |log|
  {
    if log == [] then regs else Apply(regs[log[0].reg := log[0].value], log[1..])
  }

  /** Writing in two batches leaves the same registers as writing once. */
  lemma {:induction false} ApplyAppend(regs: map<Byte, Byte>, a: seq<Write>, b: seq<Write>)
    ensures Apply(regs, a + b) == Apply(Apply(regs, a), b)
    decreases |a|
  {
    if a != [] {
      assert (a + b)[1..] == a[1..] + b;
      ApplyAppend(regs[a[0].reg := a[0].value], a[1..], b);
    } else {
      assert a + b == b;
    }
  }

  /** Registers a write sequence does not touch keep their value. */
  lemma {:induction false} ApplyUntouched(regs: map<Byte, Byte>, log: seq<Write>, reg: Byte)
    requires reg in regs
    requires forall i :: 0 <= i < |log| ==> log[i].reg != reg
    ensures Apply(regs, log)[reg] == regs[reg]
    decreases |log|
  {
    if log != [] {
      ApplyUntouched(regs[log[0].reg := log[0].value], log[1..], reg);
    }
  }
}
