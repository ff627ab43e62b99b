/**
 * The state the single-cycle datapath reads and writes: the register file
 * (x0 hardwired to zero, 31 general 64-bit registers) and the data memory
 * (1024 64-bit words behind a byte address divided by eight and a bounds
 * check), plus the register-to-register step the execution example traces.
 */
module Datapath {
  import opened Wrappers
  import opened MultiCycleFsm
  import opened ControlUnit

  /** x0-x31; the slot for x0 is kept but never read. */
  type Registers = r: seq<bv64> | |r| == 32 witness seq(32, _ => 0)

  /** A read port: x0 returns zero, any other register its contents. */
  function ReadReg(rf: Registers, r: bv5): (v: bv64)
    ensures r == 0 ==> v == 0
  {
    if r == 0 then 0 else rf[r as int]
  }

  /** The write port: writes only when RegWrite is set and the target is not x0. */
  function WriteReg(rf: Registers, rd: bv5, data: bv64, regWrite: bool): (r: Registers)
    ensures rd == 0 || !regWrite ==> r == rf
    ensures forall k :: 0 <= k < 32 && k != rd as int ==> r[k] == rf[k]
  {
    if regWrite && rd != 0 then rf[rd as int := data] else rf
  }

  /**
   * Reading after a write: the written register returns the new value
   * (unless it is x0), every other register is unchanged.
   */
  lemma ReadAfterWrite(rf: Registers, rd: bv5, data: bv64, regWrite: bool, r: bv5)
    ensures ReadReg(WriteReg(rf, rd, data, regWrite), r) ==
              if regWrite && r == rd && r != 0 then data else ReadReg(rf, r)
  {
  }

  /** No sequence of writes makes x0 read anything but zero. */
  lemma {:induction false} ZeroAfterWrites(rf: Registers, writes: seq<(bv5, bv64)>)
    ensures ReadReg(WriteAll(rf, writes), 0) == 0
    ensures forall r: bv5 :: (forall k :: 0 <= k < |writes| ==> writes[k].0 != r) ==>
              ReadReg(WriteAll(rf, writes), r) == ReadReg(rf, r)
    decreases |writes|
  {
    if |writes| > 0 {
      ZeroAfterWrites(WriteReg(rf, writes[0].0, writes[0].1, true), writes[1..]);
      forall r: bv5 | forall k :: 0 <= k < |writes| ==> writes[k].0 != r
        ensures ReadReg(WriteAll(rf, writes), r) == ReadReg(rf, r)
      {
        assert writes[0].0 != r;
        assert forall k :: 0 <= k < |writes[1..]| ==> writes[1..][k].0 != r;
        ReadAfterWrite(rf, writes[0].0, writes[0].1, true, r);
      }
    }
  }

  /** Writes applied in order, each with RegWrite set. */
  function WriteAll(rf: Registers, writes: seq<(bv5, bv64)>): Registers
    decreases |writes|
  {
    if |writes| == 0 then rf
    else WriteAll(WriteReg(rf, writes[0].0, writes[0].1, true), writes[1..])
  }

  /** The data memory's 1024 words. */
  const MemoryWords: nat := 1024

  /** One past the last byte address: 1024 words of 8 bytes, 0x0000-0x1FFF. */
  const MemoryBytes: nat := 0x2000

  type Memory = m: seq<bv64> | |m| == 1024 witness seq(1024, _ => 0)

  /** The bounds check: the byte address lies in the 8 KB data memory. */
  predicate InBounds(addr: bv64) {
    addr as int < MemoryBytes
  }

  /** The address decoder: byte address ÷ 8, keeping word_addr[9:0]. */
  function WordIndex(addr: bv64): (i: nat)
    ensures i < MemoryWords
  {
    (addr as int / 8) % 1024
  }

  /**
   * Within bounds no word address wraps: the byte lies in its word's
   * eight bytes, and two addresses share a word exactly when they agree
   * after dividing by eight.
   */
  lemma WordIndexInBounds(addr: bv64, other: bv64)
    requires InBounds(addr) && InBounds(other)
    ensures 8 * WordIndex(addr) <= addr as int < 8 * WordIndex(addr) + 8
    ensures WordIndex(addr) == WordIndex(other) <==> addr as int / 8 == other as int / 8
  {
    WordIndexIsQuotient(addr);
    WordIndexIsQuotient(other);
  }

  lemma WordIndexIsQuotient(addr: bv64)
    requires InBounds(addr)
    ensures WordIndex(addr) == addr as int / 8
    ensures 8 * (addr as int / 8) <= addr as int < 8 * (addr as int / 8) + 8
  {
    var a := addr as int;
    assert 0 <= a < 0x2000;
    assert a / 8 < 1024;
  }

  /** Outside the bounds check the decoder's ten bits alias lower words. */
  lemma DecoderAliases()
    ensures WordIndex(0x2000) == WordIndex(0x0000)
    ensures !InBounds(0x2000) && InBounds(0x0000)
  {
  }

  /** A load reads the addressed word; None where the bounds check fails. */
  function Load(mem: Memory, addr: bv64): (r: Option<bv64>)
    ensures r.Some? <==> InBounds(addr)
  {
    if InBounds(addr) then Some(mem[WordIndex(addr)]) else None
  }

  /** A store writes the addressed word when MemWrite is set and the address is in bounds. */
  function Store(mem: Memory, addr: bv64, data: bv64, memWrite: bool): (r: Memory)
    ensures !memWrite || !InBounds(addr) ==> r == mem
    ensures forall k :: 0 <= k < MemoryWords && k != WordIndex(addr) ==> r[k] == mem[k]
  {
    if memWrite && InBounds(addr) then mem[WordIndex(addr) := data] else mem
  }

  /**
   * Loading after a store: an in-bounds load of the stored word returns the
   * stored value, any other load is unaffected.
   */
  lemma LoadAfterStore(mem: Memory, addr: bv64, data: bv64, memWrite: bool, other: bv64)
    ensures Load(Store(mem, addr, data, memWrite), other) ==
              if memWrite && InBounds(addr) && InBounds(other) && addr as int / 8 == other as int / 8
              then Some(data)
              else Load(mem, other)
  {
    if InBounds(addr) && InBounds(other) {
      WordIndexInBounds(addr, other);
    }
  }

  /**
   * One register-to-register instruction: both operands through the read
   * ports, the ALU operation its ALUOp selects, the result through the
   * write port under its RegWrite.
   */
  function ExecuteRType(rf: Registers, m: Mnemonic, rd: bv5, rs1: bv5, rs2: bv5): (r: Registers)
    requires ClassOf(m) == RType
    ensures rd != 0 ==> r[rd as int] == AluResult(Operation(m), ReadReg(rf, rs1), ReadReg(rf, rs2))
    ensures forall k :: 0 <= k < 32 && k != rd as int ==> r[k] == rf[k]
  {
    ControlRegWrite(m);
    var f := SelectedBy(CorrectedControl(m).aluOp).value;
    WriteReg(rf, rd, AluResult(f, ReadReg(rf, rs1), ReadReg(rf, rs2)), CorrectedControl(m).regWrite)
  }

  /**
   * After an R-type step x0 still reads zero, and the truth table as drawn
   * drives the step exactly as the corrected one does: the correction of
   * the load and store ALUOp leaves register-to-register execution alone.
   */
  lemma ExecuteRTypeAsTabled(rf: Registers, m: Mnemonic, rd: bv5, rs1: bv5, rs2: bv5)
    requires ClassOf(m) == RType
    ensures ReadReg(ExecuteRType(rf, m, rd, rs1, rs2), 0) == 0
    ensures SelectedBy(Control(m).aluOp).Some?
    ensures ExecuteRType(rf, m, rd, rs1, rs2) ==
              WriteReg(rf, rd, AluResult(SelectedBy(Control(m).aluOp).value, ReadReg(rf, rs1), ReadReg(rf, rs2)),
                       Control(m).regWrite)
  {
    ControlRegWrite(m);
  }

  lemma ControlRegWrite(m: Mnemonic)
    requires ClassOf(m) == RType
    ensures Control(m).regWrite
  {
    RTypeRowsDifferInAluOp(m, m);
  }

  /**
   * The execution example: with x6 = 0x6 and x5 = 0x5, add x21, x6, x5
   * leaves 0xB in x21.
   */
  lemma TraceExample(rf: Registers)
    requires ReadReg(rf, 6) == 0x6 && ReadReg(rf, 5) == 0x5
    ensures ReadReg(ExecuteRType(rf, Add, 21, 6, 5), 21) == 0xB
  {
  }
}
