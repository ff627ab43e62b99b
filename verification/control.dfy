/**
 * The single-cycle control unit: the truth table from instruction to
 * control signals for the seven supported instructions, the 4-bit ALUOp
 * codes the ALU's result multiplexer selects on, and the decoding of
 * opcode, funct3 and funct7 into an instruction.
 */
module ControlUnit {
  import opened Wrappers
  import opened MultiCycleFsm

  /** The instructions the truth table lists. */
  datatype Mnemonic = Add | Sub | And | Or | Ld | Sd | Beq

  /** The four operations of the ALU. */
  datatype AluFunction = AddOp | SubOp | AndOp | OrOp

  /** The ALUOp code of each operation: 0010 ADD, 0110 SUB, 0111 AND, 0001 OR. */
  function AluCode(f: AluFunction): bv4 {
    match f
    case AddOp => 0x2
    case SubOp => 0x6
    case AndOp => 0x7
    case OrOp => 0x1
  }

  /** The ALU result multiplexer: the operation a code selects, if any. */
  function SelectedBy(code: bv4): (r: Option<AluFunction>)
    ensures r.Some? ==> AluCode(r.value) == code
    ensures r.None? <==> forall f: AluFunction :: AluCode(f) != code
  {
    if code == 0x2 then Some(AddOp)
    else if code == 0x6 then Some(SubOp)
    else if code == 0x7 then Some(AndOp)
    else if code == 0x1 then Some(OrOp)
    else
      assert AluCode(AddOp) != code && AluCode(SubOp) != code;
      assert AluCode(AndOp) != code && AluCode(OrOp) != code;
      None
  }

  /** The four codes are pairwise distinct, so the multiplexer is unambiguous. */
  lemma AluCodesDistinct(f: AluFunction, g: AluFunction)
    ensures AluCode(f) == AluCode(g) <==> f == g
    ensures SelectedBy(AluCode(f)) == Some(f)
  {
  }

  /** The ALU's result for each operation on 64-bit operands. */
  function AluResult(f: AluFunction, a: bv64, b: bv64): bv64 {
    match f
    case AddOp => a + b
    case SubOp => a - b
    case AndOp => a & b
    case OrOp => a | b
  }

  /** BEQ subtracts: the ALU's difference is zero exactly when the operands are equal. */
  lemma SubtractZeroIffEqual(a: bv64, b: bv64)
    ensures AluResult(SubOp, a, b) == 0 <==> a == b
  {
    assert AluResult(SubOp, a, b) == a - b;
    DifferenceZero(a, b);
  }

  lemma DifferenceZero(a: bv64, b: bv64)
    ensures a - b == 0 <==> a == b
  {
  }

  /**
   * One row of the truth table. `memToReg` is None where the table writes
   * X (don't care).
   */
  datatype Signals = Signals(
    opcode: bv7,
    aluOp: bv4,
    aluSrc: bool,
    branch: bool,
    memRead: bool,
    memWrite: bool,
    regWrite: bool,
    memToReg: Option<bool>,
    regDst: bool
  )

  /**
   * The truth table, row by row as the control diagram lists it. The load
   * and store rows carry ALUOp 0000, which selects no ALU operation, so
   * ALUOp names the instruction's operation only in the other five rows.
   */
  function Control(m: Mnemonic): (s: Signals)
    ensures Classify(s.opcode) == Some(ClassOf(m))
    ensures m != Ld && m != Sd ==> SelectedBy(s.aluOp) == Some(Operation(m))
    ensures s.regWrite <==> ClassOf(m) in {RType, Load}
  {
    match m
    case Add => Signals(0x33, 0x2, false, false, false, false, true, Some(false), true)
    case Sub => Signals(0x33, 0x6, false, false, false, false, true, Some(false), true)
    case And => Signals(0x33, 0x7, false, false, false, false, true, Some(false), true)
    case Or => Signals(0x33, 0x1, false, false, false, false, true, Some(false), true)
    case Ld => Signals(0x03, 0x0, true, false, true, false, true, Some(true), true)
    case Sd => Signals(0x23, 0x0, true, false, false, true, false, None, false)
    case Beq => Signals(0x63, 0x6, false, true, false, false, false, None, false)
  }

  /** The instruction class the multi-cycle machine dispatches on. */
  function ClassOf(m: Mnemonic): OpClass {
    match m
    case Add | Sub | And | Or => RType
    case Ld => Load
    case Sd => Store
    case Beq => CondBranch
  }

  /**
   * The ALU operation an instruction needs: its own for the R-type
   * instructions, subtraction for the equality test of BEQ, and addition
   * of base and displacement for the address of LD and SD.
   */
  function Operation(m: Mnemonic): AluFunction {
    match m
    case Add => AddOp
    case Sub => SubOp
    case And => AndOp
    case Or => OrOp
    case Beq => SubOp
    case Ld | Sd => AddOp
  }

  /**
   * What each column means, stated from the instruction's class: the table
   * agrees with it row for row.
   */
  lemma ControlSemantics(m: Mnemonic)
    ensures Classify(Control(m).opcode) == Some(ClassOf(m))
    ensures Control(m).aluSrc <==> ClassOf(m) in {Load, Store}
    ensures Control(m).branch <==> m == Beq
    ensures Control(m).memRead <==> m == Ld
    ensures Control(m).memWrite <==> m == Sd
    ensures Control(m).regWrite <==> ClassOf(m) in {RType, Load}
    ensures Control(m).memToReg == if Control(m).regWrite then Some(m == Ld) else None
    ensures Control(m).regDst <==> Control(m).regWrite
    ensures m != Ld && m != Sd ==> SelectedBy(Control(m).aluOp) == Some(Operation(m))
  {
  }

  /** The four R-type rows share the opcode 0110011 and differ only in ALUOp. */
  lemma RTypeRowsDifferInAluOp(m: Mnemonic, n: Mnemonic)
    requires ClassOf(m) == RType && ClassOf(n) == RType
    ensures Control(m).opcode == OpcodeR
    ensures Control(m) == Control(n).(aluOp := Control(m).aluOp)
    ensures Control(m).aluOp == Control(n).aluOp <==> m == n
    ensures Control(m) == Signals(OpcodeR, Control(m).aluOp, false, false, false, false, true, Some(false), true)
  {
  }

  /** No row reads and writes memory at once; only loads route memory to a register. */
  lemma MemorySignalsConsistent(m: Mnemonic)
    ensures !(Control(m).memRead && Control(m).memWrite)
    ensures Control(m).memToReg == Some(true) ==> Control(m).memRead
    ensures Control(m).memToReg.None? <==> !Control(m).regWrite
  {
  }

  /**
   * The load and store rows carry ALUOp 0000, which selects none of the
   * ALU's four operations, although both need the address addition; every
   * other row's ALUOp selects its operation.
   */
  lemma LoadStoreAluOpUnassigned(m: Mnemonic)
    ensures SelectedBy(Control(m).aluOp).None? <==> m == Ld || m == Sd
    ensures SelectedBy(Control(m).aluOp) != Some(Operation(m)) <==> m == Ld || m == Sd
    ensures m == Beq ==> SelectedBy(Control(m).aluOp) == Some(SubOp)
  {
  }

  /**
   * The truth table with the load and store rows carrying ALUOp 0010
   * (ADD), so that the ALU computes base plus displacement as the memory
   * address; every other signal is the table's own.
   */
  function CorrectedControl(m: Mnemonic): (s: Signals)
    ensures SelectedBy(s.aluOp) == Some(Operation(m))
    ensures s.(aluOp := 0) == Control(m).(aluOp := 0)
    ensures s.aluOp != Control(m).aluOp <==> m == Ld || m == Sd
  {
    if m == Ld || m == Sd then Control(m).(aluOp := 0x2) else Control(m)
  }

  /**
   * Decoding by opcode, funct3 and funct7 (RISC-V base encoding): the
   * R-type operations by funct3 and funct7, LD and SD by funct3 011, BEQ
   * by funct3 000. Anything else is not one of the seven.
   */
  function Decode(opcode: bv7, funct3: bv3, funct7: bv7): (r: Option<Mnemonic>)
    ensures r.Some? ==> Control(r.value).opcode == opcode
    ensures r.Some? ==> Funct3(r.value) == funct3
  {
    if opcode == OpcodeR then
      if funct3 == 0 && funct7 == 0x00 then Some(Add)
      else if funct3 == 0 && funct7 == 0x20 then Some(Sub)
      else if funct3 == 7 && funct7 == 0x00 then Some(And)
      else if funct3 == 6 && funct7 == 0x00 then Some(Or)
      else None
    else if opcode == OpcodeLoad && funct3 == 3 then Some(Ld)
    else if opcode == OpcodeStore && funct3 == 3 then Some(Sd)
    else if opcode == OpcodeBranch && funct3 == 0 then Some(Beq)
    else None
  }

  /** The funct3 of each instruction. */
  function Funct3(m: Mnemonic): bv3 {
    match m
    case Add | Sub | Beq => 0
    case And => 7
    case Or => 6
    case Ld | Sd => 3
  }

  /** The funct7 of each R-type instruction (zero for the other formats). */
  function Funct7(m: Mnemonic): bv7 {
    if m == Sub then 0x20 else 0x00
  }

  /**
   * Decoding inverts the field assignment: each instruction's own fields
   * decode to it, and fields that decode to `m` are `m`'s fields (funct7
   * only matters for the R-type rows).
   */
  lemma DecodeCharacterized(m: Mnemonic, opcode: bv7, funct3: bv3, funct7: bv7)
    ensures Decode(Control(m).opcode, Funct3(m), Funct7(m)) == Some(m)
    ensures Decode(opcode, funct3, funct7) == Some(m) <==>
              && opcode == Control(m).opcode
              && funct3 == Funct3(m)
              && (ClassOf(m) == RType ==> funct7 == Funct7(m))
  {
  }
}
