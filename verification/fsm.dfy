/**
 * The multi-cycle processor's control state machine: nine states, a
 * dispatch on the instruction's 7-bit opcode in DECODE, and a return to
 * FETCH at the end of every instruction class.
 */
module MultiCycleFsm {
  import opened Wrappers

  datatype State =
    | Fetch | Decode | MemAdr | MemRead | MemWb | MemWrite | Execute | AluWriteback | Branch

  /** The diagram's state numbers, 0 (FETCH) to 8 (BRANCH). */
  function Number(s: State): (n: nat)
    ensures n < 9
  {
    match s
    case Fetch => 0
    case Decode => 1
    case MemAdr => 2
    case MemRead => 3
    case MemWb => 4
    case MemWrite => 5
    case Execute => 6
    case AluWriteback => 7
    case Branch => 8
  }

  /** The state a number names, if any. */
  function FromNumber(n: nat): (r: Option<State>)
    ensures r.Some? <==> n < 9
  {
    if n == 0 then Some(Fetch)
    else if n == 1 then Some(Decode)
    else if n == 2 then Some(MemAdr)
    else if n == 3 then Some(MemRead)
    else if n == 4 then Some(MemWb)
    else if n == 5 then Some(MemWrite)
    else if n == 6 then Some(Execute)
    else if n == 7 then Some(AluWriteback)
    else if n == 8 then Some(Branch)
    else None
  }

  /** The numbering is a bijection between the nine states and 0..8. */
  lemma NumberingBijective(s: State, n: nat)
    ensures FromNumber(Number(s)) == Some(s)
    ensures FromNumber(n) == Some(s) <==> Number(s) == n
  {
  }

  /** The instruction classes the machine distinguishes. */
  datatype OpClass = RType | Load | Store | CondBranch

  const OpcodeR: bv7 := 0x33       // 0110011
  const OpcodeLoad: bv7 := 0x03    // 0000011
  const OpcodeStore: bv7 := 0x23   // 0100011
  const OpcodeBranch: bv7 := 0x63  // 1100011

  /** The class of an opcode; the diagram has no edge for any other opcode. */
  function Classify(opcode: bv7): (r: Option<OpClass>)
    ensures r == Some(RType) <==> opcode == OpcodeR
    ensures r == Some(Load) <==> opcode == OpcodeLoad
    ensures r == Some(Store) <==> opcode == OpcodeStore
    ensures r == Some(CondBranch) <==> opcode == OpcodeBranch
  {
    if opcode == OpcodeR then Some(RType)
    else if opcode == OpcodeLoad then Some(Load)
    else if opcode == OpcodeStore then Some(Store)
    else if opcode == OpcodeBranch then Some(CondBranch)
    else None
  }

  /**
   * One clock edge. FETCH, MEMREAD and EXECUTE have one successor each,
   * the four final states return to FETCH, and DECODE and MEMADR choose
   * by opcode. An opcode the diagram does not dispatch has no successor.
   */
  function Next(s: State, opcode: bv7): (r: Option<State>)
    ensures r.None? ==> (s == Decode || s == MemAdr)
  {
    match s
    case Fetch => Some(Decode)
    case Decode =>
      (match Classify(opcode)
       case Some(RType) => Some(Execute)
       case Some(Load) => Some(MemAdr)
       case Some(Store) => Some(MemAdr)
       case Some(CondBranch) => Some(Branch)
       case None => None)
    case MemAdr =>
      (match Classify(opcode)
       case Some(Load) => Some(MemRead)
       case Some(Store) => Some(MemWrite)
       case _ => None)
    case MemRead => Some(MemWb)
    case MemWb => Some(Fetch)
    case MemWrite => Some(Fetch)
    case Execute => Some(AluWriteback)
    case AluWriteback => Some(Fetch)
    case Branch => Some(Fetch)
  }

  /** The twelve edges the state diagram draws. */
  const Edges: set<(State, State)> := {
    (Fetch, Decode),
    (Decode, Execute), (Decode, MemAdr), (Decode, Branch),
    (MemAdr, MemRead), (MemAdr, MemWrite),
    (MemRead, MemWb),
    (MemWb, Fetch),
    (MemWrite, Fetch),
    (Execute, AluWriteback),
    (AluWriteback, Fetch),
    (Branch, Fetch)
  }

  /** Every transition the machine takes is an edge of the diagram. */
  lemma NextFollowsEdges(s: State, opcode: bv7)
    requires Next(s, opcode).Some?
    ensures (s, Next(s, opcode).value) in Edges
  {
  }

  /** Every edge of the diagram is taken for some opcode. */
  lemma EdgesAreTaken(s: State, t: State)
    requires (s, t) in Edges
    ensures exists opcode: bv7 :: Next(s, opcode) == Some(t)
  {
    var op: bv7 :=
      if s == MemAdr && t == MemWrite then OpcodeStore
      else if s == Decode && t == Execute then OpcodeR
      else if s == Decode && t == Branch then OpcodeBranch
      else OpcodeLoad;
    assert Next(s, op) == Some(t);
  }

  /** FETCH's only successor is DECODE, whatever the opcode. */
  lemma FetchThenDecode(opcode: bv7)
    ensures Next(Fetch, opcode) == Some(Decode)
  {
  }

  /**
   * DECODE dispatches on the opcode: R-type to EXECUTE, loads and stores to
   * MEMADR, branches to BRANCH, and nowhere for any other opcode.
   */
  lemma DecodeDispatch(opcode: bv7)
    ensures Next(Decode, opcode) == Some(Execute) <==> opcode == OpcodeR
    ensures Next(Decode, opcode) == Some(MemAdr) <==> opcode == OpcodeLoad || opcode == OpcodeStore
    ensures Next(Decode, opcode) == Some(Branch) <==> opcode == OpcodeBranch
    ensures Next(Decode, opcode).None? <==> Classify(opcode).None?
  {
  }

  /** MEMADR reads for a load and writes for a store; MEMREAD then writes back. */
  lemma MemoryAccess(opcode: bv7)
    ensures Next(MemAdr, opcode) == Some(MemRead) <==> opcode == OpcodeLoad
    ensures Next(MemAdr, opcode) == Some(MemWrite) <==> opcode == OpcodeStore
    ensures Next(MemRead, opcode) == Some(MemWb)
    ensures Next(Execute, opcode) == Some(AluWriteback)
  {
  }

  /** `n` clock edges from `s`, or None if the machine stops on the way. */
  function Reach(s: State, opcode: bv7, n: nat): (r: Option<State>)
    decreases n
  {
    if n == 0 then Some(s)
    else match Next(s, opcode)
      case None => None
      case Some(t) => Reach(t, opcode, n - 1)
  }

  /** The per-class cycle sequences the flow diagrams draw. */
  function Flow(c: OpClass): seq<State> {
    match c
    case RType => [Fetch, Decode, Execute, AluWriteback]
    case Load => [Fetch, Decode, MemAdr, MemRead, MemWb]
    case Store => [Fetch, Decode, MemAdr, MemWrite]
    case CondBranch => [Fetch, Decode, Branch]
  }

  /** The multi-cycle column of the comparison table. */
  function TableCycles(c: OpClass): nat {
    match c
    case RType => 4
    case Load => 5
    case Store => 4
    case CondBranch => 3
  }

  /** A representative opcode of each class. */
  function OpcodeOf(c: OpClass): (opcode: bv7)
    ensures Classify(opcode) == Some(c)
  {
    match c
    case RType => OpcodeR
    case Load => OpcodeLoad
    case Store => OpcodeStore
    case CondBranch => OpcodeBranch
  }

  /** Reaching state `t` after `n` steps and then one more step. */
  lemma ReachStep(s: State, opcode: bv7, n: nat, t: State)
    requires Reach(s, opcode, n) == Some(t)
    ensures Reach(s, opcode, n + 1) == Next(t, opcode)
    decreases n
  {
    if n > 0 {
      ReachStep(Next(s, opcode).value, opcode, n - 1, t);
    }
  }

  /**
   * From FETCH, an instruction of class `c` visits exactly the states of
   * its flow diagram, one per cycle, and is back in FETCH after as many
   * cycles as the comparison table gives, and not before.
   */
  lemma {:induction false} CyclesPerClass(c: OpClass, opcode: bv7)
    requires Classify(opcode) == Some(c)
    ensures |Flow(c)| == TableCycles(c)
    ensures forall k :: 0 <= k < |Flow(c)| ==> Reach(Fetch, opcode, k) == Some(Flow(c)[k])
    ensures forall k :: 0 < k < |Flow(c)| ==> Reach(Fetch, opcode, k) != Some(Fetch)
    ensures Reach(Fetch, opcode, TableCycles(c)) == Some(Fetch)
  {
    var f := Flow(c);
    FlowPrefix(c, opcode, |f| - 1);
    ReachStep(Fetch, opcode, |f| - 1, f[|f| - 1]);
  }

  /** The first `n + 1` states of a class's flow are the ones reached. */
  lemma {:induction false} FlowPrefix(c: OpClass, opcode: bv7, n: nat)
    requires Classify(opcode) == Some(c)
    requires n < |Flow(c)|
    ensures forall k :: 0 <= k <= n ==> Reach(Fetch, opcode, k) == Some(Flow(c)[k])
    decreases n
  {
    if n > 0 {
      FlowPrefix(c, opcode, n - 1);
      ReachStep(Fetch, opcode, n - 1, Flow(c)[n - 1]);
    }
  }

  /** Total cycles of an instruction mix, by the comparison table. */
  function TotalCycles(mix: seq<OpClass>): nat {
    if |mix| == 0 then 0 else TableCycles(mix[0]) + TotalCycles(mix[1..])
  }

  /** Every class takes between three and five cycles. */
  lemma {:induction false} TotalCyclesBounds(mix: seq<OpClass>)
    ensures 3 * |mix| <= TotalCycles(mix) <= 5 * |mix|
    decreases |mix|
  {
    if |mix| > 0 {
      TotalCyclesBounds(mix[1..]);
    }
  }

  /** Average cycles per instruction of a mix (the table's "3-5"). */
  function AverageCpi(mix: seq<OpClass>): (cpi: real)
    requires |mix| > 0
    ensures 3.0 <= cpi <= 5.0
  {
    TotalCyclesBounds(mix);
    QuotientBounds(TotalCycles(mix) as real, |mix| as real, 3.0, 5.0);
    TotalCycles(mix) as real / |mix| as real
  }

  /** Bounds on `a` as multiples of `n` are bounds on `a / n`. */
  lemma QuotientBounds(a: real, n: real, lo: real, hi: real)
    requires n > 0.0 && lo * n <= a <= hi * n
    ensures lo <= a / n <= hi
  {
    var q := a / n;
    assert (q - lo) * n == a - lo * n >= 0.0;
    assert (hi - q) * n == hi * n - a >= 0.0;
  }
}
