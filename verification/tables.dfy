/**
 * The three candidate tables of the timing model, each written against the
 * delay library in the order the source lists them, and the results the
 * analysis yields for them.
 */
module TimingTables {
  import opened Wrappers
  import opened DelayLibrary
  import opened PathModel
  import opened Analyzer

  /** Single-cycle: one path per instruction class, fetch to write-back. */
  function SingleCycle(): seq<CandidateRef> {
    [RTypePath(), LoadPath(), StorePath()]
  }

  /** Multi-cycle: one candidate per FSM stage. */
  function MultiCycle(): seq<CandidateRef> {
    [FetchStage(), DecodeStage(), ExecuteStage(), MemoryStage(), WritebackStage()]
  }

  /** Pipelined: one candidate per pipeline stage. */
  function Pipelined(): seq<CandidateRef> {
    [IfStage(), IdStage(), ExStage(), MemStage(), WbStage()]
  }

  function RTypePath(): CandidateRef {
    CandidateRef("R-type (ADD)", [
      ElementRef("Instruction Memory Read", MemoryRead),
      ElementRef("Wire to Control", WireShort),
      ElementRef("Instruction Decode", Decoder),
      ElementRef("Control Signal Gen", Control),
      ElementRef("Wire to RegFile", WireMedium),
      ElementRef("Register File Read", RegfileRead),
      ElementRef("Wire to ALU", WireMedium),
      ElementRef("ALU Operation (ADD)", AluAdd),
      ElementRef("Wire to RegFile", WireMedium),
      ElementRef("Register Write Setup", RegSetup)
    ])
  }

  function LoadPath(): CandidateRef {
    CandidateRef("Load (LD)", [
      ElementRef("Instruction Memory Read", MemoryRead),
      ElementRef("Instruction Decode", Decoder),
      ElementRef("Control Signal Gen", Control),
      ElementRef("Register File Read", RegfileRead),
      ElementRef("Wire to ALU", WireMedium),
      ElementRef("ALU Add (Address Calc)", AluAdd),
      ElementRef("Wire to Data Memory", WireLong),
      ElementRef("Data Memory Read", MemoryRead),
      ElementRef("Wire to RegFile", WireLong),
      ElementRef("Register Write Setup", RegSetup)
    ])
  }

  function StorePath(): CandidateRef {
    CandidateRef("Store (SD)", [
      ElementRef("Instruction Memory Read", MemoryRead),
      ElementRef("Instruction Decode", Decoder),
      ElementRef("Control Signal Gen", Control),
      ElementRef("Register File Read", RegfileRead),
      ElementRef("ALU Add (Address Calc)", AluAdd),
      ElementRef("Wire to Data Memory", WireLong),
      ElementRef("Data Memory Write", MemoryWrite)
    ])
  }

  function FetchStage(): CandidateRef {
    CandidateRef("FETCH", [
      ElementRef("Memory Read", MemoryRead),
      ElementRef("Wire to IR", WireMedium),
      ElementRef("IR Setup", RegSetup)
    ])
  }

  function DecodeStage(): CandidateRef {
    CandidateRef("DECODE", [
      ElementRef("Register File Read", RegfileRead),
      ElementRef("Wire to A/B", WireShort),
      ElementRef("A/B Setup", RegSetup)
    ])
  }

  function ExecuteStage(): CandidateRef {
    CandidateRef("EXECUTE (ALU)", [
      ElementRef("Reg Clk-to-Q (A)", RegClkToQ),
      ElementRef("Mux Select", Mux4to1),
      ElementRef("ALU Operation", AluAdd),
      ElementRef("Wire to ALUOut", WireMedium),
      ElementRef("ALUOut Setup", RegSetup)
    ])
  }

  function MemoryStage(): CandidateRef {
    CandidateRef("MEMORY", [
      ElementRef("Reg Clk-to-Q (ALUOut)", RegClkToQ),
      ElementRef("Address Mux", Mux2to1),
      ElementRef("Memory Access", MemoryRead),
      ElementRef("Wire to MDR", WireMedium),
      ElementRef("MDR Setup", RegSetup)
    ])
  }

  function WritebackStage(): CandidateRef {
    CandidateRef("WRITEBACK", [
      ElementRef("Reg Clk-to-Q (ALUOut/MDR)", RegClkToQ),
      ElementRef("Result Mux", Mux2to1),
      ElementRef("Wire to RegFile", WireMedium),
      ElementRef("Register Write Setup", RegSetup)
    ])
  }

  function IfStage(): CandidateRef {
    CandidateRef("IF (Instruction Fetch)", [
      ElementRef("PC Clk-to-Q", RegClkToQ),
      ElementRef("Wire to Memory", WireShort),
      ElementRef("Instruction Memory", MemoryRead),
      ElementRef("Wire to IF/ID", WireMedium),
      ElementRef("IF/ID Setup", RegSetup)
    ])
  }

  function IdStage(): CandidateRef {
    CandidateRef("ID (Instruction Decode)", [
      ElementRef("IF/ID Clk-to-Q", RegClkToQ),
      ElementRef("Decode Logic", Decoder),
      ElementRef("Control Unit", Control),
      ElementRef("Register File Read", RegfileRead),
      ElementRef("Sign Extend", SignExtend),
      ElementRef("Wire to ID/EX", WireMedium),
      ElementRef("ID/EX Setup", RegSetup)
    ])
  }

  function ExStage(): CandidateRef {
    CandidateRef("EX (Execute)", [
      ElementRef("ID/EX Clk-to-Q", RegClkToQ),
      ElementRef("Forwarding Mux", Mux4to1),
      ElementRef("ALU Control", AluControl),
      ElementRef("ALU Operation", AluAdd),
      ElementRef("Wire to EX/MEM", WireMedium),
      ElementRef("EX/MEM Setup", RegSetup)
    ])
  }

  function MemStage(): CandidateRef {
    CandidateRef("MEM (Memory Access)", [
      ElementRef("EX/MEM Clk-to-Q", RegClkToQ),
      ElementRef("Wire to Memory", WireShort),
      ElementRef("Data Memory Read", MemoryRead),
      ElementRef("Wire to MEM/WB", WireMedium),
      ElementRef("MEM/WB Setup", RegSetup)
    ])
  }

  function WbStage(): CandidateRef {
    CandidateRef("WB (Write Back)", [
      ElementRef("MEM/WB Clk-to-Q", RegClkToQ),
      ElementRef("Writeback Mux", Mux2to1),
      ElementRef("Wire to RegFile", WireMedium),
      ElementRef("Register Write Setup", RegSetup)
    ])
  }

  /** A table entry's total under the source's delay table, summed from
      position `from` to the end. */
  function EntryTotal(refs: seq<ElementRef>, from: nat): real
    decreases |refs| - from
  {
    if from >= |refs| then 0.0 else DelayOf(refs[from].id) + EntryTotal(refs, from + 1)
  }

  /** Resolving an entry against the source's table preserves its total. */
  lemma {:induction false} ResolvedEntryTotal(refs: seq<ElementRef>, elems: seq<Element>, from: nat)
    requires ResolvedFrom(Delays, refs, elems)
    requires from <= |refs|
    ensures Sum(elems[from..]) == EntryTotal(refs, from)
    decreases |refs| - from
  {
    if from < |refs| {
      DelaysComplete(refs[from].id);
      ResolvedEntryTotal(refs, elems, from + 1);
      assert elems[from..][1..] == elems[from + 1..];
    }
  }

  /** Every candidate of a resolved table totals its entry. */
  lemma ResolveTotals(table: seq<CandidateRef>)
    requires Resolve(Delays, table).Success?
    ensures forall i :: 0 <= i < |table| ==>
              Resolve(Delays, table).value[i].Total() == EntryTotal(table[i].refs, 0)
  {
    var cands := Resolve(Delays, table).value;
    forall i | 0 <= i < |table|
      ensures cands[i].Total() == EntryTotal(table[i].refs, 0)
    {
      ResolvedEntryTotal(table[i].refs, cands[i].elements, 0);
      assert cands[i].elements[0..] == cands[i].elements;
    }
  }

  /** The totals of a sequence of candidates, in order. */
  function Totals(cands: seq<Candidate>): (r: seq<real>)
    ensures |r| == |cands|
    ensures forall i :: 0 <= i < |cands| ==> r[i] == cands[i].Total()
  {
    seq(|cands|, i requires 0 <= i < |cands| => cands[i].Total())
  }

  /** `totals` lists the entries' totals under the source's delay table. */
  ghost predicate EntryTotals(table: seq<CandidateRef>, totals: seq<real>) {
    && |totals| == |table|
    && forall i :: 0 <= i < |table| ==> EntryTotal(table[i].refs, 0) == totals[i]
  }

  /**
   * The source's library knows every component, so any table resolves,
   * and its candidates carry the entries' names and totals.
   */
  lemma ResolvedTable(table: seq<CandidateRef>, totals: seq<real>)
    requires EntryTotals(table, totals)
    ensures Resolve(Delays, table).Success?
    ensures var c := Resolve(Delays, table).value;
            && |c| == |table|
            && (forall i :: 0 <= i < |table| ==> c[i].name == table[i].name)
            && Totals(c) == totals
  {
    forall id: ComponentId
      ensures id in Delays
    {
      DelaysComplete(id);
    }
    ResolveComplete(Delays, table);
    ResolveTotals(table);
  }

  /**
   * When entry `i` has the first largest positive total, the analysis of
   * the resolved table reports entry `i`'s name and total as the period.
   */
  lemma TableAnalysis(table: seq<CandidateRef>, totals: seq<real>, i: nat)
    requires EntryTotals(table, totals)
    requires i < |totals| && totals[i] > 0.0
    requires forall k :: 0 <= k < |totals| ==> totals[k] <= totals[i]
    requires forall k :: 0 <= k < i ==> totals[k] < totals[i]
    ensures Resolve(Delays, table).Success?
    ensures var c := Resolve(Delays, table).value;
            && Totals(c) == totals
            && FirstMax(c) == Some(i)
            && Analyze(c) == Success(Analysis(table[i].name, totals[i], NsToMhz / totals[i]))
  {
    ResolvedTable(table, totals);
    SelectByTotals(Resolve(Delays, table).value, totals, i);
  }

  /** The selection rule, read off a list of totals. */
  lemma SelectByTotals(c: seq<Candidate>, totals: seq<real>, i: nat)
    requires Totals(c) == totals
    requires i < |totals| && totals[i] > 0.0
    requires forall k :: 0 <= k < |totals| ==> totals[k] <= totals[i]
    requires forall k :: 0 <= k < i ==> totals[k] < totals[i]
    ensures FirstMax(c) == Some(i)
    ensures Analyze(c) == Success(Analysis(c[i].name, totals[i], NsToMhz / totals[i]))
  {
    assert IsFirstMax(c, i) by {
      forall k | 0 <= k < |c|
        ensures c[k].Total() == totals[k]
      {
        assert Totals(c)[k] == totals[k];
      }
    }
    FirstMaxCharacterized(c, i);
    AnalyzeSelects(c, i);
  }

  lemma RTypePathTotal() ensures EntryTotal(RTypePath().refs, 0) == 6.8 {}
  lemma LoadPathTotal() ensures EntryTotal(LoadPath().refs, 0) == 9.4 {}
  lemma StorePathTotal() ensures EntryTotal(StorePath().refs, 0) == 8.1 {}

  lemma FetchStageTotal() ensures EntryTotal(FetchStage().refs, 0) == 3.0 {}
  lemma DecodeStageTotal() ensures EntryTotal(DecodeStage().refs, 0) == 1.4 {}
  lemma ExecuteStageTotal() ensures EntryTotal(ExecuteStage().refs, 0) == 2.9 {}
  lemma MemoryStageTotal() ensures EntryTotal(MemoryStage().refs, 0) == 3.7 {}
  lemma WritebackStageTotal() ensures EntryTotal(WritebackStage().refs, 0) == 1.2 {}

  lemma IfStageTotal() ensures EntryTotal(IfStage().refs, 0) == 3.5 {}
  lemma IdStageTotal() ensures EntryTotal(IdStage().refs, 0) == 2.9 {}
  lemma ExStageTotal() ensures EntryTotal(ExStage().refs, 0) == 3.3 {}
  lemma MemStageTotal() ensures EntryTotal(MemStage().refs, 0) == 3.5 {}
  lemma WbStageTotal() ensures EntryTotal(WbStage().refs, 0) == 1.2 {}

  /** Single-cycle path totals: R-type 6.8 ns, Load 9.4 ns, Store 8.1 ns. */
  lemma SingleCycleTotals()
    ensures EntryTotals(SingleCycle(), [6.8, 9.4, 8.1])
  {
    RTypePathTotal();
    LoadPathTotal();
    StorePathTotal();
  }

  /** Multi-cycle stage totals; MEMORY (3.7 ns) is the longest. */
  lemma MultiCycleTotals()
    ensures EntryTotals(MultiCycle(), [3.0, 1.4, 2.9, 3.7, 1.2])
  {
    FetchStageTotal();
    DecodeStageTotal();
    ExecuteStageTotal();
    MemoryStageTotal();
    WritebackStageTotal();
  }

  /** Pipelined stage totals; IF and MEM tie at 3.5 ns. */
  lemma PipelinedTotals()
    ensures EntryTotals(Pipelined(), [3.5, 2.9, 3.3, 3.5, 1.2])
  {
    IfStageTotal();
    IdStageTotal();
    ExStageTotal();
    MemStageTotal();
    WbStageTotal();
  }

  /** The chart frequencies are the derived ones rounded to two decimals. */
  lemma ChartFrequencies()
    ensures RoundsTo(NsToMhz / 9.4, 106.38)
    ensures RoundsTo(NsToMhz / 3.7, 270.27)
    ensures RoundsTo(NsToMhz / 3.5, 285.71)
  {
  }

  /**
   * No table repeats a candidate name, so each table means the same as
   * the dictionary it is written as: no entry is overwritten by a later one.
   */
  lemma DistinctTableNames()
    ensures DistinctNames(SingleCycle())
    ensures DistinctNames(MultiCycle())
    ensures DistinctNames(Pipelined())
  {
  }

  /**
   * Single-cycle: R-type totals 6.8 ns, Load 9.4 ns and Store 8.1 ns, so
   * Load is critical at 9.4 ns, about 106.38 MHz.
   */
  lemma SingleCycleAnalysis()
    ensures Resolve(Delays, SingleCycle()).Success?
    ensures Totals(Resolve(Delays, SingleCycle()).value) == [6.8, 9.4, 8.1]
    ensures Analyze(Resolve(Delays, SingleCycle()).value)
         == Success(Analysis("Load (LD)", 9.4, NsToMhz / 9.4))
  {
    SingleCycleTotals();
    TableAnalysis(SingleCycle(), [6.8, 9.4, 8.1], 1);
  }

  /** Multi-cycle: MEMORY is critical at 3.7 ns, about 270.27 MHz. */
  lemma MultiCycleAnalysis()
    ensures Resolve(Delays, MultiCycle()).Success?
    ensures Totals(Resolve(Delays, MultiCycle()).value) == [3.0, 1.4, 2.9, 3.7, 1.2]
    ensures Analyze(Resolve(Delays, MultiCycle()).value)
         == Success(Analysis("MEMORY", 3.7, NsToMhz / 3.7))
  {
    MultiCycleTotals();
    TableAnalysis(MultiCycle(), [3.0, 1.4, 2.9, 3.7, 1.2], 3);
  }

  /**
   * Pipelined: IF and MEM both total 3.5 ns; the scan reports IF, the
   * first of the two, never MEM. The period is 3.5 ns, about 285.71 MHz.
   */
  lemma PipelinedAnalysis()
    ensures Resolve(Delays, Pipelined()).Success?
    ensures var c := Resolve(Delays, Pipelined()).value;
            && Totals(c) == [3.5, 2.9, 3.3, 3.5, 1.2]
            && c[0].Total() == c[3].Total()
            && FirstMax(c) == Some(0)
            && Analyze(c) == Success(Analysis("IF (Instruction Fetch)", 3.5, NsToMhz / 3.5))
  {
    PipelinedTotals();
    TableAnalysis(Pipelined(), [3.5, 2.9, 3.3, 3.5, 1.2], 0);
    var c := Resolve(Delays, Pipelined()).value;
    assert c[0].Total() == Totals(c)[0] == Totals(c)[3] == c[3].Total();
  }
}
