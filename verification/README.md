# RISC-V sequential processor: timing model, control FSM and decode tables

This project models the analytical core of a RISC-V (RV64I subset)
processor study in Dafny. The core has three parts.

**The static critical-path timing model** (`scripts/timing_analysis.py`):
- a library of component delays in nanoseconds;
- for each of three implementation variants (single-cycle, multi-cycle, pipelined), an ordered table of candidate paths or stages, each a list of delay elements;
- a scan that sums every candidate and reports the first one with the strictly greatest total;
- the clock period (that total) and the maximum frequency (1000 / period, in MHz);
- a comparison of execution times (instructions × CPI × period) and speedups against the single-cycle variant.

**The multi-cycle control state machine** (`scripts/generate_flow.py`):
- nine numbered states;
- dispatch on the 7-bit opcode in DECODE;
- the per-class cycle sequences;
- the cycle counts of the comparison table.

**The decode tables of the single-cycle datapath** (`scripts/generate_diagrams.py`):
- the control-unit truth table and the 4-bit ALUOp codes;
- the R, I, S and B instruction formats (section 2.2 of the RISC-V Unprivileged ISA, with LD/SD funct3 011 from section 5.3), their worked example encodings and their bit-string labels;
- the register file with x0 hardwired to zero;
- the data memory: 1024 words of 64 bits, addressed by byte address ÷ 8 behind a bounds check.

Modules, one per file:
- `Wrappers` (`wrappers.dfy`): `Option` and `Result`.
- `DelayLibrary` (`delays.dfy`): the component identifiers and the delay table.
- `PathModel` (`paths.dfy`): resolving candidate tables against the library, and sums.
- `Analyzer` (`analyzer.dfy`): the first-strict-maximum scan, the period and the frequency.
- `TimingTables` (`tables.dfy`): the three tables of the source and their results.
- `Performance` (`performance.dfy`): the execution-time and speedup comparison.
- `MultiCycleFsm` (`fsm.dfy`): the state machine.
- `ControlUnit` (`control.dfy`): the truth table, the ALU and field decoding.
- `InstructionFormats` (`encoding.dfy`): field placement, assembly, and printing and reading labels.
- `FormatExamples` (`format_examples.dfy`): the worked encodings of the format diagram and their printed labels.
- `Datapath` (`datapath.dfy`): the register file, the data memory and one R-type step.

Delays are exact `real`s. Every delay in the table is a whole number of tenths of a nanosecond. Component identifiers are an enumeration, and a library is a map from identifier to delay, so an identifier missing from a library is still an error path. Candidate tables are ordered sequences, so the tie-break follows table order by construction.

Where the model departs from the code:
- The code validates nothing in the comparison. The model rejects an absent baseline, or a non-positive instruction count, CPI or period, as a `Result`.
- When no total is positive, the code divides by zero. The model reports `DegenerateTiming` instead.
- The code's tables are dictionary literals; the model's are sequences, which could repeat a name (see `PathModel.Resolve` under "## Left out"). The three tables repeat none.

Neither the code nor the model checks for an empty path: an empty candidate totals 0 and is never selected.

## Model

| member | source | states |
|---|---|---|
| DelayLibrary.DelaysComplete | scripts/timing_analysis.py:9-44 | every component has an entry in the table; each delay is non-negative and a whole number of tenths of a nanosecond, at most 2.5 ns |
| PathModel.Resolve | scripts/timing_analysis.py:53-89 | a table resolves exactly when every component of every candidate is known; the resolved candidates keep names, order and delays; otherwise the first unknown component in table order is reported, before any sum is taken |
| PathModel.ResolveComplete | scripts/timing_analysis.py:53-89 | against a library that knows every component, every table resolves |
| PathModel.SumPermutation | scripts/timing_analysis.py:95 | a candidate's total is independent of the order of its elements |
| PathModel.SumNonNegative | scripts/timing_analysis.py:95 | a sum of non-negative delays is non-negative |
| PathModel.ResolvedNonNegative | scripts/timing_analysis.py:9-44 | resolved against a library of non-negative delays, every candidate total is non-negative |
| Analyzer.FirstMax | scripts/timing_analysis.py:91-104 | the selected index has a positive total, no candidate exceeds it and every earlier one is strictly below it; nothing is selected exactly when no total is positive |
| Analyzer.FirstMaxCharacterized | scripts/timing_analysis.py:102-104 | the scan selects index i if and only if i is the first strict maximum with a positive total |
| Analyzer.TieGoesToFirst | scripts/timing_analysis.py:102-104 | of two candidates that share the maximal total, the later one is never reported |
| Analyzer.CriticalPath | scripts/timing_analysis.py:91-104 | the reported delay bounds every candidate's total and is the total of the named first-maximum candidate; with no positive total the state stays at name "" and delay 0 |
| Analyzer.ScanCandidates | scripts/timing_analysis.py:91-104 | the loop with a running maximum and name ends in the state that characterises the first strict maximum |
| Analyzer.Analyze | scripts/timing_analysis.py:106-107 | fails exactly when no total is positive; otherwise period × frequency = 1000, the period bounds every total and equals the first maximum's total, and the critical name is that candidate's |
| Analyzer.AnalyzeSelects | scripts/timing_analysis.py:102-107 | for the first strict maximum, the analysis reports its name, its total as period and 1000 / total as frequency |
| Analyzer.RaiseCriticalDelay | scripts/timing_analysis.py:95-107 | raising one delay of the critical candidate by d lengthens the period by exactly d and strictly lowers the frequency |
| TimingTables.SingleCycleAnalysis | scripts/timing_analysis.py:53-107 | the single-cycle table resolves to totals R-type 6.8, Load 9.4 and Store 8.1 ns, and "Load (LD)" is reported critical at 9.4 ns |
| TimingTables.MultiCycleAnalysis | scripts/timing_analysis.py:125-178 | the multi-cycle table resolves to stage totals 3.0, 1.4, 2.9, 3.7 and 1.2 ns, and "MEMORY" is reported critical at 3.7 ns |
| TimingTables.PipelinedAnalysis | scripts/timing_analysis.py:196-256 | the pipelined table resolves to stage totals 3.5, 2.9, 3.3, 3.5 and 1.2 ns; IF and MEM both total 3.5 ns, and IF, the first of them, is reported with period 3.5 ns |
| TimingTables.ChartFrequencies | scripts/generate_performance_charts.py:12 | 1000 / 9.4, 1000 / 3.7 and 1000 / 3.5 round to the charted 106.38, 270.27 and 285.71 MHz |
| TimingTables.DistinctTableNames | scripts/timing_analysis.py:53-89 | no table repeats a candidate name (single-cycle at lines 53-89, multi-cycle at 125-160, pipelined at 196-238), so no dictionary entry of the code is overwritten |
| Performance.Compare | scripts/timing_analysis.py:279-298 | rows keep input order, names, periods and CPIs; each time is instructions × CPI × period and positive; frequency × period = 1000; it succeeds exactly when the baseline is present and every variant is valid, and otherwise reports the absent baseline or the first invalid variant |
| Performance.SpeedupRelation | scripts/timing_analysis.py:296-298 | the baseline's speedup is exactly 1.0, and every speedup times its variant's time equals the baseline's time |
| Performance.FasterIffSpeedup | scripts/timing_analysis.py:297-298 | a variant's speedup exceeds 1 if and only if its time is below the baseline's |
| Performance.SourceComparison | scripts/timing_analysis.py:279-298 | ten instructions at CPI 1.0, 4.25 and 3.0 over 9.4, 3.7 and 3.5 ns take 94.0, 157.25 and 105.0 ns; the speedups are 1.0 and round to 0.60 and 0.90, as charted at scripts/generate_performance_charts.py lines 32 and 42 |
| MultiCycleFsm.NumberingBijective | scripts/generate_flow.py:17-27 | the nine states are numbered 0-8 one to one |
| MultiCycleFsm.Classify | scripts/generate_flow.py:38-40 | each of the four opcodes 0110011, 0000011, 0100011 and 1100011 maps to its class and no other opcode does |
| MultiCycleFsm.Next | scripts/generate_flow.py:35-62 | one clock edge of the state machine; only DECODE and MEMADR can lack a successor, and only for an opcode they do not dispatch |
| MultiCycleFsm.NextFollowsEdges | scripts/generate_flow.py:35-62 | every transition the machine takes is one of the twelve drawn edges |
| MultiCycleFsm.EdgesAreTaken | scripts/generate_flow.py:35-62 | every drawn edge is taken for some opcode |
| MultiCycleFsm.FetchThenDecode | scripts/generate_flow.py:35 | FETCH always moves to DECODE |
| MultiCycleFsm.DecodeDispatch | scripts/generate_flow.py:38-40 | DECODE moves to EXECUTE exactly for R-type, to MEMADR exactly for loads and stores, to BRANCH exactly for branches, and nowhere for any other opcode |
| MultiCycleFsm.MemoryAccess | scripts/generate_flow.py:43-56 | MEMADR moves to MEMREAD exactly for a load and to MEMWRITE exactly for a store; MEMREAD moves to MEMWB and EXECUTE to ALUWRITEBACK |
| MultiCycleFsm.CyclesPerClass | scripts/generate_flow.py:79-142 | from FETCH an instruction of each class visits exactly its flow diagram's states, one per cycle, and is back in FETCH after 4, 5, 4 or 3 cycles (the table's counts, lines 187-204) and not before |
| MultiCycleFsm.TotalCyclesBounds | scripts/generate_flow.py:187-204 | a mix of n instructions takes between 3n and 5n cycles |
| MultiCycleFsm.AverageCpi | scripts/generate_flow.py:165 | the average CPI of any non-empty mix lies between 3 and 5 |
| ControlUnit.SelectedBy | scripts/generate_diagrams.py:426-429 | the ALU result multiplexer selects the operation whose code is given, and selects nothing exactly when no operation has that code |
| ControlUnit.AluCodesDistinct | scripts/generate_diagrams.py:268 | the codes 0010, 0110, 0111 and 0001 are pairwise distinct, and each selects its own operation |
| ControlUnit.Control | scripts/generate_diagrams.py:704-752 | the truth table as drawn: each row's opcode classifies as its instruction's class, outside the ld and sd rows its ALUOp selects the ALU operation the instruction needs, and RegWrite is set exactly for R-type and loads |
| ControlUnit.SubtractZeroIffEqual | scripts/generate_diagrams.py:747-752 | the subtraction BEQ uses gives zero if and only if the operands are equal |
| ControlUnit.ControlSemantics | scripts/generate_diagrams.py:704-752 | each row's opcode is its class's opcode; ALUSrc is set exactly for loads and stores, Branch only for beq, MemRead only for ld, MemWrite only for sd, and RegWrite for R-type and loads; MemtoReg is a don't-care exactly when RegWrite is off; outside the ld and sd rows each ALUOp selects the instruction's operation |
| ControlUnit.RTypeRowsDifferInAluOp | scripts/generate_diagrams.py:704-731 | the add, sub, and and or rows share opcode 0110011 and every signal except ALUOp, and their ALUOps are distinct |
| ControlUnit.MemorySignalsConsistent | scripts/generate_diagrams.py:704-752 | no row both reads and writes memory; MemtoReg = 1 only with MemRead = 1 |
| ControlUnit.LoadStoreAluOpUnassigned | scripts/generate_diagrams.py:732-745 | the ld and sd rows carry ALUOp 0000, which selects none of the four operations, so exactly those two rows fail to select the operation their instruction needs; beq's selects subtract |
| ControlUnit.CorrectedControl | scripts/generate_diagrams.py:704-752 | the truth table with ALUOp 0010 in the ld and sd rows: every row's ALUOp selects the operation its instruction needs (add for the address of ld and sd), and the table differs from the drawn one only in those two rows' ALUOp |
| ControlUnit.DecodeCharacterized | scripts/generate_diagrams.py:704-752 | each instruction's opcode, funct3 and funct7 decode to it, and fields decode to an instruction exactly when they are its fields |
| ControlUnit.Decode | scripts/generate_diagrams.py:644-669 | decoding opcode, funct3 and funct7 yields only an instruction whose truth-table opcode and funct3 are the given ones |
| InstructionFormats.Decode | scripts/generate_diagrams.py:644-666 | a word is split by its opcode's format, with the opcode kept; words with any other opcode are not decoded |
| InstructionFormats.Encode | scripts/generate_diagrams.py:644-666 | the opcode lands in bits [6:0] of the word |
| InstructionFormats.EncodePlacement | scripts/generate_diagrams.py:644-666 | cut at the bit ranges its format diagram draws, an encoded word yields the instruction's fields in drawn order: funct7, rs2, rs1, funct3, rd and opcode for R-type; imm[11:0] for I-type; imm[11:5] and imm[4:0] for S-type; imm[12,10:5] and imm[4:1,11] for B-type |
| InstructionFormats.DecodeEncode | scripts/generate_diagrams.py:644-666 | decoding an encoded instruction recovers every field |
| InstructionFormats.EncodeDecode | scripts/generate_diagrams.py:644-666 | encoding a decoded word gives back the word |
| InstructionFormats.Assemble | scripts/generate_diagrams.py:644-666 | assembly gives a well-formed instruction whose fields decode back to the mnemonic; it fails exactly on operands of the wrong shape or an odd branch offset |
| InstructionFormats.DisassembleAssemble | scripts/generate_diagrams.py:644-666 | disassembling an assembled instruction gives back the mnemonic and operands |
| InstructionFormats.AssembleDisassemble | scripts/generate_diagrams.py:644-666 | assembling a disassembled well-formed instruction gives back the instruction |
| InstructionFormats.Disassemble | scripts/generate_diagrams.py:644-666 | disassembly succeeds exactly when opcode, funct3 and funct7 name one of the seven instructions, and then yields that instruction |
| InstructionFormats.ParseBitsRoundTrip | scripts/generate_diagrams.py:647 | a number printed in binary at a width it fits reads back as the number |
| InstructionFormats.SplitJoin | scripts/generate_diagrams.py:647 | cutting at spaces undoes joining non-empty, space-free fields with single spaces |
| InstructionFormats.ReadLabelRoundTrip | scripts/generate_diagrams.py:644-669 | a word printed as its grouped bit-string label, in either field layout, reads back as the same word |
| FormatExamples.LabelReadsBack | scripts/generate_diagrams.py:644-669 | the label of an assembled instruction reads back to its word, which decodes and disassembles to the same instruction and operands |
| FormatExamples.AddExample | scripts/generate_diagrams.py:647 | add x21, x6, x5 assembles to 0x00530AB3, whose label is the one drawn and reads back to it |
| FormatExamples.LoadExample | scripts/generate_diagrams.py:654 | ld x20, 0(x14) assembles to 0x00073A03, whose label is the one drawn and reads back to it |
| FormatExamples.StoreExample | scripts/generate_diagrams.py:661 | sd x21, 0(x16) assembles to 0x01583023, whose label is the one drawn and reads back to it |
| FormatExamples.BranchExample | scripts/generate_diagrams.py:668 | beq x17, x18, 16 assembles to 0x01288863, labelled 0000000 10010 10001 000 10000 1100011 |
| FormatExamples.BranchLabelAsDrawn | scripts/generate_diagrams.py:668 | the label drawn for beq x17, x18, 16 reads back to 0x03288463, which disassembles to beq x17, x18, 40 |
| FormatExamples.TraceWordAsWritten | scripts/generate_diagrams.py:559 | the fetched word 0x005302B3 decodes to add x5, x6, x5, not to the traced add x21, x6, x5 |
| Datapath.ReadReg | scripts/generate_diagrams.py:539-541 | a read of x0 returns 0 |
| Datapath.WriteReg | scripts/generate_diagrams.py:528-533 | a write to x0, or with RegWrite off, changes nothing; a write changes no other register |
| Datapath.ReadAfterWrite | scripts/generate_diagrams.py:495-542 | after a write, the written register (unless x0) reads the new value and every other register reads as before |
| Datapath.ZeroAfterWrites | scripts/generate_diagrams.py:495 | after any sequence of writes, x0 still reads 0, and registers never written read as before |
| Datapath.WordIndexInBounds | scripts/generate_diagrams.py:184-199 | in bounds, the byte lies in its word's eight bytes, and two addresses share a word exactly when their byte addresses agree after ÷ 8 |
| Datapath.DecoderAliases | scripts/generate_diagrams.py:199-214 | byte address 0x2000 maps to the same word as 0x0000 through word_addr[9:0], and only the bounds check rejects it |
| Datapath.Load | scripts/generate_diagrams.py:212-214 | a load yields a word exactly when the address passes the bounds check |
| Datapath.Store | scripts/generate_diagrams.py:198-214 | a store without MemWrite or out of bounds changes nothing; a store never changes another word |
| Datapath.LoadAfterStore | scripts/generate_diagrams.py:180-214 | after a store, an in-bounds load in the same 8-byte word returns the stored value, and any other load is unaffected |
| Datapath.ExecuteRType | scripts/generate_diagrams.py:553-583 | an R-type step writes the instruction's ALU operation on the two read-port values to rd unless rd is x0, and changes no other register |
| Datapath.ExecuteRTypeAsTabled | scripts/generate_diagrams.py:704-731 | after an R-type step x0 still reads zero, and the truth table as drawn drives every R-type step exactly as the corrected table does |
| Datapath.TraceExample | scripts/generate_diagrams.py:564-583 | with x6 = 0x6 and x5 = 0x5, add x21, x6, x5 leaves 0xB in x21 |

## Left out

- Printing and formatting of the timing report and the comparison table: presentation only.
- IEEE double rounding: delays, periods, frequencies and times are exact reals. The chart values are related to them by rounding to two decimals (`Analyzer.RoundsTo`).
- Where the multi-cycle CPI 4.25 and the pipelined CPI 3.0 come from: they are external inputs to the comparison. 4.25 is not the mean of the per-class cycle counts.
- Graphviz and matplotlib rendering: every diagram's layout, and the hazard, pipeline-timing and chart scripts, apart from the constants used above as expected values.
- The Verilator harness `tb/sim_main.cpp` and the Verilog processor: the harness does I/O through a generated foreign class, and the Verilog processor is not part of this model.
- Component identifiers are an enumeration, not strings, so an identifier is never malformed. The error for an identifier missing from a library is kept.
- Analyzer.Analyze: reports `DegenerateTiming` where the code would raise a division by zero (no candidate with a positive total).
- Performance.Compare: the code compares three fixed variants with no validation. The model rejects an absent baseline and a non-positive instruction count, CPI or period, since a time of zero would make a speedup divide by zero.
- PathModel.Resolve: a table is a sequence, so a name may occur twice and both entries are kept, whereas a Python dictionary literal keeps only the last list for a repeated key (at the first key's position). Resolve does not require distinct names; `TimingTables.DistinctTableNames` proves that the three tables of the code repeat none, so for them the two readings agree.
- Performance.SourceComparison: takes the three periods as the literals 9.4, 3.7 and 3.5. Those are the ones the three `TimingTables` analyses prove.
- ControlUnit.Decode: decodes only the seven instructions of the truth table. The diagrams name addi in the I-type format but give it no row.
- The immediate generator and sign extension are not modelled: immediates stay as 12- and 13-bit fields.
- Datapath.WordIndex: a misaligned byte address is silently truncated to its word by ÷ 8. The memory map calls data memory "Byte-addressable (word-aligned)" (scripts/generate_diagrams.py:613) but says nothing of what a misaligned access does, so alignment is not checked.
- Datapath.Load and Datapath.Store: the diagrams do not say what an out-of-bounds access does. A load yields None and a store writes nothing.
- The registers between multi-cycle steps, the PC and instruction memory, and the pipeline with its hazard handling: these are not described as operations by the modelled code.

## Findings

| source | as written | input that shows it | evidently intended | confidence | as-written member | corrected member |
|---|---|---|---|---|---|---|
| scripts/generate_diagrams.py:668 | The example for beq x17, x18, 16 is labelled 0000001 10010 10001 000 01000 1100011 | That label reads back to 0x03288463. Under the B-type layout this has offset bit 5 (funct7 field 0000001) and offset bit 3 (rd field 01000) set, so the offset is 40 | 0000000 10010 10001 000 10000 1100011, the word 0x01288863 | high (not executed) | FormatExamples.BranchLabelAsDrawn | FormatExamples.BranchExample |
| scripts/generate_diagrams.py:559 | The execution example for add x21, x6, x5 fetches Instr = 0x005302B3 | 0x005302B3 has rd field [11:7] = 00101, so it decodes to add x5, x6, x5 | 0x00530AB3 (rd = 10101), the word the format diagram's own add example encodes | high (not executed) | FormatExamples.TraceWordAsWritten | FormatExamples.AddExample |
| scripts/generate_diagrams.py:732-745 | The ld and sd rows of the truth table carry ALUOp 0000 | ld x1, 8(x2): ALUOp 0000 selects none of add 0010, sub 0110, and 0111 or 0001, yet data memory takes its address from ALUResult (scripts/generate_diagrams.py:190) and the timing paths of ld and sd go through 'ALU Add (Address Calc)' (scripts/timing_analysis.py:73, 85) | ALUOp 0010 (add) in both rows | medium (not executed) | ControlUnit.LoadStoreAluOpUnassigned | ControlUnit.CorrectedControl |
