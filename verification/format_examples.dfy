/**
 * The worked examples of the format diagrams, their printed labels, and
 * the two places where a drawn encoding disagrees with the instruction it
 * is drawn for.
 */
module FormatExamples {
  import opened Wrappers
  import opened ControlUnit
  import opened InstructionFormats
  import MultiCycleFsm

  /** An R, S or B label is its six fields' binary strings, space-separated. */
  lemma SixLabel(w: bv32, a: nat, b: nat, c: nat, d: nat, e: nat, f: nat,
                 sa: string, sb: string, sc: string, sd: string, se: string, sf: string)
    requires FieldValues(w, SixFields) == [a, b, c, d, e, f]
    requires Bits(a, 7) == sa && Bits(b, 5) == sb && Bits(c, 5) == sc
    requires Bits(d, 3) == sd && Bits(e, 5) == se && Bits(f, 7) == sf
    ensures Label(w, SixFields) == sa + " " + (sb + " " + (sc + " " + (sd + " " + (se + " " + sf))))
  {
    SixStrings(w, a, b, c, d, e, f);
    JoinSix(sa, sb, sc, sd, se, sf);
  }

  lemma SixStrings(w: bv32, a: nat, b: nat, c: nat, d: nat, e: nat, f: nat)
    requires FieldValues(w, SixFields) == [a, b, c, d, e, f]
    ensures FieldStrings(w, SixFields) == [Bits(a, 7), Bits(b, 5), Bits(c, 5), Bits(d, 3), Bits(e, 5), Bits(f, 7)]
  {
    assert FieldStrings(w, SixFields) == Render([a, b, c, d, e, f], [7, 5, 5, 3, 5, 7]);
    RenderSix(a, b, c, d, e, f);
  }

  lemma RenderSix(a: nat, b: nat, c: nat, d: nat, e: nat, f: nat)
    ensures Render([a, b, c, d, e, f], [7, 5, 5, 3, 5, 7]) ==
              [Bits(a, 7), Bits(b, 5), Bits(c, 5), Bits(d, 3), Bits(e, 5), Bits(f, 7)]
  {
    var r := Render([a, b, c, d, e, f], [7, 5, 5, 3, 5, 7]);
    assert |r| == 6;
  }

  lemma JoinSix(sa: string, sb: string, sc: string, sd: string, se: string, sf: string)
    ensures Join([sa, sb, sc, sd, se, sf]) == sa + " " + (sb + " " + (sc + " " + (sd + " " + (se + " " + sf))))
  {
    JoinUnfold([sa, sb, sc, sd, se, sf]);
    assert [sa, sb, sc, sd, se, sf][1..] == [sb, sc, sd, se, sf];
    JoinUnfold([sb, sc, sd, se, sf]);
    assert [sb, sc, sd, se, sf][1..] == [sc, sd, se, sf];
    JoinUnfold([sc, sd, se, sf]);
    assert [sc, sd, se, sf][1..] == [sd, se, sf];
    JoinUnfold([sd, se, sf]);
    assert [sd, se, sf][1..] == [se, sf];
    JoinUnfold([se, sf]);
  }

  lemma JoinUnfold(parts: seq<string>)
    requires |parts| > 1
    ensures Join(parts) == parts[0] + " " + Join(parts[1..])
  {
  }

  lemma AddBits()
    ensures Bits(0, 7) == "0000000"
    ensures Bits(5, 5) == "00101"
    ensures Bits(6, 5) == "00110"
    ensures Bits(0, 3) == "000"
    ensures Bits(21, 5) == "10101"
  {
  }

  lemma AddLabel(w: bv32)
    requires w == 0x00530AB3
    ensures Label(w, SixFields) == "0000000 00101 00110 000 10101 0110011"
  {
    SixValues(w);
    AddBits();
    OpcodeRBits();
    SixLabel(w, 0, 5, 6, 0, 21, 0x33, "0000000", "00101", "00110", "000", "10101", "0110011");
    AddText();
  }

  /** An I label is its five fields' binary strings, space-separated. */
  lemma FiveLabel(w: bv32, a: nat, c: nat, d: nat, e: nat, f: nat,
                  sa: string, sc: string, sd: string, se: string, sf: string)
    requires FieldValues(w, FiveFields) == [a, c, d, e, f]
    requires Bits(a, 12) == sa && Bits(c, 5) == sc
    requires Bits(d, 3) == sd && Bits(e, 5) == se && Bits(f, 7) == sf
    ensures Label(w, FiveFields) == sa + " " + (sc + " " + (sd + " " + (se + " " + sf)))
  {
    assert FieldStrings(w, FiveFields) == Render([a, c, d, e, f], [12, 5, 3, 5, 7]);
    RenderFive(a, c, d, e, f);
    JoinFive(sa, sc, sd, se, sf);
  }

  lemma RenderFive(a: nat, c: nat, d: nat, e: nat, f: nat)
    ensures Render([a, c, d, e, f], [12, 5, 3, 5, 7]) ==
              [Bits(a, 12), Bits(c, 5), Bits(d, 3), Bits(e, 5), Bits(f, 7)]
  {
    var r := Render([a, c, d, e, f], [12, 5, 3, 5, 7]);
    assert |r| == 5;
  }

  lemma JoinFive(sa: string, sc: string, sd: string, se: string, sf: string)
    ensures Join([sa, sc, sd, se, sf]) == sa + " " + (sc + " " + (sd + " " + (se + " " + sf)))
  {
    JoinUnfold([sa, sc, sd, se, sf]);
    assert [sa, sc, sd, se, sf][1..] == [sc, sd, se, sf];
    JoinUnfold([sc, sd, se, sf]);
    assert [sc, sd, se, sf][1..] == [sd, se, sf];
    JoinUnfold([sd, se, sf]);
    assert [sd, se, sf][1..] == [se, sf];
    JoinUnfold([se, sf]);
  }

  lemma LoadBits()
    ensures Bits(0, 12) == "000000000000"
    ensures Bits(14, 5) == "01110"
    ensures Bits(3, 3) == "011"
    ensures Bits(20, 5) == "10100"
  {
  }

  lemma LoadLabel(w: bv32)
    requires w == 0x00073A03
    ensures Label(w, FiveFields) == "000000000000 01110 011 10100 0000011"
  {
    FiveValues(w);
    LoadBits();
    OpcodeLoadBits();
    FiveLabel(w, 0, 14, 3, 20, 0x03, "000000000000", "01110", "011", "10100", "0000011");
    LoadText();
  }

  lemma StoreBits()
    ensures Bits(0, 7) == "0000000"
    ensures Bits(21, 5) == "10101"
    ensures Bits(16, 5) == "10000"
    ensures Bits(3, 3) == "011"
    ensures Bits(0, 5) == "00000"
  {
  }

  lemma StoreLabel(w: bv32)
    requires w == 0x01583023
    ensures Label(w, SixFields) == "0000000 10101 10000 011 00000 0100011"
  {
    SixValues(w);
    StoreBits();
    OpcodeStoreBits();
    SixLabel(w, 0, 21, 16, 3, 0, 0x23, "0000000", "10101", "10000", "011", "00000", "0100011");
    StoreText();
  }

  lemma BranchBits()
    ensures Bits(0, 7) == "0000000"
    ensures Bits(18, 5) == "10010"
    ensures Bits(17, 5) == "10001"
    ensures Bits(0, 3) == "000"
    ensures Bits(16, 5) == "10000"
  {
  }

  lemma BranchLabel(w: bv32)
    requires w == 0x01288863
    ensures Label(w, SixFields) == "0000000 10010 10001 000 10000 1100011"
  {
    SixValues(w);
    BranchBits();
    OpcodeBranchBits();
    SixLabel(w, 0, 18, 17, 0, 16, 0x63, "0000000", "10010", "10001", "000", "10000", "1100011");
    BranchText();
  }

  lemma BranchDrawnBits()
    ensures Bits(1, 7) == "0000001"
    ensures Bits(18, 5) == "10010"
    ensures Bits(17, 5) == "10001"
    ensures Bits(0, 3) == "000"
    ensures Bits(8, 5) == "01000"
  {
  }

  lemma BranchDrawnLabel(w: bv32)
    requires w == 0x03288463
    ensures Label(w, SixFields) == "0000001 10010 10001 000 01000 1100011"
  {
    SixValues(w);
    BranchDrawnBits();
    OpcodeBranchBits();
    SixLabel(w, 1, 18, 17, 0, 8, 0x63, "0000001", "10010", "10001", "000", "01000", "1100011");
    BranchDrawnText();
  }

  lemma OpcodeRBits()
    ensures Bits(0x33, 7) == "0110011"
  {
  }

  lemma OpcodeLoadBits()
    ensures Bits(0x03, 7) == "0000011"
  {
  }

  lemma OpcodeStoreBits()
    ensures Bits(0x23, 7) == "0100011"
  {
  }

  lemma OpcodeBranchBits()
    ensures Bits(0x63, 7) == "1100011"
  {
  }

  /**
   * A label printed for an assembled instruction reads back to its word,
   * and the word decodes and disassembles to the same instruction.
   */
  lemma LabelReadsBack(m: Mnemonic, ops: Operands, w: bv32, text: string)
    requires Assemble(m, ops).Some? && Encode(Assemble(m, ops).value) == w
    requires Label(w, LayoutOf(Assemble(m, ops).value)) == text
    ensures ReadLabel(text, LayoutOf(Assemble(m, ops).value)) == Some(w)
    ensures InstructionFormats.Decode(w).Some?
    ensures Disassemble(InstructionFormats.Decode(w).value) == Some((m, ops))
  {
    var i := Assemble(m, ops).value;
    ReadLabelRoundTrip(w, LayoutOf(i));
    DecodeEncode(i);
    DisassembleAssemble(m, ops);
  }

  /** add x21, x6, x5 is the word 0x00530AB3, drawn as its R-type label. */
  lemma AddExample()
    ensures Assemble(Add, RegOps(21, 6, 5)) == Some(R(0x00, 5, 6, 0, 21, MultiCycleFsm.OpcodeR))
    ensures Encode(R(0x00, 5, 6, 0, 21, MultiCycleFsm.OpcodeR)) == 0x00530AB3
    ensures Label(0x00530AB3, SixFields) == "0000000 00101 00110 000 10101 0110011"
    ensures ReadLabel("0000000 00101 00110 000 10101 0110011", SixFields) == Some(0x00530AB3)
    ensures Disassemble(R(0x00, 5, 6, 0, 21, MultiCycleFsm.OpcodeR)) == Some((Add, RegOps(21, 6, 5)))
  {
    AddLabel(0x00530AB3);
    LabelReadsBack(Add, RegOps(21, 6, 5), 0x00530AB3, "0000000 00101 00110 000 10101 0110011");
  }

  /** ld x20, 0(x14) is the word 0x00073A03, drawn as its I-type label. */
  lemma LoadExample()
    ensures Assemble(Ld, LoadOps(20, 14, 0)) == Some(I(0, 14, 3, 20, MultiCycleFsm.OpcodeLoad))
    ensures Encode(I(0, 14, 3, 20, MultiCycleFsm.OpcodeLoad)) == 0x00073A03
    ensures Label(0x00073A03, FiveFields) == "000000000000 01110 011 10100 0000011"
    ensures ReadLabel("000000000000 01110 011 10100 0000011", FiveFields) == Some(0x00073A03)
    ensures Disassemble(I(0, 14, 3, 20, MultiCycleFsm.OpcodeLoad)) == Some((Ld, LoadOps(20, 14, 0)))
  {
    LoadLabel(0x00073A03);
    LabelReadsBack(Ld, LoadOps(20, 14, 0), 0x00073A03, "000000000000 01110 011 10100 0000011");
  }

  /** sd x21, 0(x16) is the word 0x01583023, drawn as its S-type label. */
  lemma StoreExample()
    ensures Assemble(Sd, StoreOps(21, 16, 0)) == Some(S(0, 21, 16, 3, MultiCycleFsm.OpcodeStore))
    ensures Encode(S(0, 21, 16, 3, MultiCycleFsm.OpcodeStore)) == 0x01583023
    ensures Label(0x01583023, SixFields) == "0000000 10101 10000 011 00000 0100011"
    ensures ReadLabel("0000000 10101 10000 011 00000 0100011", SixFields) == Some(0x01583023)
    ensures Disassemble(S(0, 21, 16, 3, MultiCycleFsm.OpcodeStore)) == Some((Sd, StoreOps(21, 16, 0)))
  {
    StoreLabel(0x01583023);
    LabelReadsBack(Sd, StoreOps(21, 16, 0), 0x01583023, "0000000 10101 10000 011 00000 0100011");
  }

  /**
   * beq x17, x18, 16 is the word 0x01288863: offset bits [4:1] = 1000 sit
   * in the rd field, and the funct7 field, which holds offset bits 12 and
   * [10:5], is zero.
   */
  lemma BranchExample()
    ensures Assemble(Beq, BranchOps(17, 18, 16)) == Some(B(16, 18, 17, 0, MultiCycleFsm.OpcodeBranch))
    ensures Encode(B(16, 18, 17, 0, MultiCycleFsm.OpcodeBranch)) == 0x01288863
    ensures Label(0x01288863, SixFields) == "0000000 10010 10001 000 10000 1100011"
    ensures ReadLabel("0000000 10010 10001 000 10000 1100011", SixFields) == Some(0x01288863)
    ensures Disassemble(B(16, 18, 17, 0, MultiCycleFsm.OpcodeBranch)) == Some((Beq, BranchOps(17, 18, 16)))
  {
    BranchLabel(0x01288863);
    LabelReadsBack(Beq, BranchOps(17, 18, 16), 0x01288863, "0000000 10010 10001 000 10000 1100011");
  }

  /**
   * The label drawn for beq x17, x18, 16 reads back to a word whose
   * branch offset is 40, not 16: its funct7 field sets offset bit 5 and
   * its rd field sets offset bit 3.
   */
  lemma BranchLabelAsDrawn()
    ensures ReadLabel("0000001 10010 10001 000 01000 1100011", SixFields) == Some(0x03288463)
    ensures InstructionFormats.Decode(0x03288463) == Some(B(40, 18, 17, 0, MultiCycleFsm.OpcodeBranch))
    ensures Disassemble(B(40, 18, 17, 0, MultiCycleFsm.OpcodeBranch)) == Some((Beq, BranchOps(17, 18, 40)))
    ensures Encode(B(16, 18, 17, 0, MultiCycleFsm.OpcodeBranch)) != 0x03288463
  {
    BranchDrawnLabel(0x03288463);
    ReadLabelRoundTrip(0x03288463, SixFields);
  }

  /**
   * The execution example's fetched word 0x005302B3 decodes to
   * add x5, x6, x5: its rd field is 5, while the example writes the sum
   * to x21, whose encoding is 0x00530AB3.
   */
  lemma TraceWordAsWritten()
    ensures InstructionFormats.Decode(0x005302B3) == Some(R(0x00, 5, 6, 0, 5, MultiCycleFsm.OpcodeR))
    ensures Disassemble(R(0x00, 5, 6, 0, 5, MultiCycleFsm.OpcodeR)) == Some((Add, RegOps(5, 6, 5)))
    ensures Encode(R(0x00, 5, 6, 0, 21, MultiCycleFsm.OpcodeR)) != 0x005302B3
  {
  }

  /** The drawn labels as the space-separated concatenation of their fields. */
  lemma AddText()
    ensures "0000000" + " " + ("00101" + " " + ("00110" + " " + ("000" + " " + ("10101" + " " + "0110011"))))
            == "0000000 00101 00110 000 10101 0110011"
  {
  }

  lemma LoadText()
    ensures "000000000000" + " " + ("01110" + " " + ("011" + " " + ("10100" + " " + "0000011")))
            == "000000000000 01110 011 10100 0000011"
  {
  }

  lemma StoreText()
    ensures "0000000" + " " + ("10101" + " " + ("10000" + " " + ("011" + " " + ("00000" + " " + "0100011"))))
            == "0000000 10101 10000 011 00000 0100011"
  {
  }

  lemma BranchDrawnText()
    ensures "0000001" + " " + ("10010" + " " + ("10001" + " " + ("000" + " " + ("01000" + " " + "1100011"))))
            == "0000001 10010 10001 000 01000 1100011"
  {
  }

  lemma BranchText()
    ensures "0000000" + " " + ("10010" + " " + ("10001" + " " + ("000" + " " + ("10000" + " " + "1100011"))))
            == "0000000 10010 10001 000 10000 1100011"
  {
  }
}
