/**
 * The RV64I base instruction formats the processor implements (R, I, S and
 * B, section 2.2 of the RISC-V Unprivileged ISA): the placement of each
 * field in the 32-bit instruction word, assembly of the seven supported
 * instructions, and the grouped bit-string labels the format diagrams show.
 */
module InstructionFormats {
  import opened Wrappers
  import opened MultiCycleFsm
  import opened ControlUnit

  /** An instruction word split into the fields of its format. */
  datatype Instr =
    | R(funct7: bv7, rs2: bv5, rs1: bv5, funct3: bv3, rd: bv5, opcode: bv7)
    | I(imm: bv12, rs1: bv5, funct3: bv3, rd: bv5, opcode: bv7)
    | S(imm: bv12, rs2: bv5, rs1: bv5, funct3: bv3, opcode: bv7)
    | B(offset: bv13, rs2: bv5, rs1: bv5, funct3: bv3, opcode: bv7)

  /** The format each opcode of the subset uses. */
  predicate FormatMatches(i: Instr) {
    match i
    case R(_, _, _, _, _, op) => op == OpcodeR
    case I(_, _, _, _, op) => op == OpcodeLoad
    case S(_, _, _, _, op) => op == OpcodeStore
    case B(off, _, _, _, op) => op == OpcodeBranch && off & 1 == 0
  }

  /**
   * Places the fields: funct7 [31:25], rs2 [24:20], rs1 [19:15],
   * funct3 [14:12], rd [11:7], opcode [6:0]; the I immediate fills
   * [31:20]; the S immediate splits into [11:5] at [31:25] and [4:0] at
   * [11:7]; the B offset places bit 12 at 31, bits 10:5 at [30:25], bits
   * 4:1 at [11:8] and bit 11 at 7 (its bit 0 is always zero).
   */
  function Encode(i: Instr): (w: bv32)
    ensures OpcodeField(w) == i.opcode
  {
    match i
    case R(f7, rs2, rs1, f3, rd, op) =>
      (f7 as bv32 << 25) | (rs2 as bv32 << 20) | (rs1 as bv32 << 15)
      | (f3 as bv32 << 12) | (rd as bv32 << 7) | op as bv32
    case I(imm, rs1, f3, rd, op) =>
      (imm as bv32 << 20) | (rs1 as bv32 << 15) | (f3 as bv32 << 12)
      | (rd as bv32 << 7) | op as bv32
    case S(imm, rs2, rs1, f3, op) =>
      ((imm as bv32 >> 5) << 25) | (rs2 as bv32 << 20) | (rs1 as bv32 << 15)
      | (f3 as bv32 << 12) | ((imm as bv32 & 0x1F) << 7) | op as bv32
    case B(off, rs2, rs1, f3, op) =>
      (((off as bv32 >> 12) & 1) << 31) | (((off as bv32 >> 5) & 0x3F) << 25)
      | (rs2 as bv32 << 20) | (rs1 as bv32 << 15) | (f3 as bv32 << 12)
      | (((off as bv32 >> 1) & 0xF) << 8) | (((off as bv32 >> 11) & 1) << 7) | op as bv32
  }

  /** The opcode field [6:0]. */
  function OpcodeField(w: bv32): bv7 {
    (w & 0x7F) as bv7
  }

  /** Splits a word by its opcode's format; other opcodes are not decoded. */
  function Decode(w: bv32): (r: Option<Instr>)
    ensures r.Some? ==> FormatMatches(r.value) && r.value.opcode == OpcodeField(w)
    ensures r.None? <==> Classify(OpcodeField(w)).None?
  {
    var op := OpcodeField(w);
    var rd := ((w >> 7) & 0x1F) as bv5;
    var f3 := ((w >> 12) & 0x7) as bv3;
    var rs1 := ((w >> 15) & 0x1F) as bv5;
    var rs2 := ((w >> 20) & 0x1F) as bv5;
    var f7 := ((w >> 25) & 0x7F) as bv7;
    if op == OpcodeR then
      Some(R(f7, rs2, rs1, f3, rd, op))
    else if op == OpcodeLoad then
      Some(I((w >> 20) as bv12, rs1, f3, rd, op))
    else if op == OpcodeStore then
      Some(S(((f7 as bv12) << 5) | rd as bv12, rs2, rs1, f3, op))
    else if op == OpcodeBranch then
      var off := (((w >> 31) & 1) << 12) | (((w >> 7) & 1) << 11)
                 | (((w >> 25) & 0x3F) << 5) | (((w >> 8) & 0xF) << 1);
      Some(B(off as bv13, rs2, rs1, f3, op))
    else
      None
  }

  /** Decoding recovers every field an encoding placed. */
  lemma DecodeEncode(i: Instr)
    requires FormatMatches(i)
    ensures Decode(Encode(i)) == Some(i)
  {
  }

  /** Encoding a decoded word gives the word back: no bit is lost. */
  lemma EncodeDecode(w: bv32)
    requires Decode(w).Some?
    ensures Encode(Decode(w).value) == w
  {
  }

  /**
   * Operands in assembly order, one shape per format. Immediates are in
   * two's complement: a 12-bit displacement and a 13-bit branch offset.
   */
  datatype Operands =
    | RegOps(rd: bv5, rs1: bv5, rs2: bv5)            // add rd, rs1, rs2
    | LoadOps(rd: bv5, base: bv5, disp: bv12)        // ld rd, disp(base)
    | StoreOps(src: bv5, base: bv5, disp: bv12)      // sd src, disp(base)
    | BranchOps(rs1: bv5, rs2: bv5, offset: bv13)    // beq rs1, rs2, offset

  /**
   * Assembles one of the seven instructions from operands of its format;
   * operands of another shape, or an odd branch offset, give None.
   */
  function Assemble(m: Mnemonic, ops: Operands): (r: Option<Instr>)
    ensures r.Some? ==> FormatMatches(r.value)
    ensures r.Some? ==> ControlUnit.Decode(r.value.opcode, r.value.funct3, Funct7Of(r.value)) == Some(m)
    ensures r.None? <==> ShapeOf(ops) != ClassOf(m) || (ops.BranchOps? && ops.offset & 1 != 0)
  {
    match (ClassOf(m), ops)
    case (RType, RegOps(rd, rs1, rs2)) =>
      Some(R(Funct7(m), rs2, rs1, Funct3(m), rd, OpcodeR))
    case (Load, LoadOps(rd, base, disp)) =>
      Some(I(disp, base, Funct3(m), rd, OpcodeLoad))
    case (Store, StoreOps(src, base, disp)) =>
      Some(S(disp, src, base, Funct3(m), OpcodeStore))
    case (CondBranch, BranchOps(rs1, rs2, offset)) =>
      if offset & 1 == 0 then Some(B(offset, rs2, rs1, Funct3(m), OpcodeBranch)) else None
    case _ => None
  }

  /** The instruction class an operand shape belongs to. */
  function ShapeOf(ops: Operands): OpClass {
    match ops
    case RegOps(_, _, _) => RType
    case LoadOps(_, _, _) => Load
    case StoreOps(_, _, _) => Store
    case BranchOps(_, _, _) => CondBranch
  }

  /** The funct7 field of an R-type instruction; zero in the other formats. */
  function Funct7Of(i: Instr): bv7 {
    if i.R? then i.funct7 else 0
  }

  /** Reads the instruction and operands back from the fields. */
  function Disassemble(i: Instr): (r: Option<(Mnemonic, Operands)>)
    ensures r.Some? <==> ControlUnit.Decode(i.opcode, i.funct3, Funct7Of(i)).Some?
    ensures r.Some? ==> Some(r.value.0) == ControlUnit.Decode(i.opcode, i.funct3, Funct7Of(i))
  {
    match ControlUnit.Decode(i.opcode, i.funct3, Funct7Of(i))
    case None => None
    case Some(m) =>
      match i
      case R(_, rs2, rs1, _, rd, _) => Some((m, RegOps(rd, rs1, rs2)))
      case I(imm, rs1, _, rd, _) => Some((m, LoadOps(rd, rs1, imm)))
      case S(imm, rs2, rs1, _, _) => Some((m, StoreOps(rs2, rs1, imm)))
      case B(off, rs2, rs1, _, _) => Some((m, BranchOps(rs1, rs2, off)))
  }

  /**
   * An instruction's fields in the order the format diagram draws them,
   * most significant first, each as a number at bit 0: the S immediate as
   * imm[11:5] and imm[4:0], the B offset as imm[12,10:5] and imm[4:1,11].
   */
  function DrawnFields(i: Instr): seq<bv32> {
    match i
    case R(f7, rs2, rs1, f3, rd, op) => [f7 as bv32, rs2 as bv32, rs1 as bv32, f3 as bv32, rd as bv32, op as bv32]
    case I(imm, rs1, f3, rd, op) => [imm as bv32, rs1 as bv32, f3 as bv32, rd as bv32, op as bv32]
    case S(imm, rs2, rs1, f3, op) =>
      [imm as bv32 >> 5, rs2 as bv32, rs1 as bv32, f3 as bv32, imm as bv32 & 0x1F, op as bv32]
    case B(off, rs2, rs1, f3, op) =>
      [(((off as bv32 >> 12) & 1) << 6) | ((off as bv32 >> 5) & 0x3F), rs2 as bv32, rs1 as bv32, f3 as bv32,
       (((off as bv32 >> 1) & 0xF) << 1) | ((off as bv32 >> 11) & 1), op as bv32]
  }

  /** Encoding places every field at the bit range the format diagram draws. */
  lemma EncodePlacement(i: Instr)
    ensures FieldWords(Encode(i), LayoutOf(i)) == DrawnFields(i)
  {
    match i
    case R(f7, rs2, rs1, f3, rd, op) => RPlacement(f7, rs2, rs1, f3, rd, op);
    case I(imm, rs1, f3, rd, op) => IPlacement(imm, rs1, f3, rd, op);
    case S(imm, rs2, rs1, f3, op) => SPlacement(imm, rs2, rs1, f3, op);
    case B(off, rs2, rs1, f3, op) => BPlacement(off, rs2, rs1, f3, op);
  }

  lemma RPlacement(f7: bv7, rs2: bv5, rs1: bv5, f3: bv3, rd: bv5, op: bv7)
    ensures FieldWords(Encode(R(f7, rs2, rs1, f3, rd, op)), SixFields) == DrawnFields(R(f7, rs2, rs1, f3, rd, op))
  {
    SixWords(Encode(R(f7, rs2, rs1, f3, rd, op)));
  }

  lemma IPlacement(imm: bv12, rs1: bv5, f3: bv3, rd: bv5, op: bv7)
    ensures FieldWords(Encode(I(imm, rs1, f3, rd, op)), FiveFields) == DrawnFields(I(imm, rs1, f3, rd, op))
  {
    FiveWords(Encode(I(imm, rs1, f3, rd, op)));
  }

  lemma SPlacement(imm: bv12, rs2: bv5, rs1: bv5, f3: bv3, op: bv7)
    ensures FieldWords(Encode(S(imm, rs2, rs1, f3, op)), SixFields) == DrawnFields(S(imm, rs2, rs1, f3, op))
  {
    SixWords(Encode(S(imm, rs2, rs1, f3, op)));
  }

  lemma BPlacement(off: bv13, rs2: bv5, rs1: bv5, f3: bv3, op: bv7)
    ensures FieldWords(Encode(B(off, rs2, rs1, f3, op)), SixFields) == DrawnFields(B(off, rs2, rs1, f3, op))
  {
    SixWords(Encode(B(off, rs2, rs1, f3, op)));
  }

  /** Disassembly inverts assembly. */
  lemma DisassembleAssemble(m: Mnemonic, ops: Operands)
    requires Assemble(m, ops).Some?
    ensures Disassemble(Assemble(m, ops).value) == Some((m, ops))
  {
  }

  /** Assembly inverts disassembly on well-formed instructions. */
  lemma AssembleDisassemble(i: Instr)
    requires FormatMatches(i) && Disassemble(i).Some?
    ensures Assemble(Disassemble(i).value.0, Disassemble(i).value.1) == Some(i)
  {
  }

  function Pow2(n: nat): (p: nat)
    ensures p >= 1
  {
    if n == 0 then 1 else 2 * Pow2(n - 1)
  }

  /** The low `width` bits of `v` as a string of '0' and '1', most significant first. */
  function Bits(v: nat, width: nat): (s: string)
    ensures |s| == width
    ensures forall k :: 0 <= k < |s| ==> s[k] == '0' || s[k] == '1'
  {
    if width == 0 then "" else Bits(v / 2, width - 1) + [if v % 2 == 1 then '1' else '0']
  }

  /** A string of '0' and '1' read as a binary number; None on any other character. */
  function ParseBits(s: string): (r: Option<nat>)
    ensures r.Some? ==> r.value < Pow2(|s|)
    ensures r.Some? <==> forall k :: 0 <= k < |s| ==> s[k] == '0' || s[k] == '1'
  {
    if |s| == 0 then Some(0)
    else
      var last := s[|s| - 1];
      if last != '0' && last != '1' then None
      else match ParseBits(s[..|s| - 1])
        case None =>
          assert forall k :: 0 <= k < |s| - 1 ==> s[..|s| - 1][k] == s[k];
          None
        case Some(high) =>
          assert forall k :: 0 <= k < |s| - 1 ==> s[..|s| - 1][k] == s[k];
          Some(2 * high + if last == '1' then 1 else 0)
  }

  /** Reading back a rendered number gives the number. */
  lemma {:induction false} ParseBitsRoundTrip(v: nat, width: nat)
    requires v < Pow2(width)
    ensures ParseBits(Bits(v, width)) == Some(v)
    decreases width
  {
    if width > 0 {
      var s := Bits(v, width);
      var high := Bits(v / 2, width - 1);
      var bit := if v % 2 == 1 then '1' else '0';
      assert s == high + [bit];
      assert s[..width - 1] == high;
      assert v / 2 < Pow2(width - 1);
      ParseBitsRoundTrip(v / 2, width - 1);
      assert 2 * (v / 2) + (if bit == '1' then 1 else 0) == v;
    }
  }

  lemma Pow2Facts()
    ensures Pow2(5) == 32 && Pow2(7) == 128 && Pow2(3) == 8 && Pow2(12) == 4096
  {
    assert Pow2(3) == 8;
    assert Pow2(5) == 32;
    assert Pow2(7) == 128;
    assert Pow2(12) == 4096;
  }

  /** The two field layouts the format diagrams draw. */
  datatype Layout =
    | SixFields   // R, S and B: [31:25] [24:20] [19:15] [14:12] [11:7] [6:0]
    | FiveFields  // I: [31:20] [19:15] [14:12] [11:7] [6:0]

  function LayoutOf(i: Instr): Layout {
    if i.I? then FiveFields else SixFields
  }

  /** The layout's field widths, most significant field first. */
  function Widths(l: Layout): seq<nat> {
    match l
    case SixFields => [7, 5, 5, 3, 5, 7]
    case FiveFields => [12, 5, 3, 5, 7]
  }

  /** Each value fits its width. */
  ghost predicate Fits(vs: seq<nat>, ws: seq<nat>) {
    |vs| == |ws| && forall k :: 0 <= k < |vs| ==> vs[k] < Pow2(ws[k])
  }

  /** The layout's fields of a word, most significant field first, each shifted down to bit 0. */
  function FieldWords(w: bv32, l: Layout): (fs: seq<bv32>)
    ensures |fs| == |Widths(l)|
  {
    var low := [(w >> 15) & 0x1F, (w >> 12) & 0x7, (w >> 7) & 0x1F, w & 0x7F];
    match l
    case SixFields => [(w >> 25) & 0x7F, (w >> 20) & 0x1F] + low
    case FiveFields => [(w >> 20) & 0xFFF] + low
  }

  /** The fields' values as numbers. */
  function FieldValues(w: bv32, l: Layout): (vs: seq<nat>)
    ensures |vs| == |Widths(l)|
  {
    var fs := FieldWords(w, l);
    seq(|fs|, k requires 0 <= k < |fs| => fs[k] as nat)
  }

  /** The six fields of an R, S or B word. */
  lemma SixWords(w: bv32)
    ensures FieldWords(w, SixFields) ==
              [(w >> 25) & 0x7F, (w >> 20) & 0x1F, (w >> 15) & 0x1F, (w >> 12) & 0x7, (w >> 7) & 0x1F, w & 0x7F]
  {
  }

  /** The five fields of an I word. */
  lemma FiveWords(w: bv32)
    ensures FieldWords(w, FiveFields) ==
              [(w >> 20) & 0xFFF, (w >> 15) & 0x1F, (w >> 12) & 0x7, (w >> 7) & 0x1F, w & 0x7F]
  {
  }

  lemma MaskBounds(x: bv32)
    ensures (x & 0x7) as nat < 8 && (x & 0x1F) as nat < 32
    ensures (x & 0x7F) as nat < 128 && (x & 0xFFF) as nat < 4096
  {
  }

  /** Every field's value fits the field's width. */
  lemma FieldValuesFit(w: bv32, l: Layout)
    ensures Fits(FieldValues(w, l), Widths(l))
  {
    if l.SixFields? { SixFit(w); } else { FiveFit(w); }
  }

  lemma SixValues(w: bv32)
    ensures FieldValues(w, SixFields) ==
              [((w >> 25) & 0x7F) as nat, ((w >> 20) & 0x1F) as nat, ((w >> 15) & 0x1F) as nat,
               ((w >> 12) & 0x7) as nat, ((w >> 7) & 0x1F) as nat, (w & 0x7F) as nat]
  {
    SixWords(w);
  }

  lemma FiveValues(w: bv32)
    ensures FieldValues(w, FiveFields) ==
              [((w >> 20) & 0xFFF) as nat, ((w >> 15) & 0x1F) as nat,
               ((w >> 12) & 0x7) as nat, ((w >> 7) & 0x1F) as nat, (w & 0x7F) as nat]
  {
    FiveWords(w);
  }

  lemma SixFit(w: bv32)
    ensures Fits(FieldValues(w, SixFields), [7, 5, 5, 3, 5, 7])
  {
    SixValues(w);
    Pow2Facts();
    MaskBounds(w >> 25); MaskBounds(w >> 20); MaskBounds(w >> 15);
    MaskBounds(w >> 12); MaskBounds(w >> 7); MaskBounds(w);
  }

  lemma FiveFit(w: bv32)
    ensures Fits(FieldValues(w, FiveFields), [12, 5, 3, 5, 7])
  {
    FiveValues(w);
    Pow2Facts();
    MaskBounds(w >> 20); MaskBounds(w >> 15);
    MaskBounds(w >> 12); MaskBounds(w >> 7); MaskBounds(w);
  }

  /** Each value printed in binary at its width. */
  function Render(vs: seq<nat>, ws: seq<nat>): (parts: seq<string>)
    requires |vs| == |ws|
    ensures |parts| == |vs|
    ensures forall k :: 0 <= k < |parts| ==> parts[k] == Bits(vs[k], ws[k])
    ensures forall k :: 0 <= k < |parts| ==> |parts[k]| == ws[k] && ' ' !in parts[k]
  {
    if |vs| == 0 then []
    else
      var p := Bits(vs[0], ws[0]);
      assert forall j :: 0 <= j < |p| ==> p[j] != ' ';
      [p] + Render(vs[1..], ws[1..])
  }

  /** Reads each part at its width; None on a wrong count, width or character. */
  function ParseFields(parts: seq<string>, ws: seq<nat>): (r: Option<seq<nat>>)
    ensures r.Some? ==> Fits(r.value, ws)
    ensures r.Some? ==> |parts| == |ws| && forall k :: 0 <= k < |ws| ==> |parts[k]| == ws[k]
  {
    if |parts| != |ws| then None
    else if |parts| == 0 then Some([])
    else if |parts[0]| != ws[0] then None
    else match (ParseBits(parts[0]), ParseFields(parts[1..], ws[1..]))
      case (Some(v), Some(rest)) => Some([v] + rest)
      case _ => None
  }

  /** Reading rendered values back at their widths gives the values. */
  lemma {:induction false} ParseRender(vs: seq<nat>, ws: seq<nat>)
    requires Fits(vs, ws)
    ensures ParseFields(Render(vs, ws), ws) == Some(vs)
    decreases |vs|
  {
    if |vs| > 0 {
      ParseBitsRoundTrip(vs[0], ws[0]);
      ParseRender(vs[1..], ws[1..]);
      assert [vs[0]] + vs[1..] == vs;
    }
  }

  /** Each field of the word printed in binary at its width. */
  function FieldStrings(w: bv32, l: Layout): (parts: seq<string>)
    ensures |parts| == |Widths(l)|
  {
    Render(FieldValues(w, l), Widths(l))
  }

  /** The fields separated by single spaces. */
  function Join(parts: seq<string>): string {
    if |parts| == 0 then ""
    else if |parts| == 1 then parts[0]
    else parts[0] + " " + Join(parts[1..])
  }

  /** The word as the format diagrams print it. */
  function Label(w: bv32, l: Layout): string {
    Join(FieldStrings(w, l))
  }

  /** The position of the first space, if any. */
  function SpaceAt(s: string): (r: Option<nat>)
    ensures r.Some? ==> r.value < |s| && s[r.value] == ' ' && ' ' !in s[..r.value]
    ensures r.None? <==> ' ' !in s
  {
    if |s| == 0 then None
    else if s[0] == ' ' then Some(0)
    else match SpaceAt(s[1..])
      case None => None
      case Some(i) =>
        assert s[..i + 1] == [s[0]] + s[1..][..i];
        Some(i + 1)
  }

  /** Cuts a string at every space. */
  function Split(s: string): seq<string>
    decreases |s|
  {
    match SpaceAt(s)
    case None => [s]
    case Some(i) => [s[..i]] + Split(s[i + 1..])
  }

  /** Splitting undoes joining when no part is empty or holds a space. */
  lemma {:induction false} SplitJoin(parts: seq<string>)
    requires |parts| > 0
    requires forall k :: 0 <= k < |parts| ==> ' ' !in parts[k]
    ensures Split(Join(parts)) == parts
    decreases |parts|
  {
    if |parts| == 1 {
      assert SpaceAt(parts[0]).None?;
    } else {
      var s := Join(parts);
      var p := parts[0];
      assert s == p + " " + Join(parts[1..]);
      FirstSpace(p, Join(parts[1..]));
      assert s[..|p|] == p;
      assert s[|p| + 1..] == Join(parts[1..]);
      SplitJoin(parts[1..]);
    }
  }

  /** In `p + " " + rest`, with no space in `p`, the first space follows `p`. */
  lemma {:induction false} FirstSpace(p: string, rest: string)
    requires ' ' !in p
    ensures SpaceAt(p + " " + rest) == Some(|p|)
    decreases |p|
  {
    if |p| > 0 {
      assert (p + " " + rest)[1..] == p[1..] + " " + rest;
      FirstSpace(p[1..], rest);
    }
  }

  /** Places fields back at their positions. */
  function Assemble32(fs: seq<bv32>, l: Layout): bv32
    requires |fs| == |Widths(l)|
  {
    var n := |fs|;
    var low := (fs[n - 4] << 15) | (fs[n - 3] << 12) | (fs[n - 2] << 7) | fs[n - 1];
    match l
    case SixFields => (fs[0] << 25) | (fs[1] << 20) | low
    case FiveFields => (fs[0] << 20) | low
  }

  /** Putting a word's fields back in place gives the word. */
  lemma AssembleFields(w: bv32, l: Layout)
    ensures Assemble32(FieldWords(w, l), l) == w
  {
    var low := (((w >> 15) & 0x1F) << 15) | (((w >> 12) & 0x7) << 12) | (((w >> 7) & 0x1F) << 7) | (w & 0x7F);
    if l.SixFields? {
      SixWords(w);
      AssembleSix((w >> 25) & 0x7F, (w >> 20) & 0x1F, (w >> 15) & 0x1F, (w >> 12) & 0x7, (w >> 7) & 0x1F, w & 0x7F);
      SplitSix(w);
    } else {
      FiveWords(w);
      AssembleFive((w >> 20) & 0xFFF, (w >> 15) & 0x1F, (w >> 12) & 0x7, (w >> 7) & 0x1F, w & 0x7F);
      SplitFive(w);
    }
  }

  lemma AssembleSix(a: bv32, b: bv32, c: bv32, d: bv32, e: bv32, f: bv32)
    ensures Assemble32([a, b, c, d, e, f], SixFields) ==
              (a << 25) | (b << 20) | ((c << 15) | (d << 12) | (e << 7) | f)
  {
  }

  lemma AssembleFive(a: bv32, c: bv32, d: bv32, e: bv32, f: bv32)
    ensures Assemble32([a, c, d, e, f], FiveFields) ==
              (a << 20) | ((c << 15) | (d << 12) | (e << 7) | f)
  {
  }

  /** A word is the disjunction of its six fields put back in place. */
  lemma SplitSix(w: bv32)
    ensures (((w >> 25) & 0x7F) << 25) | (((w >> 20) & 0x1F) << 20)
            | ((((w >> 15) & 0x1F) << 15) | (((w >> 12) & 0x7) << 12) | (((w >> 7) & 0x1F) << 7) | (w & 0x7F)) == w
  {
  }

  /** A word is the disjunction of its five fields put back in place. */
  lemma SplitFive(w: bv32)
    ensures (((w >> 20) & 0xFFF) << 20)
            | ((((w >> 15) & 0x1F) << 15) | (((w >> 12) & 0x7) << 12) | (((w >> 7) & 0x1F) << 7) | (w & 0x7F)) == w
  {
  }

  /** A number as a 32-bit word; zero when it does not fit. */
  function ToWord(v: nat): bv32 {
    if v < 0x1_0000_0000 then v as bv32 else 0
  }

  function ToWords(vs: seq<nat>): (fs: seq<bv32>)
    ensures |fs| == |vs|
  {
    seq(|vs|, k requires 0 <= k < |vs| => ToWord(vs[k]))
  }

  /** Converting the fields to numbers and back gives the fields. */
  lemma ToWordsValues(w: bv32, l: Layout)
    ensures ToWords(FieldValues(w, l)) == FieldWords(w, l)
  {
    var fs := FieldWords(w, l);
    forall k | 0 <= k < |fs|
      ensures ToWords(FieldValues(w, l))[k] == fs[k]
    {
      NatRoundTrip(fs[k]);
    }
  }

  /** A word read as a number converts back to itself. */
  lemma NatRoundTrip(x: bv32)
    ensures ToWord(x as nat) == x
  {
  }

  /** Reads a diagram label back into a word; None on any malformed field. */
  function ReadLabel(s: string, l: Layout): (r: Option<bv32>)
  {
    match ParseFields(Split(s), Widths(l))
    case None => None
    case Some(vs) => Some(Assemble32(ToWords(vs), l))
  }

  /** Printing a word in either layout and reading it back gives the word. */
  lemma ReadLabelRoundTrip(w: bv32, l: Layout)
    ensures ReadLabel(Label(w, l), l) == Some(w)
  {
    var parts := FieldStrings(w, l);
    SplitJoin(parts);
    FieldValuesFit(w, l);
    ParseRender(FieldValues(w, l), Widths(l));
    ToWordsValues(w, l);
    AssembleFields(w, l);
  }
}
