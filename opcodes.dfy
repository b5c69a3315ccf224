/**
 * The opcode byte table of the CPU (src/Defines/Opcodes.h), and the
 * opcodes the assembler names without that table defining them.
 */
module Opcodes {
  import opened Numbers

  const MOV_IM: byte := 0x00
  const MOV_R: byte := 0x01
  const MOV_A: byte := 0x02
  const MOV_ADDR_IM: byte := 0x03
  const MOV_ADDR_R: byte := 0x04
  const MOV_ADDR_A: byte := 0x05

  const ADD_R: byte := 0x06
  const ADD_I: byte := 0x07
  const ADD_RI: byte := 0x08
  const ADD_IR: byte := 0x09

  const SUB_R: byte := 0x0A
  const SUB_I: byte := 0x0B
  const SUB_RI: byte := 0x0C
  const SUB_IR: byte := 0x0D

  const ADC_R: byte := 0x0E
  const ADC_I: byte := 0x0F
  const ADC_RI: byte := 0x10
  const ADC_IR: byte := 0x11

  const SBC_R: byte := 0x12
  const SBC_I: byte := 0x13
  const SBC_RI: byte := 0x14
  const SBC_IR: byte := 0x15

  const MUL_R: byte := 0x16
  const MUL_I: byte := 0x17
  const MUL_RI: byte := 0x18
  const MUL_IR: byte := 0x19

  const DIV_R: byte := 0x1A
  const DIV_I: byte := 0x1B
  const DIV_RI: byte := 0x1C
  const DIV_IR: byte := 0x1D

  const AND_R: byte := 0x1E
  const AND_I: byte := 0x1F
  const AND_RI: byte := 0x20
  const AND_IR: byte := 0x21

  const OR_R: byte := 0x22
  const OR_I: byte := 0x23
  const OR_RI: byte := 0x24
  const OR_IR: byte := 0x25

  const XOR_R: byte := 0x26
  const XOR_I: byte := 0x27
  const XOR_RI: byte := 0x28
  const XOR_IR: byte := 0x29

  const NOT_R: byte := 0x2A

  const SHL_R: byte := 0x2B
  const SHL_I: byte := 0x2C
  const SHL_RI: byte := 0x2D
  const SHL_IR: byte := 0x2E

  const SHR_R: byte := 0x2F
  const SHR_I: byte := 0x30
  const SHR_RI: byte := 0x31
  const SHR_IR: byte := 0x32

  const CMP_R: byte := 0x33
  const CMP_RI: byte := 0x34

  const JMP: byte := 0x35
  const JNZ: byte := 0x36
  const JZ: byte := 0x37
  const JNS: byte := 0x38
  const JS: byte := 0x39
  const JNC: byte := 0x3A
  const JC: byte := 0x3B

  const PUSH_IM_W: byte := 0x3C
  const PUSH_IM_B: byte := 0x3D
  const PUSH_R: byte := 0x3E

  const POP_R: byte := 0x3F
  const POP_A: byte := 0x40

  const HLT: byte := 0xFF

  /** Every defined opcode, in the order the table declares them. */
  const Defined: seq<byte> :=
    MovGroup + AddGroup + CarryGroup + MulGroup + LogicGroup + ShiftGroup + JumpGroup + StackGroup

  const MovGroup: seq<byte> := [MOV_IM, MOV_R, MOV_A, MOV_ADDR_IM, MOV_ADDR_R, MOV_ADDR_A]
  const AddGroup: seq<byte> := [ADD_R, ADD_I, ADD_RI, ADD_IR, SUB_R, SUB_I, SUB_RI, SUB_IR]
  const CarryGroup: seq<byte> := [ADC_R, ADC_I, ADC_RI, ADC_IR, SBC_R, SBC_I, SBC_RI, SBC_IR]
  const MulGroup: seq<byte> := [MUL_R, MUL_I, MUL_RI, MUL_IR, DIV_R, DIV_I, DIV_RI, DIV_IR]
  const LogicGroup: seq<byte> :=
    [AND_R, AND_I, AND_RI, AND_IR, OR_R, OR_I, OR_RI, OR_IR, XOR_R, XOR_I, XOR_RI, XOR_IR, NOT_R]
  const ShiftGroup: seq<byte> := [SHL_R, SHL_I, SHL_RI, SHL_IR, SHR_R, SHR_I, SHR_RI, SHR_IR, CMP_R, CMP_RI]
  const JumpGroup: seq<byte> := [JMP, JNZ, JZ, JNS, JS, JNC, JC]
  const StackGroup: seq<byte> := [PUSH_IM_W, PUSH_IM_B, PUSH_R, POP_R, POP_A, HLT]

  /**
   * The four opcodes of one two-operand arithmetic/logic instruction, one
   * per operand shape: register-register (`_R`), number-number (`_I`),
   * register-number (`_RI`) and number-register (`_IR`).
   */
  datatype Forms = Forms(r: byte, i: byte, ri: byte, ir: byte)

  datatype Shape = RegReg | NumNum | RegNum | NumReg

  function FormOf(f: Forms, s: Shape): byte {
    match s
    case RegReg => f.r
    case NumNum => f.i
    case RegNum => f.ri
    case NumReg => f.ir
  }

  /** Position of a shape's opcode within its family. */
  function ShapeOffset(s: Shape): nat {
    match s
    case RegReg => 0
    case NumNum => 1
    case RegNum => 2
    case NumReg => 3
  }

  const ADD: Forms := Forms(ADD_R, ADD_I, ADD_RI, ADD_IR)
  const SUB: Forms := Forms(SUB_R, SUB_I, SUB_RI, SUB_IR)
  const ADC: Forms := Forms(ADC_R, ADC_I, ADC_RI, ADC_IR)
  const SBC: Forms := Forms(SBC_R, SBC_I, SBC_RI, SBC_IR)
  const MUL: Forms := Forms(MUL_R, MUL_I, MUL_RI, MUL_IR)
  const DIV: Forms := Forms(DIV_R, DIV_I, DIV_RI, DIV_IR)
  const AND: Forms := Forms(AND_R, AND_I, AND_RI, AND_IR)
  const OR: Forms := Forms(OR_R, OR_I, OR_RI, OR_IR)
  const XOR: Forms := Forms(XOR_R, XOR_I, XOR_RI, XOR_IR)
  const SHL: Forms := Forms(SHL_R, SHL_I, SHL_RI, SHL_IR)
  const SHR: Forms := Forms(SHR_R, SHR_I, SHR_RI, SHR_IR)

  /** The eleven families in table order. */
  const Families: seq<Forms> := [ADD, SUB, ADC, SBC, MUL, DIV, AND, OR, XOR, SHL, SHR]

  /**
   * The opcodes the assembler emits for INC, DEC, IGT, ILT, IGE and ILE,
   * which the table does not define.  The model leaves their values open.
   */
  datatype UndefinedOpcodes = UndefinedOpcodes(
    incR: byte, decR: byte,
    igtR: byte, igtRI: byte, iltR: byte, iltRI: byte,
    igeR: byte, igeRI: byte, ileR: byte, ileRI: byte)

  predicate StrictlyIncreasing(s: seq<int>) {
    forall i, j :: 0 <= i < j < |s| ==> s[i] < s[j]
  }

  /** Two increasing runs, the first ending below the second's start, make one. */
  lemma IncreasingConcat(a: seq<int>, b: seq<int>)
    requires StrictlyIncreasing(a) && StrictlyIncreasing(b)
    requires a == [] || b == [] || a[|a| - 1] < b[0]
    ensures StrictlyIncreasing(a + b)
  {
    var s := a + b;
    forall i, j | 0 <= i < j < |s| ensures s[i] < s[j] {
      if i < |a| && |a| <= j {
        assert s[i] <= a[|a| - 1] && b[0] <= s[j];
      }
    }
  }

  /** Increasing neighbours make an increasing sequence. */
  lemma {:induction false} IncreasingFromNeighbours(s: seq<int>)
    requires forall i :: 0 <= i < |s| - 1 ==> s[i] < s[i + 1]
    ensures StrictlyIncreasing(s)
  {
    if |s| > 1 {
      IncreasingFromNeighbours(s[1..]);
      forall j | 1 <= j < |s| ensures s[0] < s[j] {
        if j > 1 {
          assert s[1..][0] < s[1..][j - 1];
        }
      }
    }
  }

  /** Each group of the table is declared in increasing order. */
  lemma GroupsIncreasing()
    ensures StrictlyIncreasing(MovGroup) && StrictlyIncreasing(AddGroup)
    ensures StrictlyIncreasing(CarryGroup) && StrictlyIncreasing(MulGroup)
    ensures StrictlyIncreasing(LogicGroup) && StrictlyIncreasing(ShiftGroup)
    ensures StrictlyIncreasing(JumpGroup) && StrictlyIncreasing(StackGroup)
  {
    IncreasingFromNeighbours(MovGroup);
    IncreasingFromNeighbours(AddGroup);
    IncreasingFromNeighbours(CarryGroup);
    IncreasingFromNeighbours(MulGroup);
    IncreasingFromNeighbours(LogicGroup);
    IncreasingFromNeighbours(ShiftGroup);
    IncreasingFromNeighbours(JumpGroup);
    IncreasingFromNeighbours(StackGroup);
  }

  /**
   * The table is declared in strictly increasing order, so no two opcodes
   * share a byte; HLT is 0xFF and every other opcode is at most 0x40.
   */
  lemma DefinedOpcodesDistinct()
    ensures |Defined| == 66
    ensures forall i, j :: 0 <= i < j < |Defined| ==> Defined[i] != Defined[j]
    ensures Defined[|Defined| - 1] == HLT == 0xFF
    ensures forall i :: 0 <= i < |Defined| - 1 ==> Defined[i] <= 0x40
  {
    GroupsIncreasing();
    var s: seq<int> := MovGroup;
    IncreasingConcat(s, AddGroup);
    s := s + AddGroup;
    IncreasingConcat(s, CarryGroup);
    s := s + CarryGroup;
    IncreasingConcat(s, MulGroup);
    s := s + MulGroup;
    IncreasingConcat(s, LogicGroup);
    s := s + LogicGroup;
    IncreasingConcat(s, ShiftGroup);
    s := s + ShiftGroup;
    IncreasingConcat(s, JumpGroup);
    s := s + JumpGroup;
    IncreasingConcat(s, StackGroup);
    s := s + StackGroup;
    assert s == Defined;
    assert s[|s| - 2] == POP_A;
  }

  /** Each family's four forms are consecutive bytes, in the order _R, _I, _RI, _IR. */
  lemma FamiliesConsecutive(k: nat)
    requires k < |Families|
    ensures forall s :: FormOf(Families[k], s) == Families[k].r + ShapeOffset(s)
  {
  }

  /** Every family opcode lies in the table, below `PUSH_R`. */
  lemma FamiliesInTable(f: Forms)
    requires f in Families
    ensures f.r < PUSH_R && f.i < PUSH_R && f.ri < PUSH_R && f.ir < PUSH_R
  {
  }

  /** Consecutive families are at least four bytes apart. */
  lemma FamiliesSpaced()
    ensures forall k :: 0 <= k < |Families| - 1 ==> Families[k].r + 4 <= Families[k + 1].r
  {
  }

  /**
   * Decoding an arithmetic/logic opcode byte is unambiguous: it determines
   * both the family and the operand shape.
   */
  lemma {:induction false} FormsInjective(k1: nat, s1: Shape, k2: nat, s2: Shape)
    requires k1 < |Families| && k2 < |Families|
    requires FormOf(Families[k1], s1) == FormOf(Families[k2], s2)
    ensures k1 == k2 && s1 == s2
  {
    FamiliesConsecutive(k1);
    FamiliesConsecutive(k2);
    if k1 < k2 {
      FamiliesApart(k1, k2);
    } else if k2 < k1 {
      FamiliesApart(k2, k1);
    }
  }

  /** Any two families are at least four bytes apart. */
  lemma {:induction false} FamiliesApart(a: nat, b: nat)
    requires a < b < |Families|
    ensures Families[a].r + 4 <= Families[b].r
    decreases b - a
  {
    FamiliesSpaced();
    if a + 1 < b {
      FamiliesApart(a + 1, b);
    }
  }

  /** A few table entries that the encoders rely on. */
  lemma NamedOpcodeValues()
    ensures MOV_IM == 0x00 && MOV_R == 0x01 && NOT_R == 0x2A
    ensures CMP_R == 0x33 && CMP_RI == 0x34
    ensures ADD == Forms(0x06, 0x07, 0x08, 0x09)
    ensures [JMP, JNZ, JZ, JNS, JS, JNC, JC] == [0x35, 0x36, 0x37, 0x38, 0x39, 0x3A, 0x3B]
  {
  }
}
