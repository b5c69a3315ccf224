/**
 * Whole runs of the lexer and the assembler pass on small programs, from
 * source lines to bytes: the program is the instructions' encodings in
 * order, ORG moves the addresses labels are given, a label must be defined
 * before the jump that names it (the lexer reads a name it has not seen
 * defined as an unknown token), and every label token defines a label
 * again.  The lexing lemmas at the end follow the scan of each line turn by
 * turn.
 */
module Examples {
  import opened Outcomes
  import opened Numbers
  import opened Tokens
  import opened Opcodes
  import opened Encoding
  import opened Assembly
  import opened Lexer

  // ------------------------------------------------------ straight line

  /** The tokens the lexer gives for `MOV R0, #5`, `MOV R1, #10`, `ADD R0, R0, R1`, `HLT` (`LexSampleAfter`). */
  function SampleTokens(): seq<Token> {
    [ Token(Opcode, "MOV"), Token(Reg, "R0"), Token(Comma, ","), Token(Immediate, "5"),
      Token(Opcode, "MOV"), Token(Reg, "R1"), Token(Comma, ","), Token(Immediate, "10"),
      Token(Opcode, "ADD"), Token(Reg, "R0"), Token(Comma, ","), Token(Reg, "R0"), Token(Comma, ","), Token(Reg, "R1"),
      Token(Opcode, "HLT")]
  }

  /** `SampleTokens()` from position `o` on, stated token by token. */
  predicate IsSampleAt(tokens: seq<Token>, o: nat) {
    && |tokens| == o + 15
    && tokens[o] == Token(Opcode, "MOV") && tokens[o + 1] == Token(Reg, "R0") && tokens[o + 2].kind == Comma
    && tokens[o + 3] == Token(Immediate, "5")
    && tokens[o + 4] == Token(Opcode, "MOV") && tokens[o + 5] == Token(Reg, "R1") && tokens[o + 6].kind == Comma
    && tokens[o + 7] == Token(Immediate, "10")
    && tokens[o + 8] == Token(Opcode, "ADD") && tokens[o + 9] == Token(Reg, "R0") && tokens[o + 10].kind == Comma
    && tokens[o + 11] == Token(Reg, "R0") && tokens[o + 12].kind == Comma && tokens[o + 13] == Token(Reg, "R1")
    && tokens[o + 14] == Token(Opcode, "HLT")
  }

  /** The sample's tokens after any others are the sample at that offset. */
  lemma SampleAfter(prior: seq<Token>)
    ensures IsSampleAt(prior + SampleTokens(), |prior|)
  {
  }

  /** A value below 0x100 is its own low byte, with a zero high byte. */
  lemma SmallValueBytes(n: nat)
    requires n < 0x100
    ensures n % 0x1_0000 % 0x100 == n && n % 0x1_0000 / 0x100 == 0
  {
  }

  lemma SampleFirstMove(ext: UndefinedOpcodes, tokens: seq<Token>, o: nat)
    requires IsSampleAt(tokens, o)
    ensures Instruction(ext, [], tokens, o) == Success(Emit([0x00, 0x00, 0x05, 0x00], o + 3))
  {
    assert Registers.Names[0] == "R0" && NatToDecimal(5) == "5";
    MovImmediate(ext, [], tokens, o, 0, 5);
    SmallValueBytes(5);
  }

  lemma SampleSecondMove(ext: UndefinedOpcodes, tokens: seq<Token>, o: nat)
    requires IsSampleAt(tokens, o)
    ensures Instruction(ext, [], tokens, o + 4) == Success(Emit([0x00, 0x01, 0x0A, 0x00], o + 7))
  {
    assert Registers.Names[1] == "R1" && NatToDecimal(10) == "10";
    MovImmediate(ext, [], tokens, o + 4, 1, 10);
    SmallValueBytes(10);
  }

  lemma SampleAddAndHalt(ext: UndefinedOpcodes, tokens: seq<Token>, o: nat)
    requires IsSampleAt(tokens, o)
    ensures Instruction(ext, [], tokens, o + 8) == Success(Emit([0x06, 0x00, 0x00, 0x01], o + 13))
    ensures Instruction(ext, [], tokens, o + 14) == Success(Emit([0xFF], o + 14))
  {
    assert Registers.Names[0] == "R0" && Registers.Names[1] == "R1";
    ArithRegisters(ext, [], 0, tokens, o + 8, 0, 0, 1);
    HaltEmitsFF(ext, [], tokens, o + 14);
  }

  /** The first move appends its encoding to the empty program. */
  lemma SampleRunFirst(ext: UndefinedOpcodes, tokens: seq<Token>, o: nat)
    requires IsSampleAt(tokens, o)
    ensures Pass(ext, tokens, o, Start) == Pass(ext, tokens, o + 4, PassState(0, [], [0x00, 0x00, 0x05, 0x00]))
  {
    SampleFirstMove(ext, tokens, o);
    InstructionPass(ext, tokens, o, Start, Emit([0x00, 0x00, 0x05, 0x00], o + 3));
    assert Start.(program := Start.program + [0x00, 0x00, 0x05, 0x00]) == PassState(0, [], [0x00, 0x00, 0x05, 0x00]);
  }

  /** The second move appends its encoding after the first. */
  lemma SampleRunSecond(ext: UndefinedOpcodes, tokens: seq<Token>, o: nat)
    requires IsSampleAt(tokens, o)
    ensures Pass(ext, tokens, o + 4, PassState(0, [], [0x00, 0x00, 0x05, 0x00]))
      == Pass(ext, tokens, o + 8, PassState(0, [], [0x00, 0x00, 0x05, 0x00] + [0x00, 0x01, 0x0A, 0x00]))
  {
    var st := PassState(0, [], [0x00, 0x00, 0x05, 0x00]);
    SampleSecondMove(ext, tokens, o);
    InstructionPass(ext, tokens, o + 4, st, Emit([0x00, 0x01, 0x0A, 0x00], o + 7));
  }

  /** The addition and the halt append theirs, and the pass ends after the last token. */
  lemma SampleRunRest(ext: UndefinedOpcodes, tokens: seq<Token>, o: nat)
    requires IsSampleAt(tokens, o)
    ensures Pass(ext, tokens, o + 8, PassState(0, [], [0x00, 0x00, 0x05, 0x00] + [0x00, 0x01, 0x0A, 0x00]))
      == Success(PassState(0, [], [0x00, 0x00, 0x05, 0x00] + [0x00, 0x01, 0x0A, 0x00] + [0x06, 0x00, 0x00, 0x01] + [0xFF]))
  {
    var p2: seq<byte> := [0x00, 0x00, 0x05, 0x00] + [0x00, 0x01, 0x0A, 0x00];
    var p3: seq<byte> := p2 + [0x06, 0x00, 0x00, 0x01];
    SampleAddAndHalt(ext, tokens, o);
    InstructionPass(ext, tokens, o + 8, PassState(0, [], p2), Emit([0x06, 0x00, 0x00, 0x01], o + 13));
    InstructionPass(ext, tokens, o + 14, PassState(0, [], p3), Emit([0xFF], o + 14));
  }

  /** From `o` on, with nothing defined yet, the pass outputs the four encodings one after the other. */
  lemma SampleShape(ext: UndefinedOpcodes, tokens: seq<Token>, o: nat)
    requires IsSampleAt(tokens, o)
    ensures Pass(ext, tokens, o, Start)
      == Success(PassState(0, [], [0x00, 0x00, 0x05, 0x00] + [0x00, 0x01, 0x0A, 0x00] + [0x06, 0x00, 0x00, 0x01] + [0xFF]))
  {
    SampleRunFirst(ext, tokens, o);
    SampleRunSecond(ext, tokens, o);
    SampleRunRest(ext, tokens, o);
  }


  /** The sample program's source lines. */
  function SampleLines(): seq<string> {
    ["MOV R0, #5", "MOV R1, #10", "ADD R0, R0, R1", "HLT"]
  }

  /** The sample's lines, added one at a time. */
  lemma SampleLinesOneByOne(head: seq<string>)
    ensures head + ["MOV R0, #5"] + ["MOV R1, #10"] + ["ADD R0, R0, R1"] + ["HLT"] == head + SampleLines()
  {
  }

  /** The sample's tokens, line by line. */
  lemma SampleTokensByLine(prior: seq<Token>)
    ensures prior + [Token(Opcode, "MOV"), Token(Reg, "R0"), Token(Comma, ","), Token(Immediate, "5")]
      + [Token(Opcode, "MOV"), Token(Reg, "R1"), Token(Comma, ","), Token(Immediate, "10")]
      + [Token(Opcode, "ADD"), Token(Reg, "R0"), Token(Comma, ","), Token(Reg, "R0"), Token(Comma, ","), Token(Reg, "R1")]
      + [Token(Opcode, "HLT")]
      == prior + SampleTokens()
  {
  }

  /** After any lines, the sample's lines lex as `SampleTokens()`. */
  lemma LexSampleAfter(head: seq<string>)
    ensures Lex(head + SampleLines()) == Lex(head) + SampleTokens()
  {
    var h1 := head + ["MOV R0, #5"];
    var h2 := h1 + ["MOV R1, #10"];
    var h3 := h2 + ["ADD R0, R0, R1"];
    LexSnoc(head, "MOV R0, #5");
    LexSnoc(h1, "MOV R1, #10");
    LexSnoc(h2, "ADD R0, R0, R1");
    LexSnoc(h3, "HLT");
    LineMovR0(Lex(head));
    LineMovR1(Lex(h1));
    LineAdd(Lex(h2));
    LineHalt(Lex(h3));
    SampleLinesOneByOne(head);
    SampleTokensByLine(Lex(head));
  }

  /** The sample's lines alone lex as `SampleTokens()`. */
  lemma LexSample()
    ensures Lex(SampleLines()) == SampleTokens()
  {
    LexSampleAfter([]);
    assert [] + SampleLines() == SampleLines();
    assert [] + SampleTokens() == SampleTokens();
  }

  /** The sample's tokens assemble to the four encodings one after the other. */
  lemma SampleAssembles(ext: UndefinedOpcodes)
    ensures AssembledOutput(ext, SampleTokens())
      == Success([0x00, 0x00, 0x05, 0x00] + [0x00, 0x01, 0x0A, 0x00] + [0x06, 0x00, 0x00, 0x01] + [0xFF])
  {
    SampleAfter([]);
    assert [] + SampleTokens() == SampleTokens();
    SampleShape(ext, SampleTokens(), 0);
  }

  /** `MOV R0, #5; MOV R1, #10; ADD R0, R0, R1; HLT`, lexed and assembled, is 00 00 05 00 00 01 0A 00 06 00 00 01 FF. */
  lemma SampleProgram(ext: UndefinedOpcodes)
    ensures Lex(SampleLines()) == SampleTokens()
    ensures AssembledOutput(ext, Lex(SampleLines()))
      == Success([0x00, 0x00, 0x05, 0x00] + [0x00, 0x01, 0x0A, 0x00] + [0x06, 0x00, 0x00, 0x01] + [0xFF])
  {
    LexSample();
    SampleAssembles(ext);
  }

  /** The literal `0x0000` is read as 0. */
  lemma HexTextZero()
    ensures StringToU16("0x0000") == Success(0)
  {
    assert "0000"[..3] == "000" && "000"[..2] == "00" && "00"[..1] == "0" && "0"[..0] == "";
    assert HexValue("0000") == 0;
    StoulOfPrefixedHex("0000");
    assert "0x" + "0000" == "0x0000";
  }

  /** `ORG 0x0000` sets the origin to the value it starts with, so the sample's output follows unchanged. */
  lemma OrgZeroSampleShape(ext: UndefinedOpcodes)
    ensures AssembledOutput(ext, [Token(Org, "ORG"), Token(Hex, "0x0000")] + SampleTokens())
      == Success([0x00, 0x00, 0x05, 0x00] + [0x00, 0x01, 0x0A, 0x00] + [0x06, 0x00, 0x00, 0x01] + [0xFF])
  {
    var tokens := [Token(Org, "ORG"), Token(Hex, "0x0000")] + SampleTokens();
    HexTextZero();
    OrgPass(ext, tokens, 0, Start, 0);
    assert Start.(origin := 0) == Start;
    SampleAfter([Token(Org, "ORG"), Token(Hex, "0x0000")]);
    SampleShape(ext, tokens, 2);
  }

  /** The same program after an `ORG 0x0000` line, lexed and assembled, gives the same bytes. */
  lemma OrgZeroSampleProgram(ext: UndefinedOpcodes)
    ensures Lex(["ORG 0x0000"] + SampleLines()) == [Token(Org, "ORG"), Token(Hex, "0x0000")] + SampleTokens()
    ensures AssembledOutput(ext, Lex(["ORG 0x0000"] + SampleLines()))
      == Success([0x00, 0x00, 0x05, 0x00] + [0x00, 0x01, 0x0A, 0x00] + [0x06, 0x00, 0x00, 0x01] + [0xFF])
  {
    LexSampleAfter(["ORG 0x0000"]);
    LexSnoc([], "ORG 0x0000");
    LineOrgZero([]);
    assert [] + ["ORG 0x0000"] == ["ORG 0x0000"];
    OrgZeroSampleShape(ext);
  }

  // ------------------------------------------------------------- labels

  /** The tokens the lexer gives for `ORG 0x1000`, `L:`, `JZ L` (`LexOrgJump`). */
  function OrgJumpTokens(): seq<Token> {
    [Token(Org, "ORG"), Token(Hex, "0x1000"), Token(Label, "L"), Token(Opcode, "JZ"), Token(Label, "L")]
  }

  /** `OrgJumpTokens()`, stated token by token. */
  predicate IsOrgJump(tokens: seq<Token>) {
    && |tokens| == 5
    && tokens[0].kind == Org && tokens[1] == Token(Hex, "0x1000") && tokens[2] == Token(Label, "L")
    && tokens[3] == Token(Opcode, "JZ") && tokens[4] == Token(Label, "L")
  }

  /** A jump to a label defined at 0x1000 is JZ and that address, low byte first. */
  lemma OrgJumpInstruction(ext: UndefinedOpcodes, tokens: seq<Token>)
    requires IsOrgJump(tokens)
    ensures Instruction(ext, [LabelEntry("L", 0x1000)], tokens, 3) == Success(Emit([0x37, 0x00, 0x10], 4))
  {
    assert Decode(ext, "JZ") == JumpInstr(JZ);
    GotoFirstEntry([LabelEntry("L", 0x1000)], tokens, 3, JZ);
    assert [JZ] + LittleEndian(0x1000) == [0x37, 0x00, 0x10];
  }

  /** The hex text of 0x1000 is the literal the lexer hands on. */
  lemma HexText1000()
    ensures "0x" + NatToHex(0x1000) == "0x1000"
  {
    assert NatToHex(0x1000) == "1000";
  }

  /** ORG sets the origin... */
  lemma OrgJumpOrigin(ext: UndefinedOpcodes, tokens: seq<Token>)
    requires IsOrgJump(tokens)
    ensures Pass(ext, tokens, 0, Start) == Pass(ext, tokens, 2, PassState(0x1000, [], []))
  {
    HexText1000();
    NumberOfHexText(0x1000);
    OrgPass(ext, tokens, 0, Start, 0x1000);
  }

  /** ...which is the address the label gets. */
  lemma OrgJumpLabel(ext: UndefinedOpcodes, tokens: seq<Token>)
    requires IsOrgJump(tokens)
    ensures Pass(ext, tokens, 2, PassState(0x1000, [], []))
      == Pass(ext, tokens, 3, PassState(0x1000, [LabelEntry("L", 0x1000)], []))
  {
    var s1 := PassState(0x1000, [], []);
    LabelPass(ext, tokens, 2, s1);
    assert s1.(labels := s1.labels + [LabelEntry("L", ToU16(s1.origin + |s1.program|))])
      == PassState(0x1000, [LabelEntry("L", 0x1000)], []);
  }

  /** The jump then encodes that address. */
  lemma OrgJumpEnd(ext: UndefinedOpcodes, tokens: seq<Token>)
    requires IsOrgJump(tokens)
    ensures Pass(ext, tokens, 3, PassState(0x1000, [LabelEntry("L", 0x1000)], []))
      == Success(PassState(0x1000, [LabelEntry("L", 0x1000)], [0x37, 0x00, 0x10]))
  {
    var s2 := PassState(0x1000, [LabelEntry("L", 0x1000)], []);
    OrgJumpInstruction(ext, tokens);
    InstructionPass(ext, tokens, 3, s2, Emit([0x37, 0x00, 0x10], 4));
    assert s2.(program := s2.program + [0x37, 0x00, 0x10]) == PassState(0x1000, [LabelEntry("L", 0x1000)], [0x37, 0x00, 0x10]);
  }

  lemma OrgJumpShape(ext: UndefinedOpcodes, tokens: seq<Token>)
    requires IsOrgJump(tokens)
    ensures AssembledOutput(ext, tokens) == Success([0x37, 0x00, 0x10])
  {
    OrgJumpOrigin(ext, tokens);
    OrgJumpLabel(ext, tokens);
    OrgJumpEnd(ext, tokens);
  }

  /** The ORG and jump program's source lines. */
  function OrgJumpLines(): seq<string> {
    ["ORG 0x1000", "L:", "JZ L"]
  }

  /** The lexer reads `L` in `JZ L` as a label token, since `L:` came before. */
  lemma LexOrgJump()
    ensures Lex(OrgJumpLines()) == OrgJumpTokens()
  {
    var h1 := ["ORG 0x1000"];
    var h2 := h1 + ["L:"];
    LexSnoc([], "ORG 0x1000");
    LexSnoc(h1, "L:");
    LexSnoc(h2, "JZ L");
    assert [] + h1 == h1 && h2 + ["JZ L"] == OrgJumpLines();
    LineOrgHigh([]);
    LineLabelL(Lex(h1));
    assert Lex(h2)[2] == Token(Label, "L");
    LineJumpL(Lex(h2));
  }

  /** `ORG 0x1000; L:; JZ L`, lexed and assembled, is 37 00 10. */
  lemma OrgJumpProgram(ext: UndefinedOpcodes)
    ensures Lex(OrgJumpLines()) == OrgJumpTokens()
    ensures AssembledOutput(ext, Lex(OrgJumpLines())) == Success([0x37, 0x00, 0x10])
  {
    LexOrgJump();
    OrgJumpShape(ext, OrgJumpTokens());
  }

  /** A jump whose operand is an unknown token stops the run, since no label is defined yet. */
  lemma ForwardJumpShape(ext: UndefinedOpcodes)
    ensures AssembledOutput(ext, [Token(Opcode, "JZ"), Token(Unknown, "L"), Token(Label, "L")]) == Failure(InvalidLabel)
  {
    var tokens := [Token(Opcode, "JZ"), Token(Unknown, "L"), Token(Label, "L")];
    assert Decode(ext, "JZ") == JumpInstr(JZ);
    GotoFirstEntry([], tokens, 0, JZ);
    assert Step(ext, tokens, 0, Start) == Failure(InvalidLabel);
  }

  /**
   * `JZ L` before `L:` stops the run: the lexer has not seen the label yet,
   * so its operand is an unknown token, and the label table is still empty.
   */
  lemma ForwardJumpFails(ext: UndefinedOpcodes)
    ensures Lex(["JZ L", "L:"]) == [Token(Opcode, "JZ"), Token(Unknown, "L"), Token(Label, "L")]
    ensures AssembledOutput(ext, Lex(["JZ L", "L:"])) == Failure(InvalidLabel)
  {
    var h1 := ["JZ L"];
    LexSnoc([], "JZ L");
    LexSnoc(h1, "L:");
    assert [] + h1 == h1 && h1 + ["L:"] == ["JZ L", "L:"];
    LineJumpL([]);
    LineLabelL(Lex(h1));
    ForwardJumpShape(ext);
  }

  /**
   * Every label token defines a label, even one already defined or named
   * like an instruction: two `AND` label tokens give two entries at 0.
   */
  lemma LabelDefinedTwice(ext: UndefinedOpcodes)
    ensures Assemble(ext, [Token(Label, "AND"), Token(Label, "AND")])
      == Success(PassState(0, [LabelEntry("AND", 0), LabelEntry("AND", 0)], []))
  {
    var tokens := [Token(Label, "AND"), Token(Label, "AND")];
    LabelPass(ext, tokens, 0, Start);
    var s1 := Start.(labels := [LabelEntry("AND", 0)]);
    assert Start.(labels := Start.labels + [LabelEntry("AND", ToU16(0))]) == s1;
    LabelPass(ext, tokens, 1, s1);
    assert s1.(labels := s1.labels + [LabelEntry("AND", ToU16(0))]) == PassState(0, [LabelEntry("AND", 0), LabelEntry("AND", 0)], []);
  }

  // ------------------------------------------------------------ lexing

  /** Tokens appended one at a time are appended together. */
  lemma AppendTwo(prior: seq<Token>, a: Token, b: Token)
    ensures prior + [a] + [b] == prior + [a, b]
  {
  }

  lemma AppendFour(prior: seq<Token>, a: Token, b: Token, c: Token, d: Token)
    ensures prior + [a] + [b] + [c] + [d] == prior + [a, b, c, d]
  {
  }

  lemma AppendSix(prior: seq<Token>, a: Token, b: Token, c: Token, d: Token, e: Token, f: Token)
    ensures prior + [a] + [b] + [c] + [d] + [e] + [f] == prior + [a, b, c, d, e, f]
  {
  }

  /** The turns of the scan of `ORG 0x0000` that yield tokens, after any tokens. */
  lemma StepsOrgZeroA(acc: seq<Token>)
    ensures Scan("ORG 0x0000", 0, acc) == Scan("ORG 0x0000", 3, acc + [Token(Org, "ORG")])
  {
    var s := "ORG 0x0000";
    assert s[0..3] == "ORG" && ClassifyWord("ORG", acc) == Org;
    ScanWord(s, 0, 3, acc);
    ScanAppends(s, 0, acc, Token(Org, "ORG"), 3);
  }

  lemma StepsOrgZeroB(acc: seq<Token>)
    ensures Scan("ORG 0x0000", 4, acc) == Scan("ORG 0x0000", 10, acc + [Token(Hex, "0x0000")])
  {
    var s := "ORG 0x0000";
    assert s[4..10] == "0x0000";
    ScanHex(s, 4, 10, acc);
    ScanAppends(s, 4, acc, Token(Hex, "0x0000"), 10);
  }

  /** The scan of `ORG 0x0000` from its start appends the directive and a hex literal. */
  lemma ScannedOrgZero(prior: seq<Token>)
    ensures Scan("ORG 0x0000", 0, prior) == prior + [Token(Org, "ORG"), Token(Hex, "0x0000")]
  {
    var s := "ORG 0x0000";
    StepsOrgZeroA(prior);
    var a1 := prior + [Token(Org, "ORG")];
    ScanOverSpace(s, 3, a1);
    StepsOrgZeroB(a1);
    AppendTwo(prior, Token(Org, "ORG"), Token(Hex, "0x0000"));
  }

  /** `ORG 0x0000` lexes as the directive and a hex literal. */
  lemma LineOrgZero(prior: seq<Token>)
    ensures LineTokens("ORG 0x0000", prior)
      == prior + [Token(Org, "ORG"), Token(Hex, "0x0000")]
  {
    var s := "ORG 0x0000";
    assert Trimmed(s) == s && !IsLabelLine(s) by {
      TrimmedPlain(s);
    }
    ScannedOrgZero(prior);
  }

  /** The turns of the scan of `ORG 0x1000` that yield tokens, after any tokens. */
  lemma StepsOrgHighA(acc: seq<Token>)
    ensures Scan("ORG 0x1000", 0, acc) == Scan("ORG 0x1000", 3, acc + [Token(Org, "ORG")])
  {
    var s := "ORG 0x1000";
    assert s[0..3] == "ORG" && ClassifyWord("ORG", acc) == Org;
    ScanWord(s, 0, 3, acc);
    ScanAppends(s, 0, acc, Token(Org, "ORG"), 3);
  }

  lemma StepsOrgHighB(acc: seq<Token>)
    ensures Scan("ORG 0x1000", 4, acc) == Scan("ORG 0x1000", 10, acc + [Token(Hex, "0x1000")])
  {
    var s := "ORG 0x1000";
    assert s[4..10] == "0x1000";
    ScanHex(s, 4, 10, acc);
    ScanAppends(s, 4, acc, Token(Hex, "0x1000"), 10);
  }

  /** The scan of `ORG 0x1000` from its start appends the directive and a hex literal. */
  lemma ScannedOrgHigh(prior: seq<Token>)
    ensures Scan("ORG 0x1000", 0, prior) == prior + [Token(Org, "ORG"), Token(Hex, "0x1000")]
  {
    var s := "ORG 0x1000";
    StepsOrgHighA(prior);
    var a1 := prior + [Token(Org, "ORG")];
    ScanOverSpace(s, 3, a1);
    StepsOrgHighB(a1);
    AppendTwo(prior, Token(Org, "ORG"), Token(Hex, "0x1000"));
  }

  /** `ORG 0x1000` lexes as the directive and a hex literal. */
  lemma LineOrgHigh(prior: seq<Token>)
    ensures LineTokens("ORG 0x1000", prior)
      == prior + [Token(Org, "ORG"), Token(Hex, "0x1000")]
  {
    var s := "ORG 0x1000";
    assert Trimmed(s) == s && !IsLabelLine(s) by {
      TrimmedPlain(s);
    }
    ScannedOrgHigh(prior);
  }

  /** The turns of the scan of `MOV R0, #5` that yield tokens, after any tokens. */
  lemma StepsMovR0A(acc: seq<Token>)
    ensures Scan("MOV R0, #5", 0, acc) == Scan("MOV R0, #5", 3, acc + [Token(Opcode, "MOV")])
  {
    var s := "MOV R0, #5";
    assert s[0..3] == "MOV" && ClassifyWord("MOV", acc) == Opcode;
    ScanWord(s, 0, 3, acc);
    ScanAppends(s, 0, acc, Token(Opcode, "MOV"), 3);
  }

  lemma StepsMovR0B(acc: seq<Token>)
    ensures Scan("MOV R0, #5", 4, acc) == Scan("MOV R0, #5", 6, acc + [Token(Reg, "R0")])
  {
    var s := "MOV R0, #5";
    assert s[4..6] == "R0" && ClassifyWord("R0", acc) == Reg;
    ScanWord(s, 4, 6, acc);
    ScanAppends(s, 4, acc, Token(Reg, "R0"), 6);
  }

  lemma StepsMovR0C(acc: seq<Token>)
    ensures Scan("MOV R0, #5", 6, acc) == Scan("MOV R0, #5", 7, acc + [Token(Comma, ",")])
  {
    var s := "MOV R0, #5";
    ScanPunctuation(s, 6, acc);
    ScanAppends(s, 6, acc, Token(Comma, ","), 7);
  }

  lemma StepsMovR0D(acc: seq<Token>)
    ensures Scan("MOV R0, #5", 8, acc) == Scan("MOV R0, #5", 10, acc + [Token(Immediate, "5")])
  {
    var s := "MOV R0, #5";
    assert s[9..10] == "5";
    ScanImmediate(s, 8, 10, acc);
    ScanAppends(s, 8, acc, Token(Immediate, "5"), 10);
  }

  /** The scan of `MOV R0, #5` from its start appends a mnemonic, a register, a comma and an immediate. */
  lemma ScannedMovR0(prior: seq<Token>)
    ensures Scan("MOV R0, #5", 0, prior) == prior + [Token(Opcode, "MOV"), Token(Reg, "R0"), Token(Comma, ","), Token(Immediate, "5")]
  {
    var s := "MOV R0, #5";
    StepsMovR0A(prior);
    var a1 := prior + [Token(Opcode, "MOV")];
    ScanOverSpace(s, 3, a1);
    StepsMovR0B(a1);
    var a2 := a1 + [Token(Reg, "R0")];
    StepsMovR0C(a2);
    var a3 := a2 + [Token(Comma, ",")];
    ScanOverSpace(s, 7, a3);
    StepsMovR0D(a3);
    AppendFour(prior, Token(Opcode, "MOV"), Token(Reg, "R0"), Token(Comma, ","), Token(Immediate, "5"));
  }

  /** `MOV R0, #5` lexes as a mnemonic, a register, a comma and an immediate. */
  lemma LineMovR0(prior: seq<Token>)
    ensures LineTokens("MOV R0, #5", prior)
      == prior + [Token(Opcode, "MOV"), Token(Reg, "R0"), Token(Comma, ","), Token(Immediate, "5")]
  {
    var s := "MOV R0, #5";
    assert Trimmed(s) == s && !IsLabelLine(s) by {
      TrimmedPlain(s);
    }
    ScannedMovR0(prior);
  }

  /** The turns of the scan of `MOV R1, #10` that yield tokens, after any tokens. */
  lemma StepsMovR1A(acc: seq<Token>)
    ensures Scan("MOV R1, #10", 0, acc) == Scan("MOV R1, #10", 3, acc + [Token(Opcode, "MOV")])
  {
    var s := "MOV R1, #10";
    assert s[0..3] == "MOV" && ClassifyWord("MOV", acc) == Opcode;
    ScanWord(s, 0, 3, acc);
    ScanAppends(s, 0, acc, Token(Opcode, "MOV"), 3);
  }

  lemma StepsMovR1B(acc: seq<Token>)
    ensures Scan("MOV R1, #10", 4, acc) == Scan("MOV R1, #10", 6, acc + [Token(Reg, "R1")])
  {
    var s := "MOV R1, #10";
    assert s[4..6] == "R1" && ClassifyWord("R1", acc) == Reg;
    ScanWord(s, 4, 6, acc);
    ScanAppends(s, 4, acc, Token(Reg, "R1"), 6);
  }

  lemma StepsMovR1C(acc: seq<Token>)
    ensures Scan("MOV R1, #10", 6, acc) == Scan("MOV R1, #10", 7, acc + [Token(Comma, ",")])
  {
    var s := "MOV R1, #10";
    ScanPunctuation(s, 6, acc);
    ScanAppends(s, 6, acc, Token(Comma, ","), 7);
  }

  lemma StepsMovR1D(acc: seq<Token>)
    ensures Scan("MOV R1, #10", 8, acc) == Scan("MOV R1, #10", 11, acc + [Token(Immediate, "10")])
  {
    var s := "MOV R1, #10";
    assert s[9..11] == "10";
    ScanImmediate(s, 8, 11, acc);
    ScanAppends(s, 8, acc, Token(Immediate, "10"), 11);
  }

  /** The scan of `MOV R1, #10` from its start appends a mnemonic, a register, a comma and an immediate. */
  lemma ScannedMovR1(prior: seq<Token>)
    ensures Scan("MOV R1, #10", 0, prior) == prior + [Token(Opcode, "MOV"), Token(Reg, "R1"), Token(Comma, ","), Token(Immediate, "10")]
  {
    var s := "MOV R1, #10";
    StepsMovR1A(prior);
    var a1 := prior + [Token(Opcode, "MOV")];
    ScanOverSpace(s, 3, a1);
    StepsMovR1B(a1);
    var a2 := a1 + [Token(Reg, "R1")];
    StepsMovR1C(a2);
    var a3 := a2 + [Token(Comma, ",")];
    ScanOverSpace(s, 7, a3);
    StepsMovR1D(a3);
    AppendFour(prior, Token(Opcode, "MOV"), Token(Reg, "R1"), Token(Comma, ","), Token(Immediate, "10"));
  }

  /** `MOV R1, #10` lexes as a mnemonic, a register, a comma and an immediate. */
  lemma LineMovR1(prior: seq<Token>)
    ensures LineTokens("MOV R1, #10", prior)
      == prior + [Token(Opcode, "MOV"), Token(Reg, "R1"), Token(Comma, ","), Token(Immediate, "10")]
  {
    var s := "MOV R1, #10";
    assert Trimmed(s) == s && !IsLabelLine(s) by {
      TrimmedPlain(s);
    }
    ScannedMovR1(prior);
  }

  /** The turns of the scan of `ADD R0, R0, R1` that yield tokens, after any tokens. */
  lemma StepsAddA(acc: seq<Token>)
    ensures Scan("ADD R0, R0, R1", 0, acc) == Scan("ADD R0, R0, R1", 3, acc + [Token(Opcode, "ADD")])
  {
    var s := "ADD R0, R0, R1";
    assert s[0..3] == "ADD" && ClassifyWord("ADD", acc) == Opcode;
    ScanWord(s, 0, 3, acc);
    ScanAppends(s, 0, acc, Token(Opcode, "ADD"), 3);
  }

  lemma StepsAddB(acc: seq<Token>)
    ensures Scan("ADD R0, R0, R1", 4, acc) == Scan("ADD R0, R0, R1", 6, acc + [Token(Reg, "R0")])
  {
    var s := "ADD R0, R0, R1";
    assert s[4..6] == "R0" && ClassifyWord("R0", acc) == Reg;
    ScanWord(s, 4, 6, acc);
    ScanAppends(s, 4, acc, Token(Reg, "R0"), 6);
  }

  lemma StepsAddC(acc: seq<Token>)
    ensures Scan("ADD R0, R0, R1", 6, acc) == Scan("ADD R0, R0, R1", 7, acc + [Token(Comma, ",")])
  {
    var s := "ADD R0, R0, R1";
    ScanPunctuation(s, 6, acc);
    ScanAppends(s, 6, acc, Token(Comma, ","), 7);
  }

  lemma StepsAddD(acc: seq<Token>)
    ensures Scan("ADD R0, R0, R1", 8, acc) == Scan("ADD R0, R0, R1", 10, acc + [Token(Reg, "R0")])
  {
    var s := "ADD R0, R0, R1";
    assert s[8..10] == "R0" && ClassifyWord("R0", acc) == Reg;
    ScanWord(s, 8, 10, acc);
    ScanAppends(s, 8, acc, Token(Reg, "R0"), 10);
  }

  lemma StepsAddE(acc: seq<Token>)
    ensures Scan("ADD R0, R0, R1", 10, acc) == Scan("ADD R0, R0, R1", 11, acc + [Token(Comma, ",")])
  {
    var s := "ADD R0, R0, R1";
    ScanPunctuation(s, 10, acc);
    ScanAppends(s, 10, acc, Token(Comma, ","), 11);
  }

  lemma StepsAddF(acc: seq<Token>)
    ensures Scan("ADD R0, R0, R1", 12, acc) == Scan("ADD R0, R0, R1", 14, acc + [Token(Reg, "R1")])
  {
    var s := "ADD R0, R0, R1";
    assert s[12..14] == "R1" && ClassifyWord("R1", acc) == Reg;
    ScanWord(s, 12, 14, acc);
    ScanAppends(s, 12, acc, Token(Reg, "R1"), 14);
  }

  /** The scan of `ADD R0, R0, R1` from its start appends a mnemonic and three registers separated by commas. */
  lemma ScannedAdd(prior: seq<Token>)
    ensures Scan("ADD R0, R0, R1", 0, prior) == prior + [Token(Opcode, "ADD"), Token(Reg, "R0"), Token(Comma, ","), Token(Reg, "R0"), Token(Comma, ","), Token(Reg, "R1")]
  {
    var s := "ADD R0, R0, R1";
    StepsAddA(prior);
    var a1 := prior + [Token(Opcode, "ADD")];
    ScanOverSpace(s, 3, a1);
    StepsAddB(a1);
    var a2 := a1 + [Token(Reg, "R0")];
    StepsAddC(a2);
    var a3 := a2 + [Token(Comma, ",")];
    ScanOverSpace(s, 7, a3);
    StepsAddD(a3);
    var a4 := a3 + [Token(Reg, "R0")];
    StepsAddE(a4);
    var a5 := a4 + [Token(Comma, ",")];
    ScanOverSpace(s, 11, a5);
    StepsAddF(a5);
    AppendSix(prior, Token(Opcode, "ADD"), Token(Reg, "R0"), Token(Comma, ","), Token(Reg, "R0"), Token(Comma, ","), Token(Reg, "R1"));
  }

  /** `ADD R0, R0, R1` lexes as a mnemonic and three registers separated by commas. */
  lemma LineAdd(prior: seq<Token>)
    ensures LineTokens("ADD R0, R0, R1", prior)
      == prior + [Token(Opcode, "ADD"), Token(Reg, "R0"), Token(Comma, ","), Token(Reg, "R0"), Token(Comma, ","), Token(Reg, "R1")]
  {
    var s := "ADD R0, R0, R1";
    assert Trimmed(s) == s && !IsLabelLine(s) by {
      TrimmedPlain(s);
    }
    ScannedAdd(prior);
  }

  /** The turns of the scan of `HLT` that yield tokens, after any tokens. */
  lemma StepsHalt(acc: seq<Token>)
    ensures Scan("HLT", 0, acc) == Scan("HLT", 3, acc + [Token(Opcode, "HLT")])
  {
    var s := "HLT";
    assert s[0..3] == "HLT" && ClassifyWord("HLT", acc) == Opcode;
    ScanWord(s, 0, 3, acc);
    ScanAppends(s, 0, acc, Token(Opcode, "HLT"), 3);
  }

  /** The scan of `HLT` from its start appends a mnemonic alone. */
  lemma ScannedHalt(prior: seq<Token>)
    ensures Scan("HLT", 0, prior) == prior + [Token(Opcode, "HLT")]
  {
    var s := "HLT";
    StepsHalt(prior);
  }

  /** `HLT` lexes as a mnemonic alone. */
  lemma LineHalt(prior: seq<Token>)
    ensures LineTokens("HLT", prior)
      == prior + [Token(Opcode, "HLT")]
  {
    var s := "HLT";
    assert Trimmed(s) == s && !IsLabelLine(s) by {
      TrimmedPlain(s);
    }
    ScannedHalt(prior);
  }

  /** The turns of the scan of `JZ L`, after any tokens. */
  lemma TurnsJumpLA(acc: seq<Token>)
    ensures ScanToken("JZ L", 0, acc) == Lexeme(Some(Token(Opcode, "JZ")), 2)
    ensures ScanToken("JZ L", 2, acc) == Lexeme(None, 3)
  {
    assert "JZ L"[0..2] == "JZ" && ClassifyWord("JZ", acc) == Opcode;
    ScanWord("JZ L", 0, 2, acc);
    ScanSpace("JZ L", 2, acc);
  }

  lemma TurnsJumpLB(acc: seq<Token>)
    ensures ScanToken("JZ L", 3, acc) == Lexeme(Some(Token((if Token(Label, "L") in acc then Label else Unknown), "L")), 4)
  {
    assert "JZ L"[3..4] == "L" && ClassifyWord("L", acc) == (if Token(Label, "L") in acc then Label else Unknown);
    ScanWord("JZ L", 3, 4, acc);
  }

  /** `JZ L` lexes as a mnemonic and a name, which is a label token only when `L` was defined before. */
  lemma LineJumpL(prior: seq<Token>)
    ensures LineTokens("JZ L", prior)
      == prior + [Token(Opcode, "JZ"), Token(if Token(Label, "L") in prior then Label else Unknown, "L")]
  {
    var s := "JZ L";
    TrimmedPlain(s);
    assert Trimmed(s) == s && !IsLabelLine(s);
    var a1 := prior + [Token(Opcode, "JZ")];
    var l := Token(if Token(Label, "L") in prior then Label else Unknown, "L");
    assert Token(Label, "L") in a1 <==> Token(Label, "L") in prior;
    TurnsJumpLA(prior);
    TurnsJumpLA(a1);
    TurnsJumpLB(a1);
    ScanAppends(s, 0, prior, Token(Opcode, "JZ"), 2);
    ScanSkips(s, 2, a1, 3);
    ScanAppends(s, 3, a1, l, 4);
    assert a1 + [l] == prior + [Token(Opcode, "JZ"), l];
  }

  /** `L:` defines the label `L`. */
  lemma LineLabelL(prior: seq<Token>)
    ensures LineTokens("L:", prior) == prior + [Token(Label, "L")]
  {
    var s := "L:";
    TrimmedPlain(s);
    assert Trimmed(s) == s && IsLabelLine(s) && s[..1] == "L";
  }
}
