/**
 * The helpers of the assembler pass (src/Assemble.cpp): register names and
 * number literals to bytes, the cursor helpers that step through the token
 * sequence, and the encoder of each instruction family.  An encoder starts
 * with the cursor on the mnemonic token and yields the bytes it appends and
 * the position of the last token it consumed.
 */
module Encoding {
  import opened Outcomes
  import opened Chars
  import opened Numbers
  import opened Tokens
  import opened Opcodes
  import Registers
  import Lexer

  /** What one instruction appends to the program, and where the cursor stops. */
  datatype Emit = Emit(bytes: seq<byte>, pos: nat)

  /** A label definition: its name and the address it stands for. */
  datatype LabelEntry = LabelEntry(name: string, addr: u16)

  // ------------------------------------------------------- conversions

  /**
   * `StringToRegister`: the index of the register with that name; any other
   * text is fatal.
   */
  function StringToRegister(name: string): (r: Result<byte>)
    ensures r.Success? <==> name in Registers.Names
    ensures r.Success? ==> r.value < 12 && Registers.Names[r.value] == name
    ensures r.Failure? ==> r.error == InvalidRegister(name)
  {
    if name == "R0" then Success(Registers.R0)
    else if name == "R1" then Success(Registers.R1)
    else if name == "R2" then Success(Registers.R2)
    else if name == "R3" then Success(Registers.R3)
    else if name == "R4" then Success(Registers.R4)
    else if name == "R5" then Success(Registers.R5)
    else if name == "R6" then Success(Registers.R6)
    else if name == "R7" then Success(Registers.R7)
    else if name == "R8" then Success(Registers.R8)
    else if name == "R9" then Success(Registers.R9)
    else if name == "R10" then Success(Registers.R10)
    else if name == "R11" then Success(Registers.R11)
    else Failure(InvalidRegister(name))
  }

  /** `StringToU16`: base-16 `stoul`, truncated to 16 bits. */
  function StringToU16(text: string): (r: Result<u16>)
    ensures r.Success? <==> Stoul16(text).Success?
    ensures r.Success? ==> r.value == Stoul16(text).value % 0x1_0000
  {
    var n :- Stoul16(text);
    Success(ToU16(n))
  }

  /** A 16-bit value as two bytes, low byte first. */
  function LittleEndian(v: u16): (b: seq<byte>)
    ensures |b| == 2 && b[0] as int + 0x100 * b[1] as int == v as int
  {
    [v % 0x100, v / 0x100]
  }

  predicate IsNumber(t: Token) {
    t.kind == Immediate || t.kind == Hex
  }

  /**
   * `PushNumberU16`: the two bytes of a number token, low byte first; a
   * decimal immediate goes through `strtol`, a hex literal through `stoul`,
   * both truncated to 16 bits.  Any other token is fatal.
   */
  function NumberBytes(t: Token): (r: Result<seq<byte>>)
    ensures r.Success? ==> |r.value| == 2
    ensures r.Failure? <==> !IsNumber(t) || (t.kind == Hex && Stoul16(t.value).Failure?)
    ensures !IsNumber(t) ==> r == Failure(InvalidValue)
  {
    match t.kind
    case Immediate => Success(LittleEndian(ToU16(Strtol10(t.value))))
    case Hex =>
      var n :- Stoul16(t.value);
      Success(LittleEndian(ToU16(n)))
    case _ => Failure(InvalidValue)
  }

  /** A decimal immediate written as `std::to_string` would write it is read back, modulo 2^16. */
  lemma NumberOfDecimalText(n: nat)
    requires n <= LongMax
    ensures NumberBytes(Token(Immediate, NatToDecimal(n))) == Success(LittleEndian(n % 0x1_0000))
  {
    StrtolOfToString(n);
  }

  /** A `0x`-prefixed hex literal of a 16-bit value is read back as that value. */
  lemma NumberOfHexText(v: u16)
    ensures NumberBytes(Token(Hex, "0x" + NatToHex(v))) == Success(LittleEndian(v))
    ensures StringToU16("0x" + NatToHex(v)) == Success(v)
  {
    var n: nat := v as nat;
    assert n % 0x1_0000 == n;
    StoulOfHexText(v);
  }

  /**
   * A number operand is its value modulo 2^16 as two bytes, low byte first:
   * the `strtol` value of an immediate, the `stoul` value of a hex literal.
   */
  lemma NumberBytesValue(t: Token)
    requires NumberBytes(t).Success?
    ensures var b := NumberBytes(t).value;
      b[0] as int + 0x100 * b[1] as int
        == (if t.kind == Immediate then Strtol10(t.value) else Stoul16(t.value).value) % 0x1_0000
  {
    var v: u16 := if t.kind == Immediate then ToU16(Strtol10(t.value)) else ToU16(Stoul16(t.value).value);
    assert NumberBytes(t).value == LittleEndian(v);
  }

  /** Every word the lexer classifies as a register names one that `StringToRegister` knows. */
  lemma LexedRegistersResolve(w: string, prior: seq<Token>)
    requires Lexer.ClassifyWord(w, prior) == Reg
    ensures StringToRegister(w).Success?
    ensures Registers.Names[StringToRegister(w).value] == w
  {
  }

  // ---------------------------------------------------- cursor helpers

  /** `NextToken`: moves the cursor one token on; fatal at the last token. */
  function NextToken(tokens: seq<Token>, pos: nat): (r: Result<Cursor>)
    requires pos < |tokens|
    ensures r.Success? <==> pos + 1 < |tokens|
    ensures r.Success? ==> r.value == Cursor(tokens[pos + 1], pos + 1)
    ensures r.Failure? ==> r.error == OutOfRange(TokenTypeToString(tokens[pos].kind))
  {
    if pos + 1 >= |tokens| then Failure(OutOfRange(TokenTypeToString(tokens[pos].kind)))
    else Success(Cursor(tokens[pos + 1], pos + 1))
  }

  /** `ExpectNextToken`: moves the cursor one token on and demands the token there be of kind `wanted`. */
  function ExpectNextToken(tokens: seq<Token>, pos: nat, wanted: TokenType): (r: Result<Cursor>)
    requires pos < |tokens|
    ensures r.Success? <==> pos + 1 < |tokens| && tokens[pos + 1].kind == wanted
    ensures r.Success? ==> r.value == Cursor(tokens[pos + 1], pos + 1)
    ensures pos + 1 < |tokens| && r.Failure? ==>
      r.error == Expected(TokenTypeToString(wanted), TokenTypeToString(tokens[pos + 1].kind))
  {
    var c :- NextToken(tokens, pos);
    if c.tok.kind != wanted then
      Failure(Expected(TokenTypeToString(wanted), TokenTypeToString(c.tok.kind)))
    else Success(c)
  }

  /** `NextTokenC`: steps over a comma and returns the token after it. */
  function NextTokenC(tokens: seq<Token>, pos: nat): (r: Result<Cursor>)
    requires pos < |tokens|
    ensures r.Success? <==> pos + 2 < |tokens| && tokens[pos + 1].kind == Comma
    ensures r.Success? ==> r.value == Cursor(tokens[pos + 2], pos + 2)
  {
    var comma :- ExpectNextToken(tokens, pos, Comma);
    NextToken(tokens, comma.pos)
  }

  // ------------------------------------------------ operand reference

  predicate IsOperand(t: Token) {
    t.kind == Reg || IsNumber(t)
  }

  /** The bytes of one operand: a register's index, or a number's two bytes. */
  function Operand(t: Token): Result<seq<byte>> {
    if t.kind == Reg then
      var b :- StringToRegister(t.value);
      Success([b])
    else NumberBytes(t)
  }

  /** The bytes of a list of operands in source order; the first bad one is reported. */
  function Operands(ts: seq<Token>): Result<seq<byte>> {
    if ts == [] then Success([])
    else
      var head :- Operand(ts[0]);
      var tail :- Operands(ts[1..]);
      Success(head + tail)
  }

  lemma OperandsPair(a: Token, b: Token)
    ensures Operands([a, b]) == (var x :- Operand(a); var y :- Operand(b); Success(x + y))
  {
    assert [a, b][1..] == [b];
    assert [b][1..] == [];
    var rb := Operand(b);
    if rb.Success? {
      assert rb.value + [] == rb.value;
      assert Operands([b]) == Success(rb.value);
    } else {
      assert Operands([b]) == Failure(rb.error);
    }
  }

  lemma OperandsTriple(a: Token, b: Token, c: Token)
    ensures Operands([a, b, c]) == (var x :- Operand(a); var y :- Operand(b); var z :- Operand(c); Success(x + y + z))
  {
    assert [a, b, c][1..] == [b, c];
    OperandsPair(b, c);
    var ra, rb, rc := Operand(a), Operand(b), Operand(c);
    if ra.Success? && rb.Success? && rc.Success? {
      assert ra.value + (rb.value + rc.value) == ra.value + rb.value + rc.value;
    }
  }

  /** Which of the four opcode forms two operands select. */
  function ShapeOf(a: Token, b: Token): Shape {
    if a.kind == Reg then (if b.kind == Reg then RegReg else RegNum)
    else (if b.kind == Reg then NumReg else NumNum)
  }

  /** `reg, reg, reg`-shaped operands that fit into the table are each one byte long. */
  lemma {:induction false} OperandsOfRegisters(ts: seq<Token>)
    requires forall k :: 0 <= k < |ts| ==> ts[k].kind == Reg && ts[k].value in Registers.Names
    ensures Operands(ts).Success?
    ensures |Operands(ts).value| == |ts|
    ensures forall k :: 0 <= k < |ts| ==>
      Operands(ts).value[k] < 12 && Registers.Names[Operands(ts).value[k]] == ts[k].value
    decreases |ts|
  {
    if ts != [] {
      OperandsOfRegisters(ts[1..]);
      var head := StringToRegister(ts[0].value).value;
      var tail := Operands(ts[1..]).value;
      assert Operands(ts) == Success([head] + tail);
      forall k | 0 <= k < |ts|
        ensures ([head] + tail)[k] < 12 && Registers.Names[([head] + tail)[k]] == ts[k].value
      {
        if k > 0 {
          assert ts[1..][k - 1] == ts[k];
        }
      }
    }
  }

  // ---------------------------------------------------------- encoders

  /**
   * MOV: a register destination, a comma and a register or number source;
   * a source of any other kind emits nothing.
   */
  function Mov(tokens: seq<Token>, pos: nat): (r: Result<Emit>)
    requires pos < |tokens|
    ensures r.Success? ==> pos < r.value.pos < |tokens|
    ensures r.Success? && r.value.bytes != [] ==> r.value.bytes[0] in {MOV_IM, MOV_R} && |r.value.bytes| <= 4
  {
    var dest :- NextToken(tokens, pos);
    if dest.tok.kind != Reg then Failure(InvalidDestination("MOV"))
    else
      var value :- NextTokenC(tokens, dest.pos);
      if IsNumber(value.tok) then
        var d :- StringToRegister(dest.tok.value);
        var n :- NumberBytes(value.tok);
        Success(Emit([MOV_IM, d] + n, value.pos))
      else if value.tok.kind == Reg then
        var d :- StringToRegister(dest.tok.value);
        var s :- StringToRegister(value.tok.value);
        Success(Emit([MOV_R, d, s], value.pos))
      else Success(Emit([], value.pos))
  }

  /**
   * The eleven three-operand families (ADD SUB MUL DIV ADC SBC AND OR XOR
   * SHL SHR): a register destination and two operands separated by commas;
   * the operand kinds select one of the family's four opcodes.
   */
  function Arith(f: Forms, mnemonic: string, tokens: seq<Token>, pos: nat): (r: Result<Emit>)
    requires pos < |tokens|
    ensures r.Success? ==> pos < r.value.pos < |tokens|
    ensures r.Success? && r.value.bytes != [] ==> r.value.bytes[0] in {f.r, f.i, f.ri, f.ir} && |r.value.bytes| <= 6
  {
    var dest :- NextToken(tokens, pos);
    if dest.tok.kind != Reg then Failure(InvalidDestination(mnemonic))
    else
      var v1 :- NextTokenC(tokens, dest.pos);
      if v1.tok.kind == Reg then
        var v2 :- NextTokenC(tokens, v1.pos);
        if v2.tok.kind == Reg then
          var d :- StringToRegister(dest.tok.value);
          var a :- StringToRegister(v1.tok.value);
          var b :- StringToRegister(v2.tok.value);
          Success(Emit([f.r, d, a, b], v2.pos))
        else if IsNumber(v2.tok) then
          var d :- StringToRegister(dest.tok.value);
          var a :- StringToRegister(v1.tok.value);
          var n :- NumberBytes(v2.tok);
          Success(Emit([f.ri, d, a] + n, v2.pos))
        else Success(Emit([], v2.pos))
      else if IsNumber(v1.tok) then
        var v2 :- NextTokenC(tokens, v1.pos);
        if v2.tok.kind == Reg then
          var d :- StringToRegister(dest.tok.value);
          var n :- NumberBytes(v1.tok);
          var b :- StringToRegister(v2.tok.value);
          Success(Emit([f.ir, d] + n + [b], v2.pos))
        else if IsNumber(v2.tok) then
          var d :- StringToRegister(dest.tok.value);
          var n1 :- NumberBytes(v1.tok);
          var n2 :- NumberBytes(v2.tok);
          Success(Emit([f.i, d] + n1 + n2, v2.pos))
        else Success(Emit([], v2.pos))
      else Success(Emit([], v1.pos))
  }

  /** INC and DEC: the next token's text is read as a register, whatever its kind. */
  function Unary(opcode: byte, tokens: seq<Token>, pos: nat): (r: Result<Emit>)
    requires pos < |tokens|
    ensures r.Success? ==> r.value.pos == pos + 1 < |tokens|
    ensures r.Success? <==> pos + 1 < |tokens| && tokens[pos + 1].value in Registers.Names
  {
    var reg :- NextToken(tokens, pos);
    var b :- StringToRegister(reg.tok.value);
    Success(Emit([opcode, b], reg.pos))
  }

  /** NOT: two tokens separated by a comma, both read as registers, whatever their kinds. */
  function Not(tokens: seq<Token>, pos: nat): (r: Result<Emit>)
    requires pos < |tokens|
    ensures r.Success? ==> r.value.pos == pos + 3 < |tokens|
    ensures r.Success? <==>
      pos + 3 < |tokens| && tokens[pos + 2].kind == Comma
      && tokens[pos + 1].value in Registers.Names && tokens[pos + 3].value in Registers.Names
  {
    var dest :- NextToken(tokens, pos);
    var reg :- NextTokenC(tokens, dest.pos);
    var d :- StringToRegister(dest.tok.value);
    var s :- StringToRegister(reg.tok.value);
    Success(Emit([NOT_R, d, s], reg.pos))
  }

  /**
   * The opcodes of a comparison: register-register, register-number, and
   * the one emitted when a number comes first.
   */
  datatype CompareForms = CompareForms(r: byte, ri: byte, numFirst: byte)

  /**
   * CMP, IGT, ILT, IGE and ILE: two operands separated by a comma.  When a
   * number comes first and a register second, the number's text is still
   * read as a register and the register token as a number.
   */
  function Compare(c: CompareForms, tokens: seq<Token>, pos: nat): (r: Result<Emit>)
    requires pos < |tokens|
    ensures r.Success? ==> pos < r.value.pos < |tokens|
    ensures r.Success? && r.value.bytes != [] ==> r.value.bytes[0] in {c.r, c.ri, c.numFirst} && |r.value.bytes| <= 4
  {
    var v1 :- NextToken(tokens, pos);
    if v1.tok.kind == Reg then
      var v2 :- NextTokenC(tokens, v1.pos);
      if v2.tok.kind == Reg then
        var a :- StringToRegister(v1.tok.value);
        var b :- StringToRegister(v2.tok.value);
        Success(Emit([c.r, a, b], v2.pos))
      else if IsNumber(v2.tok) then
        var a :- StringToRegister(v1.tok.value);
        var n :- NumberBytes(v2.tok);
        Success(Emit([c.ri, a] + n, v2.pos))
      else Success(Emit([], v2.pos))
    else if IsNumber(v1.tok) then
      var v2 :- NextTokenC(tokens, v1.pos);
      if v2.tok.kind == Reg then
        var a :- StringToRegister(v1.tok.value);
        var n :- NumberBytes(v2.tok);
        Success(Emit([c.numFirst, a] + n, v2.pos))
      else Success(Emit([], v2.pos))
    else Success(Emit([], v1.pos))
  }

  /** The entry a jump found: its address, and the cursor on the token that named it. */
  datatype Found = Found(addr: u16, pos: nat)

  /**
   * The table scan of `GotoLabel`, from the `i`-th label entry on.  Each
   * entry tried consumes one more token, which must be a label token; the
   * first entry whose name equals the token just consumed is the one found.
   */
  function FindLabel(labels: seq<LabelEntry>, i: nat, tokens: seq<Token>, pos: nat): (r: Result<Found>)
    requires i <= |labels| && pos < |tokens|
    ensures r.Success? ==> pos < r.value.pos < |tokens|
    decreases |labels| - i
  {
    if i == |labels| then Failure(InvalidLabel)
    else
      var c :- ExpectNextToken(tokens, pos, Label);
      if labels[i].name == c.tok.value then Success(Found(labels[i].addr, c.pos))
      else FindLabel(labels, i + 1, tokens, c.pos)
  }

  /**
   * `GotoLabel`: the opcode, then the address of the entry found, printed
   * with `std::to_string` and read back as a decimal immediate.
   */
  function Goto(labels: seq<LabelEntry>, tokens: seq<Token>, pos: nat, opcode: byte): (r: Result<Emit>)
    requires pos < |tokens|
    ensures r.Success? ==> pos < r.value.pos < |tokens|
    ensures r.Success? ==> |r.value.bytes| == 3 && r.value.bytes[0] == opcode
  {
    var found :- FindLabel(labels, 0, tokens, pos);
    var n :- NumberBytes(Token(Immediate, NatToDecimal(found.addr)));
    Success(Emit([opcode] + n, found.pos))
  }

  /**
   * The scan finds entry `i` (counted from `k`): the `i - k + 1` tokens
   * after the cursor are all label tokens, the earlier ones differ from the
   * names of the entries tried against them, and the last equals entry
   * `i`'s name.
   */
  predicate MatchesFrom(labels: seq<LabelEntry>, k: nat, tokens: seq<Token>, pos: nat, i: nat) {
    && k <= i < |labels|
    && pos + 1 + (i - k) < |tokens|
    && var seen := tokens[pos + 1..pos + 2 + (i - k)];
      var tried := labels[k..i + 1];
      && (forall d :: 0 <= d < |seen| ==> seen[d].kind == Label)
      && (forall d :: 0 <= d < |seen| - 1 ==> seen[d].value != tried[d].name)
      && seen[|seen| - 1].value == tried[|tried| - 1].name
  }

  predicate MatchesAt(labels: seq<LabelEntry>, tokens: seq<Token>, pos: nat, i: nat) {
    MatchesFrom(labels, 0, tokens, pos, i)
  }

  /** A 16-bit address survives its trip through `std::to_string` and `strtol`. */
  lemma AddressBytes(addr: u16)
    ensures NumberBytes(Token(Immediate, NatToDecimal(addr))) == Success(LittleEndian(addr))
  {
    var n: nat := addr as nat;
    assert n % 0x1_0000 == n;
    NumberOfDecimalText(n);
  }

  lemma {:induction false} FindLabelMatches(labels: seq<LabelEntry>, k: nat, tokens: seq<Token>, pos: nat, i: nat)
    requires pos < |tokens| && MatchesFrom(labels, k, tokens, pos, i)
    ensures FindLabel(labels, k, tokens, pos) == Success(Found(labels[i].addr, pos + 1 + (i - k)))
    decreases i - k
  {
    var seen := tokens[pos + 1..pos + 2 + (i - k)];
    var tried := labels[k..i + 1];
    assert seen[0] == tokens[pos + 1] && tried[0] == labels[k];
    if i > k {
      assert tokens[pos + 2..pos + 3 + (i - (k + 1))] == seen[1..];
      assert labels[k + 1..i + 1] == tried[1..];
      FindLabelMatches(labels, k + 1, tokens, pos + 1, i);
    }
  }

  lemma {:induction false} FindLabelSound(labels: seq<LabelEntry>, k: nat, tokens: seq<Token>, pos: nat) returns (i: nat)
    requires k <= |labels| && pos < |tokens|
    requires FindLabel(labels, k, tokens, pos).Success?
    ensures MatchesFrom(labels, k, tokens, pos, i)
    decreases |labels| - k
  {
    assert k < |labels| && pos + 1 < |tokens| && tokens[pos + 1].kind == Label;
    if labels[k].name == tokens[pos + 1].value {
      i := k;
      assert tokens[pos + 1..pos + 2] == [tokens[pos + 1]];
    } else {
      assert FindLabel(labels, k + 1, tokens, pos + 1) == FindLabel(labels, k, tokens, pos);
      i := FindLabelSound(labels, k + 1, tokens, pos + 1);
      MatchesExtend(labels, k, tokens, pos, i);
    }
  }

  /** A match one entry and one token on extends back by an entry that was tried and missed. */
  lemma MatchesExtend(labels: seq<LabelEntry>, k: nat, tokens: seq<Token>, pos: nat, i: nat)
    requires k < |labels| && pos + 1 < |tokens|
    requires tokens[pos + 1].kind == Label && labels[k].name != tokens[pos + 1].value
    requires MatchesFrom(labels, k + 1, tokens, pos + 1, i)
    ensures MatchesFrom(labels, k, tokens, pos, i)
  {
    var rest := tokens[pos + 2..pos + 3 + (i - (k + 1))];
    var seen := tokens[pos + 1..pos + 2 + (i - k)];
    assert seen == [tokens[pos + 1]] + rest;
    var tried := labels[k..i + 1];
    assert tried == [labels[k]] + labels[k + 1..i + 1];
  }

  /**
   * A jump assembles exactly when some label entry matches in the sense of
   * `MatchesAt`, and then emits the opcode followed by that entry's
   * address, low byte first, with the cursor on the matching token.
   */
  lemma GotoSpec(labels: seq<LabelEntry>, tokens: seq<Token>, pos: nat, opcode: byte)
    requires pos < |tokens|
    ensures Goto(labels, tokens, pos, opcode).Success? <==> exists i: nat :: MatchesAt(labels, tokens, pos, i)
    ensures forall i: nat :: MatchesAt(labels, tokens, pos, i) ==>
      Goto(labels, tokens, pos, opcode) == Success(Emit([opcode] + LittleEndian(labels[i].addr), pos + 1 + i))
  {
    var found := FindLabel(labels, 0, tokens, pos);
    GotoOfFound(labels, tokens, pos, opcode);
    if found.Success? {
      var i := FindLabelSound(labels, 0, tokens, pos);
      assert MatchesAt(labels, tokens, pos, i);
    }
    forall i: nat | MatchesAt(labels, tokens, pos, i)
      ensures Goto(labels, tokens, pos, opcode) == Success(Emit([opcode] + LittleEndian(labels[i].addr), pos + 1 + i))
    {
      GotoMatched(labels, tokens, pos, opcode, i);
    }
  }

  lemma GotoMatched(labels: seq<LabelEntry>, tokens: seq<Token>, pos: nat, opcode: byte, i: nat)
    requires pos < |tokens| && MatchesAt(labels, tokens, pos, i)
    ensures Goto(labels, tokens, pos, opcode) == Success(Emit([opcode] + LittleEndian(labels[i].addr), pos + 1 + i))
  {
    FindLabelMatches(labels, 0, tokens, pos, i);
    GotoOfFound(labels, tokens, pos, opcode);
  }


  /** A jump fails as the scan does, or emits the opcode and the address the scan found. */
  lemma GotoOfFound(labels: seq<LabelEntry>, tokens: seq<Token>, pos: nat, opcode: byte)
    requires pos < |tokens|
    ensures FindLabel(labels, 0, tokens, pos).Failure? ==>
      Goto(labels, tokens, pos, opcode) == Failure(FindLabel(labels, 0, tokens, pos).error)
    ensures FindLabel(labels, 0, tokens, pos).Success? ==>
      var found := FindLabel(labels, 0, tokens, pos).value;
      Goto(labels, tokens, pos, opcode) == Success(Emit([opcode] + LittleEndian(found.addr), found.pos))
  {
    var found := FindLabel(labels, 0, tokens, pos);
    if found.Success? {
      AddressBytes(found.value.addr);
    }
  }


  /**
   * With the first label entry named by the token after the jump, the jump
   * takes that entry's address; with no entries at all it is fatal.
   */
  lemma GotoFirstEntry(labels: seq<LabelEntry>, tokens: seq<Token>, pos: nat, opcode: byte)
    requires pos + 1 < |tokens|
    ensures labels == [] ==> Goto(labels, tokens, pos, opcode) == Failure(InvalidLabel)
    ensures labels != [] && tokens[pos + 1] == Token(Label, labels[0].name) ==>
      Goto(labels, tokens, pos, opcode) == Success(Emit([opcode] + LittleEndian(labels[0].addr), pos + 1))
  {
    if labels != [] && tokens[pos + 1] == Token(Label, labels[0].name) {
      assert MatchesAt(labels, tokens, pos, 0);
      GotoSpec(labels, tokens, pos, opcode);
    }
  }

  // ----------------------------------------------------------- layouts

  /**
   * MOV with a register destination and a register or number source is
   * MOV_R or MOV_IM followed by the operands' bytes in source order.
   */
  lemma MovLayout(tokens: seq<Token>, pos: nat)
    requires pos + 3 < |tokens|
    requires tokens[pos + 1].kind == Reg && tokens[pos + 2].kind == Comma && IsOperand(tokens[pos + 3])
    ensures Mov(tokens, pos) == (
      var ops :- Operands([tokens[pos + 1], tokens[pos + 3]]);
      Success(Emit([if tokens[pos + 3].kind == Reg then MOV_R else MOV_IM] + ops, pos + 3)))
  {
    var d, v := tokens[pos + 1], tokens[pos + 3];
    OperandsPair(d, v);
    assert NextToken(tokens, pos) == Success(Cursor(d, pos + 1));
    assert NextTokenC(tokens, pos + 1) == Success(Cursor(v, pos + 3));
    var rd, rv := Operand(d), Operand(v);
    if rd.Success? && rv.Success? {
      var op: byte := if v.kind == Reg then MOV_R else MOV_IM;
      assert [op] + (rd.value + rv.value) == [op, rd.value[0]] + rv.value;
      if v.kind == Reg {
        assert [op, rd.value[0]] + rv.value == [op, rd.value[0], rv.value[0]];
      }
    }
  }

  /**
   * A three-operand instruction with a register destination and register
   * or number operands is the family's opcode for the operands' shape
   * followed by the three operands' bytes in source order.
   */
  lemma ArithLayout(f: Forms, mnemonic: string, tokens: seq<Token>, pos: nat)
    requires pos + 5 < |tokens|
    requires tokens[pos + 1].kind == Reg && tokens[pos + 2].kind == Comma && tokens[pos + 4].kind == Comma
    requires IsOperand(tokens[pos + 3]) && IsOperand(tokens[pos + 5])
    ensures Arith(f, mnemonic, tokens, pos) == (
      var ops :- Operands([tokens[pos + 1], tokens[pos + 3], tokens[pos + 5]]);
      Success(Emit([FormOf(f, ShapeOf(tokens[pos + 3], tokens[pos + 5]))] + ops, pos + 5)))
  {
    if tokens[pos + 3].kind == Reg && tokens[pos + 5].kind == Reg {
      ArithLayoutRegReg(f, mnemonic, tokens, pos);
    } else if tokens[pos + 3].kind == Reg {
      ArithLayoutRegNum(f, mnemonic, tokens, pos);
    } else if tokens[pos + 5].kind == Reg {
      ArithLayoutNumReg(f, mnemonic, tokens, pos);
    } else {
      ArithLayoutNumNum(f, mnemonic, tokens, pos);
    }
  }

  lemma ArithLayoutRegReg(f: Forms, mnemonic: string, tokens: seq<Token>, pos: nat)
    requires pos + 5 < |tokens|
    requires tokens[pos + 1].kind == Reg && tokens[pos + 2].kind == Comma && tokens[pos + 4].kind == Comma
    requires IsOperand(tokens[pos + 3]) && IsOperand(tokens[pos + 5])
    requires tokens[pos + 3].kind == Reg && tokens[pos + 5].kind == Reg
    ensures Arith(f, mnemonic, tokens, pos) == (
      var ops :- Operands([tokens[pos + 1], tokens[pos + 3], tokens[pos + 5]]);
      Success(Emit([FormOf(f, ShapeOf(tokens[pos + 3], tokens[pos + 5]))] + ops, pos + 5)))
  {
    var d, a, b := tokens[pos + 1], tokens[pos + 3], tokens[pos + 5];
    OperandsTriple(d, a, b);
    assert NextToken(tokens, pos) == Success(Cursor(d, pos + 1));
    assert NextTokenC(tokens, pos + 1) == Success(Cursor(a, pos + 3));
    assert NextTokenC(tokens, pos + 3) == Success(Cursor(b, pos + 5));
    var rd, ra, rb := Operand(d), Operand(a), Operand(b);
    if rd.Success? && ra.Success? && rb.Success? {
      var op := FormOf(f, ShapeOf(a, b));
      assert [op] + (rd.value + ra.value + rb.value) == [op, rd.value[0], ra.value[0], rb.value[0]];
    }
  }

  lemma ArithLayoutRegNum(f: Forms, mnemonic: string, tokens: seq<Token>, pos: nat)
    requires pos + 5 < |tokens|
    requires tokens[pos + 1].kind == Reg && tokens[pos + 2].kind == Comma && tokens[pos + 4].kind == Comma
    requires IsOperand(tokens[pos + 3]) && IsOperand(tokens[pos + 5])
    requires tokens[pos + 3].kind == Reg && tokens[pos + 5].kind != Reg
    ensures Arith(f, mnemonic, tokens, pos) == (
      var ops :- Operands([tokens[pos + 1], tokens[pos + 3], tokens[pos + 5]]);
      Success(Emit([FormOf(f, ShapeOf(tokens[pos + 3], tokens[pos + 5]))] + ops, pos + 5)))
  {
    var d, a, b := tokens[pos + 1], tokens[pos + 3], tokens[pos + 5];
    OperandsTriple(d, a, b);
    assert NextToken(tokens, pos) == Success(Cursor(d, pos + 1));
    assert NextTokenC(tokens, pos + 1) == Success(Cursor(a, pos + 3));
    assert NextTokenC(tokens, pos + 3) == Success(Cursor(b, pos + 5));
    var rd, ra, rb := Operand(d), Operand(a), Operand(b);
    if rd.Success? && ra.Success? && rb.Success? {
      var op := FormOf(f, ShapeOf(a, b));
      assert [op] + (rd.value + ra.value + rb.value) == [op, rd.value[0], ra.value[0]] + rb.value;
    }
  }

  lemma ArithLayoutNumReg(f: Forms, mnemonic: string, tokens: seq<Token>, pos: nat)
    requires pos + 5 < |tokens|
    requires tokens[pos + 1].kind == Reg && tokens[pos + 2].kind == Comma && tokens[pos + 4].kind == Comma
    requires IsOperand(tokens[pos + 3]) && IsOperand(tokens[pos + 5])
    requires tokens[pos + 3].kind != Reg && tokens[pos + 5].kind == Reg
    ensures Arith(f, mnemonic, tokens, pos) == (
      var ops :- Operands([tokens[pos + 1], tokens[pos + 3], tokens[pos + 5]]);
      Success(Emit([FormOf(f, ShapeOf(tokens[pos + 3], tokens[pos + 5]))] + ops, pos + 5)))
  {
    var d, a, b := tokens[pos + 1], tokens[pos + 3], tokens[pos + 5];
    OperandsTriple(d, a, b);
    assert NextToken(tokens, pos) == Success(Cursor(d, pos + 1));
    assert NextTokenC(tokens, pos + 1) == Success(Cursor(a, pos + 3));
    assert NextTokenC(tokens, pos + 3) == Success(Cursor(b, pos + 5));
    var rd, ra, rb := Operand(d), Operand(a), Operand(b);
    if rd.Success? && ra.Success? && rb.Success? {
      var op := FormOf(f, ShapeOf(a, b));
      assert [op] + (rd.value + ra.value + rb.value) == [op, rd.value[0]] + ra.value + [rb.value[0]];
    }
  }

  lemma ArithLayoutNumNum(f: Forms, mnemonic: string, tokens: seq<Token>, pos: nat)
    requires pos + 5 < |tokens|
    requires tokens[pos + 1].kind == Reg && tokens[pos + 2].kind == Comma && tokens[pos + 4].kind == Comma
    requires IsOperand(tokens[pos + 3]) && IsOperand(tokens[pos + 5])
    requires tokens[pos + 3].kind != Reg && tokens[pos + 5].kind != Reg
    ensures Arith(f, mnemonic, tokens, pos) == (
      var ops :- Operands([tokens[pos + 1], tokens[pos + 3], tokens[pos + 5]]);
      Success(Emit([FormOf(f, ShapeOf(tokens[pos + 3], tokens[pos + 5]))] + ops, pos + 5)))
  {
    var d, a, b := tokens[pos + 1], tokens[pos + 3], tokens[pos + 5];
    OperandsTriple(d, a, b);
    assert NextToken(tokens, pos) == Success(Cursor(d, pos + 1));
    assert NextTokenC(tokens, pos + 1) == Success(Cursor(a, pos + 3));
    assert NextTokenC(tokens, pos + 3) == Success(Cursor(b, pos + 5));
    var rd, ra, rb := Operand(d), Operand(a), Operand(b);
    if rd.Success? && ra.Success? && rb.Success? {
      var op := FormOf(f, ShapeOf(a, b));
      assert [op] + (rd.value + ra.value + rb.value) == [op, rd.value[0]] + ra.value + rb.value;
    }
  }

  /**
   * A comparison whose first operand is a register is the register or
   * register-number opcode followed by the operands' bytes in source order.
   */
  lemma CompareLayout(c: CompareForms, tokens: seq<Token>, pos: nat)
    requires pos + 3 < |tokens|
    requires tokens[pos + 1].kind == Reg && tokens[pos + 2].kind == Comma && IsOperand(tokens[pos + 3])
    ensures Compare(c, tokens, pos) == (
      var ops :- Operands([tokens[pos + 1], tokens[pos + 3]]);
      Success(Emit([if tokens[pos + 3].kind == Reg then c.r else c.ri] + ops, pos + 3)))
  {
    var a, b := tokens[pos + 1], tokens[pos + 3];
    OperandsPair(a, b);
    assert NextToken(tokens, pos) == Success(Cursor(a, pos + 1));
    assert NextTokenC(tokens, pos + 1) == Success(Cursor(b, pos + 3));
    var ra, rb := Operand(a), Operand(b);
    if ra.Success? && rb.Success? {
      var op: byte := if b.kind == Reg then c.r else c.ri;
      assert [op] + (ra.value + rb.value) == [op, ra.value[0]] + rb.value;
      if b.kind == Reg {
        assert [op, ra.value[0]] + rb.value == [op, ra.value[0], rb.value[0]];
      }
    }
  }

  /**
   * A comparison of a number with a register never assembles: either the
   * number's text names no register or the register token is no number.
   * A number compared with anything else emits nothing.
   */
  lemma CompareNumberFirst(c: CompareForms, tokens: seq<Token>, pos: nat)
    requires pos + 3 < |tokens|
    requires IsNumber(tokens[pos + 1]) && tokens[pos + 2].kind == Comma
    ensures tokens[pos + 3].kind == Reg ==> Compare(c, tokens, pos).Failure?
    ensures tokens[pos + 3].kind != Reg ==> Compare(c, tokens, pos) == Success(Emit([], pos + 3))
  {
  }

  /**
   * A comparison whose first operand is neither a register nor a number, or
   * whose second operand after a register is neither, emits nothing; the
   * cursor stays on that operand.
   */
  lemma CompareOtherKinds(c: CompareForms, tokens: seq<Token>, pos: nat)
    requires pos + 1 < |tokens|
    ensures !IsOperand(tokens[pos + 1]) ==> Compare(c, tokens, pos) == Success(Emit([], pos + 1))
    ensures (pos + 3 < |tokens| && tokens[pos + 1].kind == Reg && tokens[pos + 2].kind == Comma
      && !IsOperand(tokens[pos + 3])) ==> Compare(c, tokens, pos) == Success(Emit([], pos + 3))
  {
  }

  /**
   * An operand of another kind ends the instruction without emitting
   * anything; the cursor stays on that operand.
   */
  lemma OtherOperandsEmitNothing(f: Forms, mnemonic: string, tokens: seq<Token>, pos: nat)
    requires pos + 3 < |tokens|
    requires tokens[pos + 1].kind == Reg && tokens[pos + 2].kind == Comma
    ensures !IsOperand(tokens[pos + 3]) ==> Mov(tokens, pos) == Success(Emit([], pos + 3))
    ensures !IsOperand(tokens[pos + 3]) ==> Arith(f, mnemonic, tokens, pos) == Success(Emit([], pos + 3))
    ensures (pos + 5 < |tokens| && IsOperand(tokens[pos + 3]) && tokens[pos + 4].kind == Comma
      && !IsOperand(tokens[pos + 5])) ==> Arith(f, mnemonic, tokens, pos) == Success(Emit([], pos + 5))
  {
  }

  /** MOV and the three-operand families reject any destination but a register token. */
  lemma DestinationMustBeRegister(f: Forms, mnemonic: string, tokens: seq<Token>, pos: nat)
    requires pos + 1 < |tokens| && tokens[pos + 1].kind != Reg
    ensures Mov(tokens, pos) == Failure(InvalidDestination("MOV"))
    ensures Arith(f, mnemonic, tokens, pos) == Failure(InvalidDestination(mnemonic))
  {
  }

  /**
   * INC and DEC take any token whose text names a register, whatever its
   * kind, and emit the opcode and that register's index.
   */
  lemma UnaryLayout(opcode: byte, tokens: seq<Token>, pos: nat)
    requires pos + 1 < |tokens| && tokens[pos + 1].value in Registers.Names
    ensures Unary(opcode, tokens, pos).Success?
    ensures var e := Unary(opcode, tokens, pos).value;
      |e.bytes| == 2 && e.bytes[0] == opcode && Registers.Names[e.bytes[1]] == tokens[pos + 1].value
  {
  }

  /**
   * NOT takes two tokens whose texts name registers, separated by a comma,
   * and emits NOT_R and the two indices in source order.
   */
  lemma NotLayout(tokens: seq<Token>, pos: nat)
    requires pos + 3 < |tokens| && tokens[pos + 2].kind == Comma
    requires tokens[pos + 1].value in Registers.Names && tokens[pos + 3].value in Registers.Names
    ensures Not(tokens, pos).Success?
    ensures var e := Not(tokens, pos).value;
      && |e.bytes| == 3 && e.bytes[0] == NOT_R
      && Registers.Names[e.bytes[1]] == tokens[pos + 1].value
      && Registers.Names[e.bytes[2]] == tokens[pos + 3].value
  {
  }

  // ------------------------------------------------------ instructions

  /** How the pass treats each mnemonic. */
  datatype Instr =
    | MovInstr
    | ArithInstr(forms: Forms, mnemonic: string)
    | StepInstr(opcode: byte)
    | NotInstr
    | CompareInstr(compare: CompareForms)
    | JumpInstr(opcode: byte)
    | HaltInstr
    | NoInstr

  /** The eleven three-operand mnemonics, aligned with `Families`. */
  const ArithMnemonics: seq<string> := ["ADD", "SUB", "ADC", "SBC", "MUL", "DIV", "AND", "OR", "XOR", "SHL", "SHR"]

  /** The mnemonics the pass knows but the lexer never classifies as opcodes. */
  const UnlexedMnemonics: set<string> := {
    "INC", "DEC", "AND", "OR", "XOR", "NOT", "SHL", "SHR", "IGT", "ILT", "IGE", "ILE",
    "JMP", "JNZ", "JNC", "JC", "JNS", "JS"}

  /** Every mnemonic the pass knows: the lexer's ten and the eighteen above. */
  predicate IsAssembled(m: string) {
    m in Lexer.Mnemonics || m in UnlexedMnemonics
  }

  /** An opcode the pass may emit: one of the table's, or one of the undefined ones. */
  predicate Emittable(ext: UndefinedOpcodes, b: byte) {
    b <= 0x40 || b == HLT
    || b in {ext.incR, ext.decR, ext.igtR, ext.igtRI, ext.iltR, ext.iltRI, ext.igeR, ext.igeRI, ext.ileR, ext.ileRI}
  }

  /**
   * The chain of mnemonic tests in the pass.  JC jumps with JZ's opcode,
   * and ILE with a number first uses ILT's register-number opcode.
   */
  function Decode(ext: UndefinedOpcodes, m: string): (r: Instr)
    ensures r.ArithInstr? ==> r.forms in Families && r.mnemonic == m
    ensures r.StepInstr? || r.JumpInstr? ==> Emittable(ext, r.opcode)
    ensures r.CompareInstr? ==> Emittable(ext, r.compare.r) && Emittable(ext, r.compare.ri) && Emittable(ext, r.compare.numFirst)
  {
    if m == "MOV" then MovInstr
    else if m == "ADD" then ArithInstr(ADD, m)
    else if m == "SUB" then ArithInstr(SUB, m)
    else if m == "MUL" then ArithInstr(MUL, m)
    else if m == "DIV" then ArithInstr(DIV, m)
    else if m == "ADC" then ArithInstr(ADC, m)
    else if m == "SBC" then ArithInstr(SBC, m)
    else if m == "INC" then StepInstr(ext.incR)
    else if m == "DEC" then StepInstr(ext.decR)
    else if m == "AND" then ArithInstr(AND, m)
    else if m == "OR" then ArithInstr(OR, m)
    else if m == "XOR" then ArithInstr(XOR, m)
    else if m == "NOT" then NotInstr
    else if m == "SHL" then ArithInstr(SHL, m)
    else if m == "SHR" then ArithInstr(SHR, m)
    else if m == "CMP" then CompareInstr(CompareForms(CMP_R, CMP_RI, CMP_RI))
    else if m == "IGT" then CompareInstr(CompareForms(ext.igtR, ext.igtRI, ext.igtRI))
    else if m == "ILT" then CompareInstr(CompareForms(ext.iltR, ext.iltRI, ext.iltRI))
    else if m == "IGE" then CompareInstr(CompareForms(ext.igeR, ext.igeRI, ext.igeRI))
    else if m == "ILE" then CompareInstr(CompareForms(ext.ileR, ext.ileRI, ext.iltRI))
    else if m == "JMP" then JumpInstr(JMP)
    else if m == "JNZ" then JumpInstr(JNZ)
    else if m == "JZ" then JumpInstr(JZ)
    else if m == "JNC" then JumpInstr(JNC)
    else if m == "JC" then JumpInstr(JZ)
    else if m == "JNS" then JumpInstr(JNS)
    else if m == "JS" then JumpInstr(JS)
    else if m == "HLT" then HaltInstr
    else NoInstr
  }

  /** The `k`-th three-operand mnemonic selects the `k`-th opcode family. */
  lemma DecodeFamilies(ext: UndefinedOpcodes, k: nat)
    requires k < |ArithMnemonics|
    ensures |ArithMnemonics| == |Families|
    ensures Decode(ext, ArithMnemonics[k]) == ArithInstr(Families[k], ArithMnemonics[k])
  {
    if k < 6 {
      DecodeFamiliesBelow(ext, k);
    } else {
      DecodeFamiliesFrom(ext, k);
    }
  }

  lemma DecodeFamiliesBelow(ext: UndefinedOpcodes, k: nat)
    requires k < 6
    ensures Decode(ext, ArithMnemonics[k]) == ArithInstr(Families[k], ArithMnemonics[k])
  {
    var m := ArithMnemonics[k];
    if k == 0 {
      assert m == "ADD" && Families[k] == ADD;
    } else if k == 1 {
      assert m == "SUB" && Families[k] == SUB;
    } else if k == 2 {
      assert m == "ADC" && Families[k] == ADC;
    } else if k == 3 {
      assert m == "SBC" && Families[k] == SBC;
    } else if k == 4 {
      assert m == "MUL" && Families[k] == MUL;
    } else {
      assert m == "DIV" && Families[k] == DIV;
    }
  }

  lemma DecodeFamiliesFrom(ext: UndefinedOpcodes, k: nat)
    requires 6 <= k < 11
    ensures Decode(ext, ArithMnemonics[k]) == ArithInstr(Families[k], ArithMnemonics[k])
  {
    var m := ArithMnemonics[k];
    if k == 6 {
      assert m == "AND" && Families[k] == AND;
    } else if k == 7 {
      assert m == "OR" && Families[k] == OR;
    } else if k == 8 {
      assert m == "XOR" && Families[k] == XOR;
    } else if k == 9 {
      assert m == "SHL" && Families[k] == SHL;
    } else {
      assert m == "SHR" && Families[k] == SHR;
    }
  }

  /** The pass recognises exactly the mnemonics of `IsAssembled`. */
  lemma DecodeKnown(ext: UndefinedOpcodes, m: string)
    ensures Decode(ext, m) != NoInstr <==> IsAssembled(m)
  {
    if m == "MOV" {} else if m == "ADD" {} else if m == "SUB" {} else if m == "MUL" {}
    else if m == "DIV" {} else if m == "ADC" {} else if m == "SBC" {} else if m == "INC" {}
    else if m == "DEC" {} else if m == "AND" {} else if m == "OR" {} else if m == "XOR" {}
    else if m == "NOT" {} else if m == "SHL" {} else if m == "SHR" {} else if m == "CMP" {}
    else if m == "IGT" {} else if m == "ILT" {} else if m == "IGE" {} else if m == "ILE" {}
    else if m == "JMP" {} else if m == "JNZ" {} else if m == "JZ" {} else if m == "JNC" {}
    else if m == "JC" {} else if m == "JNS" {} else if m == "JS" {} else if m == "HLT" {}
    else {
      assert m !in Lexer.Mnemonics && m !in UnlexedMnemonics;
    }
  }

  /** JC assembles with JZ's opcode. */
  lemma DecodeJC(ext: UndefinedOpcodes)
    ensures Decode(ext, "JC") == JumpInstr(JZ) == Decode(ext, "JZ")
  {
  }

  /** ILE with a number first names ILT's register-number opcode. */
  lemma DecodeILE(ext: UndefinedOpcodes)
    ensures Decode(ext, "ILE") == CompareInstr(CompareForms(ext.ileR, ext.ileRI, ext.iltRI))
  {
  }

  /** HLT emits the single byte 0xFF and leaves the cursor on the mnemonic. */
  lemma HaltEmitsFF(ext: UndefinedOpcodes, labels: seq<LabelEntry>, tokens: seq<Token>, pos: nat)
    requires pos < |tokens| && tokens[pos].value == "HLT"
    ensures Instruction(ext, labels, tokens, pos) == Success(Emit([0xFF], pos))
  {
    assert Decode(ext, tokens[pos].value) == HaltInstr;
  }

  /**
   * Of the mnemonics the pass assembles, the lexer classifies only ten as
   * opcodes; the other eighteen reach the pass as unknown tokens, which
   * it skips, or, once a label of that name is defined, as label tokens,
   * each of which defines that label again at the current address.
   */
  lemma LexedMnemonics(prior: seq<Token>, m: string)
    requires IsAssembled(m)
    ensures m in Lexer.Mnemonics ==> Lexer.ClassifyWord(m, prior) == Opcode
    ensures m !in Lexer.Mnemonics ==>
      Lexer.ClassifyWord(m, prior) == (if Token(Label, m) in prior then Label else Unknown)
  {
    if m !in Lexer.Mnemonics {
      assert m in UnlexedMnemonics;
      assert m[0] != 'R' && m != "ORG" by {
        if m == "INC" {} else if m == "DEC" {} else if m == "AND" {} else if m == "OR" {}
        else if m == "XOR" {} else if m == "NOT" {} else if m == "SHL" {} else if m == "SHR" {}
        else if m == "IGT" {} else if m == "ILT" {} else if m == "IGE" {} else if m == "ILE" {}
        else if m == "JMP" {} else if m == "JNZ" {} else if m == "JNC" {} else if m == "JC" {}
        else if m == "JNS" {} else {}
      }
      if m in Registers.Names {
        Registers.NamesStartWithR(m);
      }
    }
  }

  /**
   * One instruction: the encoder its mnemonic selects, run with the cursor
   * on the mnemonic.  An unknown mnemonic emits nothing.
   */
  function Instruction(ext: UndefinedOpcodes, labels: seq<LabelEntry>, tokens: seq<Token>, pos: nat): (r: Result<Emit>)
    requires pos < |tokens|
    ensures r.Success? ==> pos <= r.value.pos < |tokens|
    ensures r.Success? ==> |r.value.bytes| <= 6
    ensures r.Success? && r.value.bytes != [] ==> Emittable(ext, r.value.bytes[0])
  {
    match Decode(ext, tokens[pos].value)
    case MovInstr => Mov(tokens, pos)
    case ArithInstr(f, m) => FamiliesInTable(f); Arith(f, m, tokens, pos)
    case StepInstr(op) => Unary(op, tokens, pos)
    case NotInstr => Not(tokens, pos)
    case CompareInstr(c) => Compare(c, tokens, pos)
    case JumpInstr(op) => Goto(labels, tokens, pos, op)
    case HaltInstr => Success(Emit([HLT], pos))
    case NoInstr => Success(Emit([], pos))
  }

  // ------------------------------------------------- concrete encodings

  /** Register `Ri` is the single byte `i`. */
  lemma RegisterOperand(i: nat)
    requires i < 12
    ensures Operand(Token(Reg, Registers.Names[i])) == Success([i as byte])
  {
    Registers.RegisterIndicesDistinct();
  }

  /** The decimal text of `n` is `n` modulo 2^16, low byte first. */
  lemma DecimalOperand(n: nat)
    requires n <= LongMax
    ensures Operand(Token(Immediate, NatToDecimal(n))) == Success(LittleEndian(n % 0x1_0000))
  {
    NumberOfDecimalText(n);
  }

  /** `MOV Rd, #n` is MOV_IM, the register's index and `n` modulo 2^16, low byte first. */
  lemma MovImmediate(ext: UndefinedOpcodes, labels: seq<LabelEntry>, tokens: seq<Token>, pos: nat, d: nat, n: nat)
    requires d < 12 && n <= LongMax && pos + 3 < |tokens|
    requires tokens[pos] == Token(Opcode, "MOV") && tokens[pos + 1] == Token(Reg, Registers.Names[d])
    requires tokens[pos + 2].kind == Comma && tokens[pos + 3] == Token(Immediate, NatToDecimal(n))
    ensures var v := n % 0x1_0000;
      Instruction(ext, labels, tokens, pos)
        == Success(Emit([MOV_IM, d as byte, (v % 0x100) as byte, (v / 0x100) as byte], pos + 3))
  {
    assert Decode(ext, "MOV") == MovInstr;
    MovLayout(tokens, pos);
    RegisterOperand(d);
    DecimalOperand(n);
    OperandsPair(tokens[pos + 1], tokens[pos + 3]);
    var v: u16 := n % 0x1_0000;
    assert [MOV_IM] + ([d as byte] + LittleEndian(v)) == [MOV_IM, d as byte, (v % 0x100) as byte, (v / 0x100) as byte];
  }

  /**
   * The three-operand instruction `k` of `ArithMnemonics` on registers
   * `Rd, Ra, Rb` is its family's register form followed by the three indices.
   */
  lemma ArithRegisters(ext: UndefinedOpcodes, labels: seq<LabelEntry>, k: nat, tokens: seq<Token>, pos: nat, d: nat, a: nat, b: nat)
    requires k < |ArithMnemonics| && d < 12 && a < 12 && b < 12 && pos + 5 < |tokens|
    requires tokens[pos] == Token(Opcode, ArithMnemonics[k])
    requires tokens[pos + 1] == Token(Reg, Registers.Names[d]) && tokens[pos + 2].kind == Comma
    requires tokens[pos + 3] == Token(Reg, Registers.Names[a]) && tokens[pos + 4].kind == Comma
    requires tokens[pos + 5] == Token(Reg, Registers.Names[b])
    ensures |Families| == |ArithMnemonics|
    ensures Instruction(ext, labels, tokens, pos)
      == Success(Emit([Families[k].r, d as byte, a as byte, b as byte], pos + 5))
  {
    DecodeFamilies(ext, k);
    FamiliesInTable(Families[k]);
    ArithLayout(Families[k], ArithMnemonics[k], tokens, pos);
    RegisterOperand(d);
    RegisterOperand(a);
    RegisterOperand(b);
    OperandsTriple(tokens[pos + 1], tokens[pos + 3], tokens[pos + 5]);
    assert [Families[k].r] + ([d as byte] + [a as byte] + [b as byte]) == [Families[k].r, d as byte, a as byte, b as byte];
  }
}
