/**
 * The assembler pass (the `Assemble` constructor of src/Assemble.cpp over
 * the state declared in src/Assemble.h): one walk over the tokens that
 * keeps an origin, an append-only label table and an append-only program.
 * `Step` and `Pass` specify the walk; the class `Assembler` carries it out
 * in place.
 */
module Assembly {
  import opened Outcomes
  import opened Numbers
  import opened Tokens
  import opened Opcodes
  import opened Encoding

  /** The origin, the label table and the bytes emitted so far. */
  datatype PassState = PassState(origin: u16, labels: seq<LabelEntry>, program: seq<byte>)

  /** The state after one token, and the position of the last token consumed. */
  datatype Progress = Progress(state: PassState, pos: nat)

  /** Origin 0x0000, no labels, no bytes. */
  const Start: PassState := PassState(0, [], [])

  /**
   * One turn of the loop, with the cursor on `tokens[pos]`: ORG reads the
   * hex token after it as the new origin, a label token defines a label at
   * the current address, an opcode token assembles one instruction, and
   * every other token is passed over.
   */
  function Step(ext: UndefinedOpcodes, tokens: seq<Token>, pos: nat, st: PassState): (r: Result<Progress>)
    requires pos < |tokens|
    ensures r.Success? ==> pos <= r.value.pos < |tokens|
    ensures r.Success? ==> st.program <= r.value.state.program && st.labels <= r.value.state.labels
  {
    var tok := tokens[pos];
    match tok.kind
    case Org =>
      var hex :- ExpectNextToken(tokens, pos, Hex);
      var origin :- StringToU16(hex.tok.value);
      Success(Progress(st.(origin := origin), hex.pos))
    case Label =>
      var entry := LabelEntry(tok.value, ToU16(st.origin + |st.program|));
      Success(Progress(st.(labels := st.labels + [entry]), pos))
    case Opcode =>
      var e :- Instruction(ext, st.labels, tokens, pos);
      Success(Progress(st.(program := st.program + e.bytes), e.pos))
    case _ => Success(Progress(st, pos))
  }

  /** The loop from `pos` on: each turn ends by moving past the last token consumed. */
  function Pass(ext: UndefinedOpcodes, tokens: seq<Token>, pos: nat, st: PassState): Result<PassState>
    requires pos <= |tokens|
    decreases |tokens| - pos
  {
    if pos == |tokens| then Success(st)
    else
      match Step(ext, tokens, pos, st)
      case Failure(e) => Failure(e)
      case Success(p) => Pass(ext, tokens, p.pos + 1, p.state)
  }

  /** The whole pass, from the initial state. */
  function Assemble(ext: UndefinedOpcodes, tokens: seq<Token>): Result<PassState> {
    Pass(ext, tokens, 0, Start)
  }

  /** What a run leaves behind: the program, or why it stopped. */
  function AssembledOutput(ext: UndefinedOpcodes, tokens: seq<Token>): Result<seq<byte>> {
    var st :- Assemble(ext, tokens);
    Success(st.program)
  }

  /**
   * The label table and the program are append-only: whatever the pass
   * starts with is a prefix of what it ends with.
   */
  lemma {:induction false} PassAppendOnly(ext: UndefinedOpcodes, tokens: seq<Token>, pos: nat, st: PassState, last: PassState)
    requires pos <= |tokens|
    requires Pass(ext, tokens, pos, st) == Success(last)
    ensures st.program <= last.program && st.labels <= last.labels
    decreases |tokens| - pos
  {
    if pos < |tokens| {
      var p := PassNext(ext, tokens, pos, st);
      PassAppendOnly(ext, tokens, p.pos + 1, p.state, last);
      PrefixTransitive(st.program, p.state.program, last.program);
      PrefixTransitive(st.labels, p.state.labels, last.labels);
    }
  }

  /** A pass that succeeds took a successful step that only appended, and went on from there. */
  lemma PassNext(ext: UndefinedOpcodes, tokens: seq<Token>, pos: nat, st: PassState) returns (p: Progress)
    requires pos < |tokens|
    requires Pass(ext, tokens, pos, st).Success?
    ensures pos <= p.pos < |tokens|
    ensures st.program <= p.state.program && st.labels <= p.state.labels
    ensures Pass(ext, tokens, pos, st) == Pass(ext, tokens, p.pos + 1, p.state)
  {
    p := Step(ext, tokens, pos, st).value;
  }

  lemma PrefixTransitive<T>(a: seq<T>, b: seq<T>, c: seq<T>)
    requires a <= b && b <= c
    ensures a <= c
  {
    assert a == c[..|a|];
  }

  /**
   * ORG demands a hex token next, sets the origin to its value modulo
   * 2^16 and emits nothing; a label token appends an entry whose address is
   * the origin plus the bytes emitted so far, modulo 2^16, even when an
   * entry of that name exists already.
   */
  lemma OrgAndLabelSteps(ext: UndefinedOpcodes, tokens: seq<Token>, pos: nat, st: PassState)
    requires pos < |tokens|
    ensures tokens[pos].kind == Org ==>
      (Step(ext, tokens, pos, st).Success? <==>
        pos + 1 < |tokens| && tokens[pos + 1].kind == Hex && Stoul16(tokens[pos + 1].value).Success?)
    ensures tokens[pos].kind == Org && Step(ext, tokens, pos, st).Success? ==>
      Step(ext, tokens, pos, st).value ==
        Progress(PassState(Stoul16(tokens[pos + 1].value).value % 0x1_0000, st.labels, st.program), pos + 1)
    ensures tokens[pos].kind == Label ==>
      Step(ext, tokens, pos, st) == Success(Progress(
        PassState(st.origin, st.labels + [LabelEntry(tokens[pos].value, (st.origin + |st.program|) % 0x1_0000)], st.program),
        pos))
  {
  }

  /** Tokens other than ORG, labels and opcodes change nothing. */
  lemma OtherTokensPassed(ext: UndefinedOpcodes, tokens: seq<Token>, pos: nat, st: PassState)
    requires pos < |tokens|
    requires tokens[pos].kind !in {Org, Label, Opcode}
    ensures Step(ext, tokens, pos, st) == Success(Progress(st, pos))
  {
  }

  /**
   * An opcode token appends exactly what its instruction emits and leaves
   * the cursor where the instruction left it, with the origin and the
   * labels alone; an instruction is at most six bytes long and starts with
   * a table opcode or an undefined one.
   */
  lemma OpcodeStep(ext: UndefinedOpcodes, tokens: seq<Token>, pos: nat, st: PassState)
    requires pos < |tokens| && tokens[pos].kind == Opcode
    requires Step(ext, tokens, pos, st).Success?
    ensures Instruction(ext, st.labels, tokens, pos).Success?
    ensures var p := Step(ext, tokens, pos, st).value;
      var e := Instruction(ext, st.labels, tokens, pos).value;
      var added := p.state.program[|st.program|..];
      && p.state.origin == st.origin && p.state.labels == st.labels
      && p.state.program == st.program + e.bytes && added == e.bytes && p.pos == e.pos
      && |added| <= 6
      && (added != [] ==> Emittable(ext, added[0]))
  {
    var e := Instruction(ext, st.labels, tokens, pos).value;
    var p := Step(ext, tokens, pos, st).value;
    assert p.state.program[|st.program|..] == e.bytes;
  }

  /** A successful turn hands the rest of the pass to the token after the last one it consumed. */
  lemma PassOfStep(ext: UndefinedOpcodes, tokens: seq<Token>, pos: nat, st: PassState, p: Progress)
    requires pos < |tokens|
    requires Step(ext, tokens, pos, st) == Success(p)
    ensures p.pos < |tokens|
    ensures Pass(ext, tokens, pos, st) == Pass(ext, tokens, p.pos + 1, p.state)
  {
    var r := Step(ext, tokens, pos, st);
    assert r == Success(p);
    assert Pass(ext, tokens, pos, st) == match r case Failure(e) => Failure(e) case Success(q) => Pass(ext, tokens, q.pos + 1, q.state);
  }

  /** A failed turn ends the pass with the turn's error. */
  lemma PassOfFailedStep(ext: UndefinedOpcodes, tokens: seq<Token>, pos: nat, st: PassState, e: Error)
    requires pos < |tokens|
    requires Step(ext, tokens, pos, st) == Failure(e)
    ensures Pass(ext, tokens, pos, st) == Failure(e)
  {
  }

  /** The turn on an opcode token whose instruction emits `e`. */
  lemma OpcodeTurn(ext: UndefinedOpcodes, tokens: seq<Token>, pos: nat, st: PassState, e: Emit)
    requires pos < |tokens| && tokens[pos].kind == Opcode
    requires Instruction(ext, st.labels, tokens, pos) == Success(e)
    ensures Step(ext, tokens, pos, st) == Success(Progress(st.(program := st.program + e.bytes), e.pos))
  {
  }

  /**
   * The program is the instructions' encodings in order: an opcode token
   * whose instruction emits `e` appends `e`'s bytes, and the pass goes on
   * after the instruction's last token.
   */
  lemma InstructionPass(ext: UndefinedOpcodes, tokens: seq<Token>, pos: nat, st: PassState, e: Emit)
    requires pos < |tokens| && tokens[pos].kind == Opcode
    requires Instruction(ext, st.labels, tokens, pos) == Success(e)
    ensures pos <= e.pos < |tokens|
    ensures Pass(ext, tokens, pos, st) == Pass(ext, tokens, e.pos + 1, st.(program := st.program + e.bytes))
  {
    OpcodeTurn(ext, tokens, pos, st, e);
    PassOfStep(ext, tokens, pos, st, Progress(st.(program := st.program + e.bytes), e.pos));
  }

  /** `ORG` followed by a hex literal that reads as `v` sets the origin to `v`, and the pass goes on after the literal. */
  lemma OrgPass(ext: UndefinedOpcodes, tokens: seq<Token>, pos: nat, st: PassState, v: u16)
    requires pos + 1 < |tokens| && tokens[pos].kind == Org
    requires tokens[pos + 1].kind == Hex && StringToU16(tokens[pos + 1].value) == Success(v)
    ensures Pass(ext, tokens, pos, st) == Pass(ext, tokens, pos + 2, st.(origin := v))
  {
    var next := Progress(st.(origin := v), pos + 1);
    assert Step(ext, tokens, pos, st) == Success(next);
    PassOfStep(ext, tokens, pos, st, next);
  }

  /**
   * A label token appends an entry at the current address, whatever its
   * name, and the pass goes on with the next token.
   */
  lemma LabelPass(ext: UndefinedOpcodes, tokens: seq<Token>, pos: nat, st: PassState)
    requires pos < |tokens| && tokens[pos].kind == Label
    ensures Pass(ext, tokens, pos, st) == Pass(ext, tokens, pos + 1,
      st.(labels := st.labels + [LabelEntry(tokens[pos].value, ToU16(st.origin + |st.program|))]))
  {
    var next := st.(labels := st.labels + [LabelEntry(tokens[pos].value, ToU16(st.origin + |st.program|))]);
    assert Step(ext, tokens, pos, st) == Success(Progress(next, pos));
    PassOfStep(ext, tokens, pos, st, Progress(next, pos));
  }

  /**
   * The assembler object: `origin` is `m_OrgAddr`, `labels` is `m_Labels`,
   * and `output` stands for what the run leaves behind, the bytes of
   * output.bin or the reason it stopped.
   */
  class Assembler {
    const ext: UndefinedOpcodes
    var origin: u16
    var labels: seq<LabelEntry>
    var output: Result<seq<byte>>

    /**
     * The constructor: the whole pass over `tokens`, starting from origin
     * 0x0000 and an empty label table.
     */
    constructor(ext: UndefinedOpcodes, tokens: seq<Token>)
      ensures this.ext == ext
      ensures output == AssembledOutput(ext, tokens)
      ensures Assemble(ext, tokens).Success? ==>
        origin == Assemble(ext, tokens).value.origin && labels == Assemble(ext, tokens).value.labels
    {
      this.ext := ext;
      origin := 0;
      labels := [];
      output := Success([]);
      new;
      var program: seq<byte> := [];
      var pos := 0;
      while pos < |tokens|
        invariant pos <= |tokens|
        invariant Pass(ext, tokens, pos, PassState(origin, labels, program)) == Assemble(ext, tokens)
        invariant this.ext == ext
        decreases |tokens| - pos
      {
        var turn := Advance(tokens, pos, program);
        if turn.Failure? {
          output := Failure(turn.error);
          assert Assemble(ext, tokens) == Failure(turn.error);
          return;
        }
        program := turn.value.state.program;
        pos := turn.value.pos + 1;
      }
      assert Assemble(ext, tokens) == Success(PassState(origin, labels, program));
      output := Success(program);
    }

    /** One turn of the loop, stated as what it leaves of the pass from `pos` on. */
    method Advance(tokens: seq<Token>, pos: nat, program: seq<byte>) returns (r: Result<Progress>)
      requires pos < |tokens|
      modifies this
      ensures r.Failure? ==> Pass(ext, tokens, pos, old(PassState(origin, labels, program))) == Failure(r.error)
      ensures r.Success? ==> pos <= r.value.pos < |tokens| && origin == r.value.state.origin && labels == r.value.state.labels
      ensures r.Success? ==>
        Pass(ext, tokens, pos, old(PassState(origin, labels, program))) == Pass(ext, tokens, r.value.pos + 1, r.value.state)
    {
      ghost var st := PassState(origin, labels, program);
      r := Turn(tokens, pos, program);
      if r.Success? {
        PassOfStep(ext, tokens, pos, st, r.value);
      } else {
        PassOfFailedStep(ext, tokens, pos, st, r.error);
      }
    }

    /**
     * One turn of the constructor's loop with the cursor on `tokens[pos]`:
     * ORG updates `origin`, a label token appends to `labels`, an opcode
     * token yields the program with its instruction appended.
     */
    method Turn(tokens: seq<Token>, pos: nat, program: seq<byte>) returns (r: Result<Progress>)
      requires pos < |tokens|
      modifies this
      ensures r == Step(ext, tokens, pos, old(PassState(origin, labels, program)))
      ensures r.Success? ==> origin == r.value.state.origin && labels == r.value.state.labels
      ensures output == old(output)
    {
      var tok := tokens[pos];
      match tok.kind {
        case Org =>
          var hex := ExpectNextToken(tokens, pos, Hex);
          if hex.Failure? {
            return Failure(hex.error);
          }
          var value := StringToU16(hex.value.tok.value);
          if value.Failure? {
            return Failure(value.error);
          }
          origin := value.value;
          r := Success(Progress(PassState(origin, labels, program), hex.value.pos));
        case Label =>
          labels := labels + [LabelEntry(tok.value, ToU16(origin + |program|))];
          r := Success(Progress(PassState(origin, labels, program), pos));
        case Opcode =>
          var e: Result<Emit>;
          var instr := Decode(ext, tok.value);
          if instr.JumpInstr? {
            e := GotoLabel(instr.opcode, tokens, pos);
          } else {
            e := Instruction(ext, labels, tokens, pos);
          }
          if e.Failure? {
            return Failure(e.error);
          }
          r := Success(Progress(PassState(origin, labels, program + e.value.bytes), e.value.pos));
        case _ =>
          r := Success(Progress(PassState(origin, labels, program), pos));
      }
    }

    /**
     * `GotoLabel`: scans the label table in order, consuming one more token
     * for each entry it tries; the first entry whose name equals the token
     * just consumed gives the address emitted after the opcode.
     */
    method GotoLabel(opcode: byte, tokens: seq<Token>, pos: nat) returns (r: Result<Emit>)
      requires pos < |tokens|
      ensures r == Goto(labels, tokens, pos, opcode)
    {
      var p: nat := pos;
      var i := 0;
      var found: Option<Found> := None;
      while i < |labels| && found.None?
        invariant i <= |labels| && p < |tokens|
        invariant found.None? ==> FindLabel(labels, i, tokens, p) == FindLabel(labels, 0, tokens, pos)
        invariant found.Some? ==> Success(found.value) == FindLabel(labels, 0, tokens, pos)
        decreases |labels| - i, if found.None? then 1 else 0
      {
        var next := ExpectNextToken(tokens, p, Label);
        if next.Failure? {
          return Failure(next.error);
        }
        p := next.value.pos;
        if labels[i].name == next.value.tok.value {
          found := Some(Found(labels[i].addr, p));
        } else {
          i := i + 1;
        }
      }
      if found.None? {
        return Failure(InvalidLabel);
      }
      var addr := NumberBytes(Token(Immediate, NatToDecimal(found.value.addr)));
      r := Success(Emit([opcode] + addr.value, found.value.pos));
    }
  }
}
