# REASM lexer and assembler, modelled in Dafny

REASM turns a text file of assembly lines into a flat binary for a small
16-bit CPU. It works in two stages:

- **Lexer** (`src/Lexer.cpp`). Each line is trimmed of white space. A line whose first
  colon is its last character defines a label. Any other line is scanned
  left to right:
  - `#` starts a decimal immediate;
  - `0x` starts a hex literal;
  - a letter, `_` or `.` starts a word;
  - `, ( ) [ ] { }` are tokens of their own;
  - every other character is dropped.

  A word becomes one of these, in order:
  - an opcode, if it is one of ten mnemonics;
  - a register, `R0` to `R11`;
  - `ORG`;
  - a label reference, if a label of that name was defined on an earlier line;
  - otherwise, an unknown token.
- **Assembler** (the `Assemble` constructor in `src/Assemble.cpp`, with the
  state declared in `src/Assemble.h`). It makes one pass over the tokens and
  keeps three things: an origin, an append-only label table and an
  append-only byte program.
  - `ORG` sets the origin.
  - A label token records the name with the address "origin + bytes emitted
    so far".
  - An opcode token is encoded by its mnemonic's encoder. The encoders use the
    byte table in `src/Defines/Opcodes.h` and the register numbers in
    `src/Defines/Registers.h`.
  - A jump looks its label up in the table built so far.
  - Any fault ends the run.

The project has these modules:

| module | file | models |
|---|---|---|
| `Outcomes` | outcomes.dfy | `Result`/`Option`, and the reasons a run stops (each `exit(1)` and each uncaught `std::stoul` exception) |
| `Chars` | chars.dfy | the `<cctype>` classes the lexer uses, and maximal runs of a class |
| `Numbers` | numbers.dfy | `strtol` (base 10), `stoul` (base 16), the `uint16_t` cast, `std::to_string`, with round trips |
| `Tokens` | tokens.dfy | `src/Token.h`: token kinds, their names, `FetchToken`, `ExpectToken` |
| `Opcodes` | opcodes.dfy | `src/Defines/Opcodes.h`, and the shape of the three-operand families |
| `Registers` | registers.dfy | `src/Defines/Registers.h` |
| `Lexer` | lexer.dfy | `src/Lexer.cpp`: trim, word, immediate and hex readers, one line, a file's lines |
| `Encoding` | encoding.dfy | the pure half of `src/Assemble.cpp`: register and number operands, the cursor helpers, every encoder, the label lookup of `GotoLabel` |
| `Assembly` | assembler.dfy | the pass as a specification (`Step`, `Pass`), and the class `Assembler`: its constructor loop updates `origin` and `labels` in place, and `GotoLabel` loops over the table |
| `Examples` | examples.dfy | whole runs, from source lines through the lexer to bytes, on small programs: a straight-line program with and without `ORG 0x0000`, ORG and a jump, a forward jump; and a label defined twice |

The `int& pos` cursor of the C++ helpers is modelled as a returned cursor.
Each helper returns the token it read together with its new position. The two
loops of `src/Assemble.cpp` are methods of `Assembly.Assembler` with loop
invariants:
- the main `while (pos < tokens.size())` loop;
- the scan of `m_Labels` inside `GotoLabel`.

Each method is proved against the function that specifies it: the constructor
against `Assemble`, `GotoLabel` against `Goto`. The lexer's loops are methods
too, proved against `Trimmed`, `Scan`, `LineTokens` and `Lex`.

`Assemble.cpp` names opcodes that `Opcodes.h` does not define:
`INC_R`, `DEC_R`, and the `IGT`, `ILT`, `IGE` and `ILE` opcodes. No value is
invented for them. They are the fields of an `UndefinedOpcodes` parameter,
and every property holds whatever their values are.

Where the code does something other than its names and structure suggest,
the model follows the code:
- **Mnemonics.** Only `MOV ADD SUB MUL DIV ADC SBC CMP JZ HLT` lex as opcodes.
  The pass also has branches for 18 more mnemonics, but those words never
  reach them. They reach the pass as unknown tokens, which it skips, or,
  once a label of that name exists, as label tokens. Each such label token
  defines that label again at the current address.
  `Encoding.LexedMnemonics` and `Examples.LabelDefinedTwice` state this.
- **Unsupported operand kinds.** In MOV, the three-operand families and CMP
  (with IGT, ILT, IGE and ILE), an operand that is neither a register nor a
  number emits nothing, and the cursor stays on that token. The run does not
  stop. NOT, INC and DEC do not look at kinds: they read the text of the
  token where a register belongs as a register name, whatever its kind.
- **Comparisons with a number first.** They do not get an opcode of their own.
  When the second operand is a register, the number's text is read as a
  register name, so the instruction is fatal. With any other second operand,
  nothing is emitted.
- **Jumps.** A jump consumes one more token for every table entry it tries.
  `JC` assembles with `JZ`'s opcode. `ILE` with a number first uses `ILT`'s
  register-number opcode.
- **`ExpectToken` in `src/Token.h`.** It fails when the token *is* of the
  expected kind.
- **Comments.** There is no comment syntax. `;` is dropped like any other
  unlisted character, and the words after it are lexed.

## Model

| member | source | states |
|---|---|---|
| Chars.RunEnd | src/Lexer.cpp:65-80 | the scanning loops stop at the end of the maximal run of the class: every character before the stop is in the class, the stop is the end or a character outside it |
| Chars.RunEndUnique | src/Lexer.cpp:65-80 | any position with the maximal-run property is the one the loop stops at |
| Numbers.Strtol10 | src/Assemble.cpp:50 | `strtol` never exceeds LONG_MAX (it clamps) |
| Numbers.StrtolOfDigits | src/Assemble.cpp:50 | on a digit string, `strtol` reads all of it and gives its decimal value clamped at LONG_MAX |
| Numbers.Stoul16 | src/Assemble.cpp:54 | `stoul` base 16 gives a value below 2^64 or fails with invalid_argument or out_of_range |
| Numbers.StoulOfPrefixedHex | src/Assemble.cpp:54 | on `0x` followed by hex digits, `stoul` gives their value, or out_of_range when it does not fit 64 bits |
| Numbers.ToU16 | src/Assemble.cpp:50 | the `uint16_t` cast keeps a value that fits, and otherwise gives the one 16-bit value that differs from it by a multiple of 2^16 |
| Numbers.ToU16Wrap | src/Assemble.cpp:169 | truncating part way through a sum does not change the truncated sum, so "origin + bytes so far" wraps like 16-bit addition |
| Numbers.NatToDecimal | src/Assemble.cpp:966 | `std::to_string` of a count gives a non-empty digit string without leading zero |
| Numbers.DecimalRoundTrip | src/Assemble.cpp:966 | the decimal value of `to_string(n)` is `n` |
| Numbers.StrtolOfToString | src/Assemble.cpp:47-52 | `strtol` reads `to_string(n)` back as `n`, for `n` up to LONG_MAX |
| Numbers.HexRoundTrip | src/Assemble.cpp:54 | the hex value of a value's hex digits is that value |
| Numbers.StoulOfHexText | src/Assemble.cpp:54 | `stoul` reads `0x` plus the hex digits of a 16-bit value back as that value |
| Tokens.TokenTypeToString | src/Token.h:40-61 | every kind has a non-empty name |
| Tokens.TokenTypeNameRoundTrip | src/Token.h:40-61 | the name determines the kind: reading the name back gives the kind |
| Tokens.TokenTypeNamesDistinct | src/Token.h:40-61 | different kinds have different names |
| Tokens.FetchToken | src/Token.h:63-67 | returns the token at the cursor and moves the cursor one on |
| Tokens.ExpectToken | src/Token.h:69-75 | fails exactly when the token at the cursor is of the expected kind, with both names the expected kind's; otherwise it is `FetchToken` |
| Opcodes.GroupsIncreasing | src/Defines/Opcodes.h:5-86 | each opcode group of the table is strictly increasing |
| Opcodes.DefinedOpcodesDistinct | src/Defines/Opcodes.h:5-88 | the 66 table opcodes are pairwise distinct; all but HLT are at most 0x40 and HLT is 0xFF |
| Opcodes.FamiliesConsecutive | src/Defines/Opcodes.h:12-67 | each three-operand family's four forms are its register form plus 0, 1, 2, 3 (register, immediate, reg-imm, imm-reg) |
| Opcodes.FamiliesInTable | src/Defines/Opcodes.h:12-67 | every family opcode lies below PUSH_R |
| Opcodes.FamiliesSpaced | src/Defines/Opcodes.h:12-67 | consecutive families are at least four opcodes apart |
| Opcodes.FamiliesApart | src/Defines/Opcodes.h:12-67 | any two families in table order are at least four opcodes apart |
| Opcodes.FormsInjective | src/Defines/Opcodes.h:12-67 | a family opcode determines both the family and the operand shape |
| Opcodes.NamedOpcodeValues | src/Defines/Opcodes.h:5-78 | the values of MOV_IM, MOV_R, NOT_R, CMP_R, CMP_RI, the ADD family and the seven jumps |
| Registers.RegisterTable | src/Defines/Registers.h:5-16 | register `i` is named `R` followed by `i` in decimal, and has index `i`, for `i` below 12 |
| Registers.RegisterIndicesDistinct | src/Defines/Registers.h:5-16 | the twelve register indices are distinct and below 12 |
| Registers.NamesStartWithR | src/Assemble.cpp:24-36 | every register name is `R` and at least one more character |
| Lexer.BackRun | src/Lexer.cpp:14-16 | the right trim stops after the last character that is not white space: everything after it is white space |
| Lexer.Trim | src/Lexer.cpp:9-19 | the result is a slice of the input with only white space (`isspace` in the C locale: space and `\t` to `\r`) cut on either side, and it neither starts nor ends with white space |
| Lexer.TrimmedShape | src/Lexer.cpp:9-19 | the trimmed line is the slice between the leading and trailing runs of white space |
| Lexer.TrimmedIdempotent | src/Lexer.cpp:9-19 | trimming twice is trimming once |
| Lexer.Punctuation | src/Lexer.cpp:114-123 | the punctuation switch never produces colon or semicolon tokens |
| Lexer.PunctuationTable | src/Lexer.cpp:114-123 | distinct punctuation characters give distinct kinds; `;`, `:` and digits give none |
| Lexer.ScanToken | src/Lexer.cpp:91-126 | one turn of the scan moves the cursor on by at least one; a token it yields has a piece of the line as text and may follow the tokens so far |
| Lexer.TokenizeWord | src/Lexer.cpp:21-63 | reads the maximal run of alphanumerics, `_` and `.`, and classifies it as mnemonic, register, ORG, known label or unknown |
| Lexer.TokenizeImmediate | src/Lexer.cpp:65-72 | skips `#` and reads the maximal digit run as an immediate |
| Lexer.TokenizeHex | src/Lexer.cpp:74-80 | reads the maximal alphanumeric run from the `0` as a hex literal |
| Lexer.ScanLine | src/Lexer.cpp:90-126 | the scanning loop appends exactly the tokens `Scan` specifies |
| Lexer.TokenizeLine | src/Lexer.cpp:82-129 | appends the line's tokens to those of earlier lines, keeps the earlier ones, and gives every new token a piece of the trimmed line as text |
| Lexer.LexLines | src/Lexer.cpp:131-146 | lexing a file is lexing its lines in order into one sequence |
| Lexer.ScanExtends | src/Lexer.cpp:91-126 | the scan only appends, at most one token per character |
| Lexer.ScanAdds | src/Lexer.cpp:91-126 | every token the scan appends has a piece of the line as text and may follow those before it |
| Lexer.LineTokensExtend | src/Lexer.cpp:82-129 | a line keeps the earlier tokens and adds at most one per character of the trimmed line |
| Lexer.LineTokensTexts | src/Lexer.cpp:82-129 | every token a line adds has a piece of the trimmed line as text |
| Lexer.LineTokensKinds | src/Lexer.cpp:56-62 | a non-label line adds no colon or semicolon tokens, and a label reference only for a label an earlier token defines |
| Lexer.LabelAndBlankLines | src/Lexer.cpp:85-88 | a label line adds exactly one label token, named by the line without its colon; a blank line adds nothing |
| Lexer.LexSnoc | src/Lexer.cpp:137-139 | one more line appends that line's tokens, lexed with every earlier token as context |
| Lexer.TrimmedPlain | src/Lexer.cpp:9-19 | a line that neither starts nor ends with white space is left as it is |
| Lexer.ScanAppends | src/Lexer.cpp:91-126 | a turn that yields a token appends it, and the scan goes on where the turn stopped |
| Lexer.ScanSkips | src/Lexer.cpp:94-97 | a turn that yields nothing appends nothing, and the scan goes on where the turn stopped |
| Lexer.ScanSpace | src/Lexer.cpp:94-97 | white space is passed over one character at a time |
| Lexer.ScanWord | src/Lexer.cpp:21-63 | a word is its maximal run of alphanumerics, `_` and `.`, classified as mnemonic, register, ORG, known label or unknown |
| Lexer.ScanImmediate | src/Lexer.cpp:65-72 | `#` and a maximal digit run give an immediate whose text is the digits |
| Lexer.ScanHex | src/Lexer.cpp:74-80 | `0x` and the maximal alphanumeric run from the `0` give a hex literal with that text |
| Lexer.ScanPunctuation | src/Lexer.cpp:114-125 | a punctuation character gives its one-character token |
| Lexer.ScanOverSpace | src/Lexer.cpp:94-97 | white space adds no token, and the scan goes on at the next character |
| Encoding.StringToRegister | src/Assemble.cpp:24-40 | succeeds exactly on `R0`..`R11`, with the index that names the register; any other text is fatal with that text |
| Encoding.StringToU16 | src/Assemble.cpp:10-15 | succeeds exactly when `stoul` does, with its value modulo 2^16 |
| Encoding.LittleEndian | src/Assemble.cpp:51-52 | two bytes, low byte first, whose value is the 16-bit number |
| Encoding.NumberBytes | src/Assemble.cpp:47-61 | two bytes; fatal exactly for a token that is no number or a hex literal `stoul` rejects |
| Encoding.NumberBytesValue | src/Assemble.cpp:47-61 | the two bytes are the `strtol` (immediate) or `stoul` (hex) value modulo 2^16 |
| Encoding.NumberOfDecimalText | src/Assemble.cpp:47-52 | an immediate written by `to_string(n)` gives `n` modulo 2^16, low byte first |
| Encoding.NumberOfHexText | src/Assemble.cpp:53-56 | a hex literal of a 16-bit value gives that value back, as bytes and as an origin |
| Encoding.LexedRegistersResolve | src/Lexer.cpp:39-51 | every word the lexer classifies as a register is one `StringToRegister` resolves, to the index naming it |
| Encoding.NextToken | src/Assemble.cpp:69-75 | moves to the next token when there is one; otherwise fatal, naming the last token's kind |
| Encoding.ExpectNextToken | src/Assemble.cpp:77-88 | moves to the next token and succeeds exactly when it exists and has the expected kind; the error names both kinds |
| Encoding.NextTokenC | src/Assemble.cpp:90-97 | succeeds exactly when a comma and one more token follow, and returns the token after the comma |
| Encoding.OperandsOfRegisters | src/Assemble.cpp:205-210 | operands that name registers encode to one index byte each, in source order |
| Encoding.Mov | src/Assemble.cpp:172-195 | MOV moves the cursor on and emits at most four bytes starting with MOV_IM or MOV_R |
| Encoding.MovLayout | src/Assemble.cpp:172-190 | with a register destination, MOV emits MOV_R or MOV_IM and then the destination and source bytes in source order |
| Encoding.Arith | src/Assemble.cpp:196-245 | a three-operand instruction emits at most six bytes, starting with one of its family's four forms |
| Encoding.ArithLayout | src/Assemble.cpp:196-240 | with a register destination, it emits the family form for the operand shape, then the three operands' bytes in source order |
| Encoding.ArithLayoutRegReg | src/Assemble.cpp:205-210 | register, register: the family's register form and three register bytes |
| Encoding.ArithLayoutRegNum | src/Assemble.cpp:211-217 | register, number: the reg-imm form, two register bytes, the number's two bytes |
| Encoding.ArithLayoutNumReg | src/Assemble.cpp:220-229 | number, register: the imm-reg form, the destination, the number's two bytes, the register |
| Encoding.ArithLayoutNumNum | src/Assemble.cpp:230-236 | number, number: the immediate form, the destination and both numbers' bytes |
| Encoding.OtherOperandsEmitNothing | src/Assemble.cpp:177-189 | an operand that is neither register nor number ends MOV or a three-operand instruction without emitting anything |
| Encoding.DestinationMustBeRegister | src/Assemble.cpp:191-194 | MOV and the three-operand families are fatal with any destination but a register token |
| Encoding.Unary | src/Assemble.cpp:496-505 | INC and DEC succeed exactly when the next token's text names a register, whatever its kind |
| Encoding.UnaryLayout | src/Assemble.cpp:496-505 | INC and DEC emit the opcode and the register's index |
| Encoding.Not | src/Assemble.cpp:656-662 | NOT succeeds exactly when two register names are separated by a comma, whatever their token kinds |
| Encoding.NotLayout | src/Assemble.cpp:656-662 | NOT emits NOT_R and the two register indices in source order |
| Encoding.Compare | src/Assemble.cpp:763-793 | a comparison emits at most four bytes, starting with its register, register-number or number-first opcode |
| Encoding.CompareLayout | src/Assemble.cpp:763-781 | with a register first, it emits the register or register-number opcode, then the operands' bytes |
| Encoding.CompareNumberFirst | src/Assemble.cpp:782-792 | a number then a register is always fatal; a number then anything else emits nothing |
| Encoding.CompareOtherKinds | src/Assemble.cpp:763-793 | a first operand that is neither register nor number, or a register then a comma then such an operand, emits nothing, and the cursor stays on that operand |
| Encoding.FindLabel | src/Assemble.cpp:953-960 | a label found lies past the jump's mnemonic, within the tokens |
| Encoding.FindLabelMatches | src/Assemble.cpp:955-959 | when the `i`-th entry is the first whose name matches the token consumed for it, the scan finds its address at the cursor after `i` more tokens |
| Encoding.FindLabelSound | src/Assemble.cpp:955-963 | whatever the scan finds is such a first match |
| Encoding.Goto | src/Assemble.cpp:953-967 | a jump emits exactly three bytes: the opcode and then two address bytes |
| Encoding.AddressBytes | src/Assemble.cpp:966 | the address written by `to_string` and read back by `strtol` is the 16-bit address itself |
| Encoding.GotoSpec | src/Assemble.cpp:953-967 | a jump succeeds exactly when some entry is the first match; it then emits the opcode and that entry's address, low byte first |
| Encoding.GotoMatched | src/Assemble.cpp:953-967 | at the first match, the jump emits the opcode and the entry's address, with the cursor on the token that matched |
| Encoding.GotoOfFound | src/Assemble.cpp:953-967 | a jump fails as the table scan does, or emits the opcode and the address the scan found |
| Encoding.GotoFirstEntry | src/Assemble.cpp:953-967 | an empty table makes every jump fatal; a jump naming the first entry takes its address |
| Encoding.Decode | src/Assemble.cpp:172-934 | the mnemonic chain: three-operand mnemonics name a family from the table, and the other opcodes it names are table opcodes or undefined ones |
| Encoding.DecodeFamilies | src/Assemble.cpp:196-762 | ADD, SUB, ADC, SBC, MUL, DIV, AND, OR, XOR, SHL and SHR select their own families |
| Encoding.DecodeKnown | src/Assemble.cpp:172-934 | the pass recognises exactly the 28 mnemonics it has branches for |
| Encoding.DecodeJC | src/Assemble.cpp:926-927 | JC assembles with JZ's opcode |
| Encoding.DecodeILE | src/Assemble.cpp:887-917 | ILE with a number first emits ILT's register-number opcode |
| Encoding.HaltEmitsFF | src/Assemble.cpp:932-933 | HLT emits exactly 0xFF and consumes nothing more |
| Encoding.LexedMnemonics | src/Lexer.cpp:27-62 | ten mnemonics lex as opcodes; the other eighteen lex as unknown, or as label once a label of that name exists |
| Encoding.RegisterOperand | src/Assemble.cpp:24-40 | the operand `Ri` is the single byte `i` |
| Encoding.DecimalOperand | src/Assemble.cpp:47-52 | an immediate written as the decimal text of `n` is `n` modulo 2^16, low byte first |
| Encoding.MovImmediate | src/Assemble.cpp:172-183 | `MOV Rd, #n` is exactly MOV_IM, `d` and the two bytes of `n` modulo 2^16, low byte first, with the cursor on the number |
| Encoding.ArithRegisters | src/Assemble.cpp:196-210 | a three-operand instruction on three registers is exactly its family's register form and the three indices in source order, with the cursor on the last register |
| Encoding.Instruction | src/Assemble.cpp:171-935 | an instruction moves the cursor forward, emits at most six bytes, and starts with an opcode of the table or an undefined one |
| Assembly.Step | src/Assemble.cpp:163-938 | one turn never moves the cursor back, and only appends to the label table and to the program |
| Assembly.PassAppendOnly | src/Assemble.cpp:161-939 | over a whole successful pass, the label table and the program only grow |
| Assembly.PassNext | src/Assemble.cpp:161-939 | a successful pass took a successful, append-only step and went on after the last token that step consumed |
| Assembly.OrgAndLabelSteps | src/Assemble.cpp:165-170 | ORG succeeds exactly with a hex token `stoul` accepts, and sets the origin to its value modulo 2^16; a label records origin plus program length modulo 2^16, duplicates included |
| Assembly.OtherTokensPassed | src/Assemble.cpp:164-936 | any other token kind changes nothing |
| Assembly.OpcodeStep | src/Assemble.cpp:171-935 | an opcode token appends exactly the bytes its instruction encodes and leaves the cursor where the instruction stops; origin and labels stay; at most six bytes, starting with a table or undefined opcode |
| Assembly.PassOfStep | src/Assemble.cpp:161-939 | after a successful turn, the pass continues from the token after the last one the turn consumed, with the turn's state |
| Assembly.PassOfFailedStep | src/Assemble.cpp:161-939 | a failed turn ends the pass with that turn's error |
| Assembly.OpcodeTurn | src/Assemble.cpp:170-171 | the turn on an opcode token whose instruction encodes `e` appends `e`'s bytes and stops where `e` stops |
| Assembly.InstructionPass | src/Assemble.cpp:161-939 | the program grows by each instruction's encoding in turn: an opcode token whose instruction encodes `e` appends `e`'s bytes and the pass goes on after its last token |
| Assembly.OrgPass | src/Assemble.cpp:164-166 | `ORG` and a hex literal that reads as `v` set the origin to `v`, and the pass goes on after the literal |
| Assembly.LabelPass | src/Assemble.cpp:167-169 | every label token, duplicate or not, appends its name with the current address (origin plus bytes so far, modulo 2^16) |
| Assembly.Assembler.constructor | src/Assemble.cpp:156-951 | the loop leaves the output `Assemble` specifies, and on success its origin and labels |
| Assembly.Assembler.Advance | src/Assemble.cpp:162-939 | after one turn, the rest of the pass ends as the pass from the turn's start would |
| Assembly.Assembler.Turn | src/Assemble.cpp:163-936 | one turn updates `origin` and `labels` in place, returns what `Step` specifies and leaves the output alone |
| Assembly.Assembler.GotoLabel | src/Assemble.cpp:953-967 | the loop over the label table returns what `Goto` specifies |
| Examples.LineMovR0 | src/Lexer.cpp:82-129 | the line `MOV R0, #5` lexes as a mnemonic, `R0`, a comma and the immediate `5` |
| Examples.LineMovR1 | src/Lexer.cpp:82-129 | the line `MOV R1, #10` lexes as a mnemonic, `R1`, a comma and the immediate `10` |
| Examples.LineAdd | src/Lexer.cpp:82-129 | the line `ADD R0, R0, R1` lexes as a mnemonic and three registers separated by commas |
| Examples.LineHalt | src/Lexer.cpp:82-129 | the line `HLT` lexes as one mnemonic |
| Examples.LineOrgZero | src/Lexer.cpp:82-129 | the line `ORG 0x0000` lexes as the directive and the hex literal `0x0000` |
| Examples.LineOrgHigh | src/Lexer.cpp:82-129 | the line `ORG 0x1000` lexes as the directive and the hex literal `0x1000` |
| Examples.LineJumpL | src/Lexer.cpp:82-129 | the line `JZ L` lexes as a mnemonic and `L`, a label token only when an earlier token defines `L` and an unknown token otherwise |
| Examples.LineLabelL | src/Lexer.cpp:85-88 | the line `L:` lexes as the label token `L` |
| Examples.LexSampleAfter | src/Lexer.cpp:131-146 | after any lines, the four sample lines lex as the fifteen sample tokens |
| Examples.SampleAfter | src/Lexer.cpp:131-146 | the sample tokens after any others sit at that offset, token by token |
| Examples.LexSample | src/Lexer.cpp:131-146 | the four sample lines alone lex as the fifteen sample tokens |
| Examples.SampleFirstMove | src/Assemble.cpp:172-183 | `MOV R0, #5` encodes as 00 00 05 00 |
| Examples.SampleSecondMove | src/Assemble.cpp:172-183 | `MOV R1, #10` encodes as 00 01 0A 00 |
| Examples.SampleAddAndHalt | src/Assemble.cpp:196-210 | `ADD R0, R0, R1` encodes as 06 00 00 01, and `HLT` as FF |
| Examples.SampleRunFirst | src/Assemble.cpp:170-171 | the first move appends 00 00 05 00 to the empty program and the pass goes on after `#5` |
| Examples.SampleRunSecond | src/Assemble.cpp:170-171 | the second move appends 00 01 0A 00 and the pass goes on after `#10` |
| Examples.SampleRunRest | src/Assemble.cpp:161-939 | the addition and the halt append 06 00 00 01 and FF, and the pass ends after `HLT` |
| Examples.SampleShape | src/Assemble.cpp:161-939 | from any offset the sample tokens start at, the pass with nothing defined outputs the four encodings one after the other |
| Examples.SampleAssembles | src/Assemble.cpp:161-939 | the sample tokens assemble to 00 00 05 00 00 01 0A 00 06 00 00 01 FF |
| Examples.SampleProgram | src/Assemble.cpp:161-939 | the lines `MOV R0, #5`, `MOV R1, #10`, `ADD R0, R0, R1`, `HLT` lex as the sample tokens and assemble to 00 00 05 00 00 01 0A 00 06 00 00 01 FF |
| Examples.HexTextZero | src/Assemble.cpp:10-15 | the literal `0x0000` reads as 0 |
| Examples.OrgZeroSampleShape | src/Assemble.cpp:161-939 | `ORG 0x0000` before the sample tokens leaves the origin at 0 and the output unchanged |
| Examples.OrgZeroSampleProgram | src/Assemble.cpp:161-939 | the same lines after `ORG 0x0000`, lexed and assembled, give the same bytes |
| Examples.OrgJumpInstruction | src/Assemble.cpp:953-967 | `JZ L`, with `L` the only label and at 0x1000, encodes as 37 00 10 |
| Examples.OrgJumpOrigin | src/Assemble.cpp:164-166 | `ORG 0x1000` sets the origin to 0x1000 |
| Examples.OrgJumpLabel | src/Assemble.cpp:167-169 | the label defined right after `ORG 0x1000` gets the address 0x1000 |
| Examples.OrgJumpEnd | src/Assemble.cpp:170-171 | the jump to that label ends the run with program 37 00 10 |
| Examples.OrgJumpShape | src/Assemble.cpp:161-939 | the run over these tokens outputs 37 00 10 |
| Examples.LexOrgJump | src/Lexer.cpp:131-146 | the lines `ORG 0x1000`, `L:`, `JZ L` lex with `L` in the jump as a label token |
| Examples.OrgJumpProgram | src/Assemble.cpp:161-939 | the lines `ORG 0x1000`, `L:`, `JZ L`, lexed and assembled, give 37 00 10 |
| Examples.ForwardJumpShape | src/Assemble.cpp:953-963 | a jump whose operand is an unknown token stops the run with "Invalid LABEL" when no label is defined |
| Examples.ForwardJumpFails | src/Lexer.cpp:56-62 | the lines `JZ L`, `L:` lex with `L` in the jump as an unknown token, and the run stops with "Invalid LABEL" |
| Examples.LabelDefinedTwice | src/Assemble.cpp:167-169 | two label tokens with the same name give two table entries at the same address |

## Left out

- Reading the source file in `Lexer::LexFile` is not modelled. The file's lines are a parameter of `Lexer.LexLines`.
- Writing `output.bin` (`src/Assemble.cpp:941-950`) is not modelled. The program the run would write is the `output` field.
- The log messages (`INFO`, `ERROR`) and the command line in `src/main.cpp` are not modelled. `src/Log/Log.cpp` and `src/main.cpp` are not part of this model.
- `exit(1)` and an uncaught `std::stoul` exception become a `Failure` that carries the reason. Bytes pushed before the fatal call are lost with the process, so the model drops them.
- Numbers.Strtol10: leading whitespace and signs are not modelled, because the lexer never puts them in an immediate's text.
- Numbers.Stoul16: leading whitespace and signs are not modelled, for the same reason.
- Character classes cover ASCII only (the "C" locale). Any other character is in none of the classes.
- `PushU16`, `PushNumberU8`, `StringToU8`, `ExpectNextTokenV`, `ExpectNextTokenB` and `GetOperands` (`src/Assemble.cpp:17-22, 42-45, 63-67, 99-154`) are left out. The pass never calls them.
- The cursor helpers and encoders return their advanced cursor instead of updating `int& pos` in place. The copies of `tokens` the C++ passes by value make no observable difference.
- `INC_R`, `DEC_R` and the `IGT`/`ILT`/`IGE`/`ILE` opcodes have no values anywhere in the source, so the model keeps them as parameters. As written the source does not compile, because these names are undefined and `GotoLabel` is not declared in `src/Assemble.h`.
- Encoding.Mov, Encoding.Arith, Encoding.Compare and Encoding.Instruction only bound their results in their own contracts. The exact bytes of every branch are stated by the lemmas next to them: the layout lemmas, `CompareNumberFirst`, `CompareOtherKinds` and `OtherOperandsEmitNothing`.
