/**
 * The lexer (src/Lexer.cpp): each source line is trimmed and then either
 * taken whole as a label definition or scanned left to right into tokens,
 * which are appended to one sequence for the whole file.  A word is
 * classified against the mnemonics, the register names, `ORG` and the
 * labels already defined, in that order.
 */
module Lexer {
  import opened Chars
  import opened Outcomes
  import opened Tokens
  import Registers

  /** The only words the lexer classifies as opcodes. */
  const Mnemonics: seq<string> := ["MOV", "ADD", "SUB", "MUL", "DIV", "ADC", "SBC", "CMP", "JZ", "HLT"]

  // ---------------------------------------------------------------- trim

  /**
   * The start of the maximal run of white space that ends at `hi` and does
   * not reach below `lo`.
   */
  function BackRun(s: string, lo: nat, hi: nat): (j: nat)
    requires lo <= hi <= |s|
    ensures lo <= j <= hi
    ensures forall k :: j <= k < hi ==> IsSpace(s[k])
    ensures j == lo || !IsSpace(s[j - 1])
    decreases hi - lo
  {
    if lo < hi && IsSpace(s[hi - 1]) then BackRun(s, lo, hi - 1) else hi
  }

  /** `s` without its leading and trailing white space. */
  function Trimmed(s: string): string {
    var i := RunEnd(s, 0, Space);
    s[i..BackRun(s, i, |s|)]
  }

  /**
   * `trim`: removes exactly the leading and trailing white space.  The
   * removed prefix and suffix are all white space, and what is left
   * neither starts nor ends with white space.
   */
  method Trim(s: string) returns (t: string)
    ensures t == Trimmed(s)
    ensures exists i, j :: 0 <= i <= j <= |s| && t == s[i..j] && AllIn(s[..i], Space) && AllIn(s[j..], Space)
    ensures t == [] || (!IsSpace(t[0]) && !IsSpace(t[|t| - 1]))
  {
    var i := 0;
    while i < |s| && IsSpace(s[i])
      invariant i <= |s|
      invariant RunEnd(s, i, Space) == RunEnd(s, 0, Space)
    {
      i := i + 1;
    }
    var j := |s|;
    while j > i && IsSpace(s[j - 1])
      invariant i <= j <= |s|
      invariant BackRun(s, i, j) == BackRun(s, i, |s|)
    {
      j := j - 1;
    }
    assert i == RunEnd(s, 0, Space) && j == BackRun(s, i, |s|);
    t := s[i..j];
    TrimmedShape(s);
    assert AllIn(s[..i], Space) && AllIn(s[j..], Space);
    assert t == [] || (t[0] == s[i] && t[|t| - 1] == s[j - 1]);
  }

  /** What `Trimmed` keeps and what it drops, stated without its definition. */
  lemma TrimmedShape(s: string)
    ensures var i := RunEnd(s, 0, Space);
      var j := BackRun(s, i, |s|);
      && Trimmed(s) == s[i..j] && AllIn(s[..i], Space) && AllIn(s[j..], Space)
      && (i == j || (!IsSpace(s[i]) && !IsSpace(s[j - 1])))
  {
    var i := RunEnd(s, 0, Space);
    var j := BackRun(s, i, |s|);
    assert forall k :: 0 <= k < i ==> s[..i][k] == s[k];
    assert forall k :: 0 <= k < |s| - j ==> s[j..][k] == s[j + k];
  }

  /** Trimming twice is trimming once. */
  lemma TrimmedIdempotent(s: string)
    ensures Trimmed(Trimmed(s)) == Trimmed(s)
  {
    var t := Trimmed(s);
    TrimmedShape(s);
    if t != [] {
      assert !IsSpace(t[0]);
      RunEndUnique(t, 0, Space, 0);
      assert BackRun(t, 0, |t|) == |t|;
      assert t[0..|t|] == t;
    }
  }

  // ------------------------------------------------------ word classes

  /**
   * The kind a word gets: a mnemonic, else a register name, else `ORG`,
   * else a label already defined among the earlier tokens, else unknown.
   */
  function ClassifyWord(w: string, prior: seq<Token>): TokenType {
    if w in Mnemonics then Opcode
    else if w in Registers.Names then Reg
    else if w == "ORG" then Org
    else if Token(Label, w) in prior then Label
    else Unknown
  }

  /** The seven punctuation characters that become tokens; every other one is dropped. */
  function Punctuation(c: char): (r: Option<TokenType>)
    ensures r.Some? ==> r.value != Colon && r.value != Semicolon
  {
    match c
    case ',' => Some(Comma)
    case '(' => Some(LParen)
    case ')' => Some(RParen)
    case '[' => Some(LBrace)
    case ']' => Some(RBrace)
    case '{' => Some(LCurlyBrace)
    case '}' => Some(RCurlyBrace)
    case _ => None
  }

  /**
   * The punctuation table is one-to-one, and it drops `;`, `:` and the
   * digits (a digit that starts no hex literal makes no token).
   */
  lemma PunctuationTable(c: char, d: char)
    ensures Punctuation(c).Some? && Punctuation(c) == Punctuation(d) ==> c == d
    ensures c == ';' || c == ':' || IsDigit(c) ==> Punctuation(c) == None
  {
  }

  /** A trimmed line whose first colon is its last character defines a label. */
  predicate IsLabelLine(t: string) {
    |t| > 0 && t[|t| - 1] == ':' && ':' !in t[..|t| - 1]
  }

  // --------------------------------------------------------- scanning

  /** What one turn of the scan reads: at most one token, and where the next turn starts. */
  datatype Lexeme = Lexeme(tok: Option<Token>, next: nat)

  /**
   * One turn of the scan at `line[pos]`: whitespace and unlisted characters
   * yield nothing; `#` starts an immediate, `0x` a hex literal, a letter,
   * `_` or `.` a word, and each punctuation character is a token of its own.
   * The turn always moves on, and what it yields is a piece of the line
   * that may follow `acc`.
   */
  function ScanToken(line: string, pos: nat, acc: seq<Token>): (r: Lexeme)
    requires pos < |line|
    ensures pos < r.next <= |line|
    ensures r.tok.Some? ==> Addable(r.tok.value, acc)
    ensures r.tok.Some? ==> r.tok.value.value == line[pos..r.next] || r.tok.value.value == line[pos + 1..r.next]
  {
    var c := line[pos];
    if IsSpace(c) then Lexeme(None, pos + 1)
    else if c == '#' then
      var e := RunEnd(line, pos + 1, Digit);
      Lexeme(Some(Token(Immediate, line[pos + 1..e])), e)
    else if c == '0' && pos + 1 < |line| && line[pos + 1] == 'x' then
      var e := RunEnd(line, pos, Alnum);
      Lexeme(Some(Token(Hex, line[pos..e])), e)
    else if IsWordStart(c) then
      var e := RunEnd(line, pos, WordChar);
      var w := line[pos..e];
      Lexeme(Some(Token(ClassifyWord(w, acc), w)), e)
    else
      match Punctuation(c)
      case Some(k) => Lexeme(Some(Token(k, [c])), pos + 1)
      case None => Lexeme(None, pos + 1)
  }

  /** A token the scan may append after `acc`: no colon or semicolon, and a label only when seen before. */
  predicate Addable(tok: Token, acc: seq<Token>) {
    && tok.kind != Colon && tok.kind != Semicolon
    && (tok.kind == Label ==> Token(Label, tok.value) in acc)
  }

  /**
   * The scan of a trimmed line from `pos` on, appending to `acc` (which
   * holds every token of the file so far, this line's included).
   */
  function Scan(line: string, pos: nat, acc: seq<Token>): seq<Token>
    requires pos <= |line|
    decreases |line| - pos
  {
    if pos == |line| then acc
    else
      var l := ScanToken(line, pos, acc);
      match l.tok
      case Some(tok) => Scan(line, l.next, acc + [tok])
      case None => Scan(line, l.next, acc)
  }

  /** The tokens of one line appended to those of the earlier lines. */
  function LineTokens(line: string, prior: seq<Token>): seq<Token> {
    var t := Trimmed(line);
    if t == [] then prior
    else if IsLabelLine(t) then prior + [Token(Label, t[..|t| - 1])]
    else Scan(t, 0, prior)
  }

  /** The tokens of a whole file, given as its lines. */
  function Lex(lines: seq<string>): seq<Token>
    decreases |lines|
  {
    if lines == [] then [] else LineTokens(lines[|lines| - 1], Lex(lines[..|lines| - 1]))
  }

  /** One more line appends that line's tokens, with every earlier token as what came before. */
  lemma LexSnoc(lines: seq<string>, line: string)
    ensures Lex(lines + [line]) == LineTokens(line, Lex(lines))
  {
    assert (lines + [line])[..|lines|] == lines;
  }

  // ---------------------------------------------------------- methods

  /**
   * `TokenizeWord`: takes the maximal run of alphanumerics, `_` and `.`
   * from `pos` and classifies it against the earlier tokens.
   */
  method TokenizeWord(pos: nat, line: string, tokens: seq<Token>) returns (tok: Token, next: nat)
    requires pos <= |line|
    ensures next == RunEnd(line, pos, WordChar)
    ensures tok == Token(ClassifyWord(line[pos..next], tokens), line[pos..next])
  {
    next := pos;
    while next < |line| && IsWordChar(line[next])
      invariant pos <= next <= |line|
      invariant RunEnd(line, next, WordChar) == RunEnd(line, pos, WordChar)
    {
      next := next + 1;
    }
    var value := line[pos..next];
    if value in Mnemonics {
      return Token(Opcode, value), next;
    }
    if value in Registers.Names {
      return Token(Reg, value), next;
    }
    if value == "ORG" {
      return Token(Org, value), next;
    }
    var k := 0;
    while k < |tokens|
      invariant k <= |tokens|
      invariant Token(Label, value) !in tokens[..k]
    {
      if tokens[k].kind == Label && tokens[k].value == value {
        return Token(Label, value), next;
      }
      k := k + 1;
    }
    assert tokens[..k] == tokens;
    tok := Token(Unknown, value);
  }

  /** `TokenizeImmediate`: skips the `#` and takes the maximal run of decimal digits. */
  method TokenizeImmediate(pos: nat, line: string) returns (tok: Token, next: nat)
    requires pos < |line|
    ensures next == RunEnd(line, pos + 1, Digit)
    ensures tok == Token(Immediate, line[pos + 1..next])
  {
    next := pos + 1;
    var start := next;
    while next < |line| && IsDigit(line[next])
      invariant start <= next <= |line|
      invariant RunEnd(line, next, Digit) == RunEnd(line, start, Digit)
    {
      next := next + 1;
    }
    tok := Token(Immediate, line[start..next]);
  }

  /** `TokenizeHex`: takes the maximal alphanumeric run from `pos`, `0x` included. */
  method TokenizeHex(pos: nat, line: string) returns (tok: Token, next: nat)
    requires pos <= |line|
    ensures next == RunEnd(line, pos, Alnum)
    ensures tok == Token(Hex, line[pos..next])
  {
    next := pos;
    while next < |line| && IsAlnum(line[next])
      invariant pos <= next <= |line|
      invariant RunEnd(line, next, Alnum) == RunEnd(line, pos, Alnum)
    {
      next := next + 1;
    }
    tok := Token(Hex, line[pos..next]);
  }

  /**
   * `TokenizeLine`: appends the tokens of one line.  Earlier tokens are
   * never changed, and each new token's text is a piece of the trimmed line.
   */
  method TokenizeLine(line: string, tokens: seq<Token>) returns (result: seq<Token>)
    ensures result == LineTokens(line, tokens)
    ensures tokens <= result
    ensures forall k :: |tokens| <= k < |result| ==> IsPieceOf(result[k].value, Trimmed(line))
  {
    var t := Trim(line);
    result := tokens;
    if |t| > 0 {
      if IsLabelLine(t) {
        result := result + [Token(Label, t[..|t| - 1])];
      } else {
        result := ScanLine(t, tokens);
      }
    }
    LineTokensExtend(line, tokens);
    LineTokensTexts(line, tokens);
  }

  /** The loop of `TokenizeLine` over a trimmed line that is no label definition. */
  method ScanLine(t: string, tokens: seq<Token>) returns (result: seq<Token>)
    ensures result == Scan(t, 0, tokens)
  {
    result := tokens;
    var pos := 0;
    while pos < |t|
      invariant pos <= |t|
      invariant Scan(t, pos, result) == Scan(t, 0, tokens)
      decreases |t| - pos
    {
      var c := t[pos];
      ghost var turn := ScanToken(t, pos, result);
      ghost var before := result;
      if IsSpace(c) {
        pos := pos + 1;
        continue;
      }
      if c == '#' {
        var tok;
        tok, pos := TokenizeImmediate(pos, t);
        result := result + [tok];
        assert turn == Lexeme(Some(tok), pos);
        continue;
      }
      if c == '0' && pos + 1 < |t| && t[pos + 1] == 'x' {
        var tok;
        tok, pos := TokenizeHex(pos, t);
        result := result + [tok];
        assert turn == Lexeme(Some(tok), pos);
        continue;
      }
      if IsWordStart(c) {
        var tok;
        tok, pos := TokenizeWord(pos, t, result);
        result := result + [tok];
        assert turn == Lexeme(Some(tok), pos);
        continue;
      }
      match Punctuation(c) {
        case Some(k) => result := result + [Token(k, [c])];
        case None =>
      }
      pos := pos + 1;
      assert turn.next == pos && result == before + (if turn.tok.Some? then [turn.tok.value] else []);
    }
  }

  /** `LexFile` without the file: tokenizes the lines in order into one sequence. */
  method LexLines(lines: seq<string>) returns (tokens: seq<Token>)
    ensures tokens == Lex(lines)
  {
    tokens := [];
    var i := 0;
    while i < |lines|
      invariant i <= |lines|
      invariant tokens == Lex(lines[..i])
    {
      tokens := TokenizeLine(lines[i], tokens);
      assert lines[..i + 1][..i] == lines[..i];
      i := i + 1;
    }
    assert lines[..i] == lines;
  }

  // ----------------------------------------------------------- lemmas

  /** `w` is a contiguous piece of `s`. */
  predicate IsPieceOf(w: string, s: string) {
    exists i, j :: 0 <= i <= j <= |s| && w == s[i..j]
  }

  /**
   * The tokens of `r` from index `from` on could have come from scanning
   * `line`: each has a piece of the line as its text, none is a colon or
   * semicolon token, and a label token only repeats a label token before it.
   */
  predicate ScannedFrom(r: seq<Token>, from: nat, line: string) {
    forall k :: from <= k < |r| ==> ScannedAt(r, k, line)
  }

  predicate ScannedAt(r: seq<Token>, k: nat, line: string)
    requires k < |r|
  {
    && IsPieceOf(r[k].value, line)
    && r[k].kind != Colon && r[k].kind != Semicolon
    && (r[k].kind == Label ==> Token(Label, r[k].value) in r[..k])
  }

  /**
   * Scanning only appends: the earlier tokens stay as they were, and each
   * character of the line yields at most one token.
   */
  lemma {:induction false} ScanExtends(line: string, pos: nat, acc: seq<Token>)
    requires pos <= |line|
    ensures acc <= Scan(line, pos, acc)
    ensures |Scan(line, pos, acc)| - |acc| <= |line| - pos
    decreases |line| - pos
  {
    if pos < |line| {
      var l := ScanToken(line, pos, acc);
      match l.tok {
        case Some(tok) =>
          ScanExtends(line, l.next, acc + [tok]);
          assert acc <= acc + [tok];
        case None =>
          ScanExtends(line, l.next, acc);
      }
    }
  }

  /**
   * Every token the scan adds has a piece of the line as its text, is never
   * a colon or semicolon token, and is a label reference only when the same
   * label token already stands before it.
   */
  lemma {:induction false} ScanAdds(line: string, pos: nat, acc: seq<Token>)
    requires pos <= |line|
    ensures ScannedFrom(Scan(line, pos, acc), |acc|, line)
    decreases |line| - pos, 0
  {
    if pos < |line| {
      var l := ScanToken(line, pos, acc);
      match l.tok {
        case Some(tok) =>
          if tok.value == line[pos..l.next] {
            ScanStep(line, l.next, acc, tok, pos, l.next);
          } else {
            ScanStep(line, l.next, acc, tok, pos + 1, l.next);
          }
        case None =>
          ScanAdds(line, l.next, acc);
      }
    }
  }

  /** One appended token followed by the rest of the scan keeps the `ScanAdds` facts. */
  lemma {:induction false} ScanStep(line: string, e: nat, acc: seq<Token>, tok: Token, i: nat, j: nat)
    requires e <= |line| && i <= j <= |line|
    requires tok.value == line[i..j] && Addable(tok, acc)
    ensures ScannedFrom(Scan(line, e, acc + [tok]), |acc|, line)
    decreases |line| - e, 1
  {
    var acc2 := acc + [tok];
    var r := Scan(line, e, acc2);
    ScanExtends(line, e, acc2);
    ScanAdds(line, e, acc2);
    assert r[|acc|] == tok;
    assert r[..|acc|] == acc;
    assert ScannedAt(r, |acc|, line);
  }

  /** The whole-line facts: earlier tokens kept, at most one token per character. */
  lemma LineTokensExtend(line: string, prior: seq<Token>)
    ensures prior <= LineTokens(line, prior)
    ensures |LineTokens(line, prior)| - |prior| <= |Trimmed(line)|
  {
    var t := Trimmed(line);
    if t != [] && !IsLabelLine(t) {
      ScanExtends(t, 0, prior);
    }
  }

  /** Each token a line adds has a piece of the trimmed line as its text. */
  lemma LineTokensTexts(line: string, prior: seq<Token>)
    ensures var r := LineTokens(line, prior);
      forall k :: |prior| <= k < |r| ==> IsPieceOf(r[k].value, Trimmed(line))
  {
    var t := Trimmed(line);
    if t != [] {
      if IsLabelLine(t) {
        assert t[0..|t| - 1] == t[..|t| - 1];
      } else {
        ScanAdds(t, 0, prior);
        var r := Scan(t, 0, prior);
        forall k | |prior| <= k < |r| ensures IsPieceOf(r[k].value, t) {
          assert ScannedAt(r, k, t);
        }
      }
    }
  }

  /**
   * A line that is not a label definition never yields colon or semicolon
   * tokens, and yields a label reference only for a label that an earlier
   * token already names: a use before the definition lexes as unknown.
   */
  lemma LineTokensKinds(line: string, prior: seq<Token>)
    requires !IsLabelLine(Trimmed(line))
    ensures var r := LineTokens(line, prior);
      forall k :: |prior| <= k < |r| ==>
        && r[k].kind != Colon && r[k].kind != Semicolon
        && (r[k].kind == Label ==> Token(Label, r[k].value) in r[..k])
  {
    var t := Trimmed(line);
    if t != [] {
      ScanAdds(t, 0, prior);
      var r := Scan(t, 0, prior);
      forall k | |prior| <= k < |r|
        ensures r[k].kind != Colon && r[k].kind != Semicolon
        ensures r[k].kind == Label ==> Token(Label, r[k].value) in r[..k]
      {
        assert ScannedAt(r, k, t);
      }
    }
  }

  /**
   * A label line yields exactly one token: a label whose text is the
   * trimmed line without its final colon.  A blank line yields nothing.
   */
  lemma LabelAndBlankLines(line: string, prior: seq<Token>)
    ensures IsLabelLine(Trimmed(line)) ==>
      exists name :: LineTokens(line, prior) == prior + [Token(Label, name)] && name + ":" == Trimmed(line)
    ensures Trimmed(line) == [] ==> LineTokens(line, prior) == prior
  {
    var t := Trimmed(line);
    if IsLabelLine(t) {
      var name := t[..|t| - 1];
      assert name + ":" == t;
    }
  }

  // ------------------------------------------------ one turn, case by case

  /** A line that neither starts nor ends with white space is its own trim. */
  lemma TrimmedPlain(s: string)
    requires s != [] && !IsSpace(s[0]) && !IsSpace(s[|s| - 1])
    ensures Trimmed(s) == s
  {
    RunEndUnique(s, 0, Space, 0);
    assert s[0..|s|] == s;
  }

  /** A turn that yields `tok` and stops at `next` appends `tok` and hands the rest of the line on. */
  lemma ScanAppends(line: string, pos: nat, acc: seq<Token>, tok: Token, next: nat)
    requires pos < |line| && ScanToken(line, pos, acc) == Lexeme(Some(tok), next)
    ensures Scan(line, pos, acc) == Scan(line, next, acc + [tok])
  {
  }

  /** A turn that yields nothing hands the rest of the line on unchanged. */
  lemma ScanSkips(line: string, pos: nat, acc: seq<Token>, next: nat)
    requires pos < |line| && ScanToken(line, pos, acc) == Lexeme(None, next)
    ensures Scan(line, pos, acc) == Scan(line, next, acc)
  {
  }

  /** White space yields nothing and the scan moves one character on. */
  lemma ScanSpace(line: string, pos: nat, acc: seq<Token>)
    requires pos < |line| && IsSpace(line[pos])
    ensures ScanToken(line, pos, acc) == Lexeme(None, pos + 1)
  {
  }

  /**
   * A word is read up to the end of its maximal run, `e`, and classified
   * against the tokens so far.
   */
  lemma ScanWord(line: string, pos: nat, e: nat, acc: seq<Token>)
    requires pos < e <= |line| && IsWordStart(line[pos])
    requires forall k :: pos < k < e ==> IsWordChar(line[k])
    requires e == |line| || !IsWordChar(line[e])
    ensures ScanToken(line, pos, acc) == Lexeme(Some(Token(ClassifyWord(line[pos..e], acc), line[pos..e])), e)
  {
    RunEndUnique(line, pos, WordChar, e);
  }

  /** `#` and the maximal run of digits after it, ending at `e`, are an immediate of those digits. */
  lemma ScanImmediate(line: string, pos: nat, e: nat, acc: seq<Token>)
    requires pos < e <= |line| && line[pos] == '#'
    requires forall k :: pos < k < e ==> IsDigit(line[k])
    requires e == |line| || !IsDigit(line[e])
    ensures ScanToken(line, pos, acc) == Lexeme(Some(Token(Immediate, line[pos + 1..e])), e)
  {
    RunEndUnique(line, pos + 1, Digit, e);
  }

  /** `0x` and the maximal alphanumeric run it starts, ending at `e`, are a hex literal. */
  lemma ScanHex(line: string, pos: nat, e: nat, acc: seq<Token>)
    requires pos + 1 < e <= |line| && line[pos] == '0' && line[pos + 1] == 'x'
    requires forall k :: pos < k < e ==> IsAlnum(line[k])
    requires e == |line| || !IsAlnum(line[e])
    ensures ScanToken(line, pos, acc) == Lexeme(Some(Token(Hex, line[pos..e])), e)
  {
    RunEndUnique(line, pos, Alnum, e);
  }

  /** A punctuation character is a token of its own. */
  lemma ScanPunctuation(line: string, pos: nat, acc: seq<Token>)
    requires pos < |line| && Punctuation(line[pos]).Some?
    ensures ScanToken(line, pos, acc) == Lexeme(Some(Token(Punctuation(line[pos]).value, [line[pos]])), pos + 1)
  {
  }

  /** White space is passed over without a token, and the scan goes on at the next character. */
  lemma ScanOverSpace(line: string, pos: nat, acc: seq<Token>)
    requires pos < |line| && IsSpace(line[pos])
    ensures Scan(line, pos, acc) == Scan(line, pos + 1, acc)
  {
    ScanSpace(line, pos, acc);
    ScanSkips(line, pos, acc, pos + 1);
  }
}
