/**
 * Tokens (src/Token.h): the sixteen token kinds, the token record, the
 * kinds' printable names and the two cursor primitives declared beside them.
 */
module Tokens {
  import opened Outcomes

  datatype TokenType =
    | Opcode
    | Org
    | Immediate
    | Hex
    | Reg
    | Label
    | LParen
    | RParen
    | LBrace
    | RBrace
    | LCurlyBrace
    | RCurlyBrace
    | Colon
    | Semicolon
    | Comma
    | Unknown

  /** A token: its kind and the text it was made from. */
  datatype Token = Token(kind: TokenType, value: string)

  /** A token read from a sequence and where the cursor stands afterwards. */
  datatype Cursor = Cursor(tok: Token, pos: nat)

  /** The printable name of each kind, as used in the diagnostics. */
  function TokenTypeToString(t: TokenType): (name: string)
    ensures |name| > 0
  {
    match t
    case Opcode => "opcode"
    case Org => "org"
    case Immediate => "immediate"
    case Hex => "hex"
    case Reg => "reg"
    case Label => "label"
    case LParen => "lparen"
    case RParen => "rparen"
    case LBrace => "lbrace"
    case RBrace => "rbrace"
    case LCurlyBrace => "lcurlybrace"
    case RCurlyBrace => "rcurlybrace"
    case Colon => "colon"
    case Semicolon => "semicolon"
    case Comma => "comma"
    case Unknown => "unknown"
  }

  /** Reads a printed name back; the inverse of `TokenTypeToString`. */
  function TokenTypeFromString(name: string): Option<TokenType> {
    if name == "opcode" then Some(Opcode)
    else if name == "org" then Some(Org)
    else if name == "immediate" then Some(Immediate)
    else if name == "hex" then Some(Hex)
    else if name == "reg" then Some(Reg)
    else if name == "label" then Some(Label)
    else if name == "lparen" then Some(LParen)
    else if name == "rparen" then Some(RParen)
    else if name == "lbrace" then Some(LBrace)
    else if name == "rbrace" then Some(RBrace)
    else if name == "lcurlybrace" then Some(LCurlyBrace)
    else if name == "rcurlybrace" then Some(RCurlyBrace)
    else if name == "colon" then Some(Colon)
    else if name == "semicolon" then Some(Semicolon)
    else if name == "comma" then Some(Comma)
    else if name == "unknown" then Some(Unknown)
    else None
  }

  /** Every kind's name reads back as that kind. */
  lemma TokenTypeNameRoundTrip(t: TokenType)
    ensures TokenTypeFromString(TokenTypeToString(t)) == Some(t)
  {
    match t
    case Opcode =>
    case Org =>
    case Immediate =>
    case Hex =>
    case Reg =>
    case Label =>
    case LParen =>
    case RParen =>
    case LBrace =>
    case RBrace =>
    case LCurlyBrace =>
    case RCurlyBrace =>
    case Colon =>
    case Semicolon =>
    case Comma =>
    case Unknown =>
  }

  /** The sixteen kinds have sixteen different names. */
  lemma TokenTypeNamesDistinct(a: TokenType, b: TokenType)
    requires a != b
    ensures TokenTypeToString(a) != TokenTypeToString(b)
  {
    TokenTypeNameRoundTrip(a);
    TokenTypeNameRoundTrip(b);
  }

  /**
   * `FetchToken`: the token at the cursor, and the cursor moved one place.
   * The source does no bounds check, so the cursor must be in range.
   */
  method FetchToken(tokens: seq<Token>, pos: nat) returns (tok: Token, next: nat)
    requires pos < |tokens|
    ensures tok == tokens[pos] && next == pos + 1
  {
    tok := tokens[pos];
    next := pos + 1;
  }

  /**
   * `ExpectToken`: fetches the token at the cursor and fails exactly when
   * its kind IS `wanted` (the source's test is inverted); otherwise returns
   * it with the cursor moved one place.
   */
  method ExpectToken(tokens: seq<Token>, wanted: TokenType, pos: nat) returns (r: Result<Cursor>)
    requires pos < |tokens|
    ensures r.Failure? <==> tokens[pos].kind == wanted
    ensures r.Failure? ==> r.error == Unexpected(TokenTypeToString(wanted), TokenTypeToString(wanted))
    ensures r.Success? ==> r.value == Cursor(tokens[pos], pos + 1)
  {
    var tok, next := FetchToken(tokens, pos);
    if tok.kind == wanted {
      return Failure(Unexpected(TokenTypeToString(wanted), TokenTypeToString(tok.kind)));
    }
    r := Success(Cursor(tok, next));
  }
}
