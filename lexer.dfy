/**
 * The byte-level scanner (Go package `lexer`). A Go string is a sequence of
 * bytes; here each byte is one `char`, and byte 0 doubles as the end-of-input
 * marker exactly as in the source.
 */
module Lexer {
  import opened Token

  const NUL: char := 0 as char

  /** The byte at index i, or 0 at or past the end of the input. */
  function CharAt(input: string, i: nat): char
  {
    if i < |input| then input[i] else NUL
  }

  predicate IsLetter(c: char) { ('a' <= c <= 'z') || ('A' <= c <= 'Z') || c == '_' }

  /** Digits and the dot both continue a number. */
  predicate IsDigit(c: char) { ('0' <= c <= '9') || c == '.' }

  predicate IsWhitespace(c: char) { c == ' ' || c == '\t' || c == '\n' || c == '\r' }

  /** A `//` comment runs up to a newline, carriage return, tab or the end. */
  predicate InComment(c: char) { c != '\n' && c != '\r' && c != '\t' && c != NUL }

  /** A string literal runs up to the next double quote or the end. */
  predicate InString(c: char) { c != '"' && c != NUL }

  /** The first index at or after i whose byte does not satisfy p: the end of the
      maximal run of p-bytes that starts at i. */
  function SkipWhile(input: string, i: nat, p: char -> bool): (j: nat)
    requires !p(NUL)
    ensures i <= j && (j == i || j <= |input|)
    ensures !p(CharAt(input, j))
    ensures forall k :: i <= k < j ==> p(CharAt(input, k))
    decreases |input| - i
  {
    if p(CharAt(input, i)) then SkipWhile(input, i + 1, p) else i
  }

  /**
   * The token NextToken returns when the cursor is at `pos`, and the position
   * the cursor is left at.
   */
  function Scan(input: string, pos: nat): (r: (Token, nat))
    ensures r.1 > pos
    decreases |input| - pos
  {
    var p := SkipWhile(input, pos, IsWhitespace);
    var c := CharAt(input, p);
    var next := CharAt(input, p + 1);
    match c
    case '&' => if next == '&' then (Token(Land, "&&"), p + 2) else (Token(Unset, ""), p + 1)
    case '|' => if next == '|' then (Token(Land, "||"), p + 2) else (Token(Unset, ""), p + 1)
    case '"' =>
      var e := SkipWhile(input, p + 1, InString);
      (Token(StringLiteral, input[p + 1..e]), e + 1)
    case '=' => if next == '=' then (Token(Eq, "=="), p + 2) else (Token(Assign, "="), p + 1)
    case '+' => (Token(Plus, "+"), p + 1)
    case '-' => (Token(Minus, "-"), p + 1)
    case '!' => if next == '=' then (Token(NotEq, "!="), p + 2) else (Token(Bang, "!"), p + 1)
    case '/' => if next == '/' then Scan(input, SkipWhile(input, p, InComment)) else (Token(Slash, "/"), p + 1)
    case '*' => (Token(Asterisk, "*"), p + 1)
    case '<' => (Token(Lt, "<"), p + 1)
    case '>' => (Token(Gt, ">"), p + 1)
    case '%' => (Token(Mod, "%"), p + 1)
    case ';' => (Token(Semicolon, ";"), p + 1)
    case ',' => (Token(Comma, ","), p + 1)
    case '{' => (Token(LBrace, "{"), p + 1)
    case '}' => (Token(RBrace, "}"), p + 1)
    case '(' => (Token(LParen, "("), p + 1)
    case ')' => (Token(RParen, ")"), p + 1)
    case _ =>
      if c == NUL then (Token(Eof, ""), p + 1)
      else if IsLetter(c) then
        var e := SkipWhile(input, p, IsLetter);
        (Token(LookupIdent(input[p..e]), input[p..e]), e)
      else if IsDigit(c) then
        var e := SkipWhile(input, p, IsDigit);
        (Token(LookupNumber(input[p..e]), input[p..e]), e)
      else (Token(Illegal, [c]), p + 1)
  }

  /** Leading whitespace is skipped: starting on a whitespace byte yields the
      same token, ending at the same place, as starting one byte later. */
  lemma ScanSkipsWhitespace(input: string, pos: nat)
    requires IsWhitespace(CharAt(input, pos))
    ensures Scan(input, pos) == Scan(input, pos + 1)
  {
    assert SkipWhile(input, pos, IsWhitespace) == SkipWhile(input, pos + 1, IsWhitespace);
  }

  /** At or past the end of the input the scanner yields EOF with an empty
      literal, and keeps doing so. */
  lemma ScanAtEnd(input: string, pos: nat)
    requires pos >= |input|
    ensures Scan(input, pos) == (Token(Eof, ""), pos + 1)
  {
    assert SkipWhile(input, pos, IsWhitespace) == pos;
  }

  /** Every byte of a run lies inside the input, since the end marker never
      continues a run. */
  lemma RunInsideInput(input: string, i: nat, p: char -> bool)
    requires !p(NUL)
    ensures var j := SkipWhile(input, i, p);
      (j == i || j <= |input|) && forall k :: i <= k < j ==> k < |input| && p(input[k])
  {
    var j := SkipWhile(input, i, p);
    forall k | i <= k < j
      ensures k < |input| && p(input[k])
    {
      assert p(CharAt(input, k));
    }
  }

  /** An identifier token is the maximal run of letters at the cursor: its
      literal is non-empty, all letters, taken from the input, not followed by
      a letter, and classified by LookupIdent. */
  lemma ScanIdentifier(input: string, pos: nat)
    requires pos < |input| && IsLetter(input[pos])
    ensures var (tok, e) := Scan(input, pos);
      pos < e <= |input| && tok.literal == input[pos..e] &&
      (forall k :: pos <= k < e ==> IsLetter(input[k])) &&
      !IsLetter(CharAt(input, e)) &&
      tok.tokenType == LookupIdent(tok.literal)
  {
    assert SkipWhile(input, pos, IsWhitespace) == pos;
    RunInsideInput(input, pos, IsLetter);
  }

  /** A number token is the maximal run of digits and dots at the cursor. */
  lemma ScanNumber(input: string, pos: nat)
    requires pos < |input| && IsDigit(input[pos])
    ensures var (tok, e) := Scan(input, pos);
      pos < e <= |input| && tok.literal == input[pos..e] &&
      (forall k :: pos <= k < e ==> IsDigit(input[k])) &&
      !IsDigit(CharAt(input, e)) &&
      tok.tokenType == LookupNumber(tok.literal)
  {
    assert SkipWhile(input, pos, IsWhitespace) == pos;
    RunInsideInput(input, pos, IsDigit);
  }

  /** Two-byte operators win over their one-byte prefixes, and a lone `&` or
      `|` yields the zero-valued token while still consuming the byte. */
  lemma ScanOperators(input: string, pos: nat)
    requires pos < |input| && input[pos] in {'=', '!', '&', '|'}
    ensures var next := CharAt(input, pos + 1);
      input[pos] == '=' ==>
      Scan(input, pos) == (if next == '=' then (Token(Eq, "=="), pos + 2) else (Token(Assign, "="), pos + 1))
    ensures var next := CharAt(input, pos + 1);
      input[pos] == '!' ==>
      Scan(input, pos) == (if next == '=' then (Token(NotEq, "!="), pos + 2) else (Token(Bang, "!"), pos + 1))
    ensures var next := CharAt(input, pos + 1);
      input[pos] == '&' ==>
      Scan(input, pos) == (if next == '&' then (Token(Land, "&&"), pos + 2) else (Token(Unset, ""), pos + 1))
    ensures var next := CharAt(input, pos + 1);
      input[pos] == '|' ==>
      Scan(input, pos) == (if next == '|' then (Token(Land, "||"), pos + 2) else (Token(Unset, ""), pos + 1))
  {
    assert SkipWhile(input, pos, IsWhitespace) == pos;
  }

  /** A byte that is not the end marker, not whitespace, not a letter or digit
      and not one the switch names becomes an ILLEGAL token whose literal is
      that one byte. */
  lemma ScanIllegal(input: string, pos: nat)
    requires pos < |input| && input[pos] != NUL
    requires !IsWhitespace(input[pos]) && !IsLetter(input[pos]) && !IsDigit(input[pos])
    requires input[pos] !in "&|\"=+-!/*<>%;,{}()"
    ensures Scan(input, pos) == (Token(Illegal, [input[pos]]), pos + 1)
  {
    assert SkipWhile(input, pos, IsWhitespace) == pos;
  }

  /** A string literal's token holds the bytes strictly after the opening quote
      up to the next quote (or byte 0, or the end), and the cursor ends one past
      that terminator. */
  lemma ScanString(input: string, pos: nat)
    requires pos < |input| && input[pos] == '"'
    ensures var (tok, e) := Scan(input, pos);
      tok.tokenType == StringLiteral && pos + 2 <= e <= |input| + 1 &&
      tok.literal == input[pos + 1..e - 1] && '"' !in tok.literal &&
      CharAt(input, e - 1) in {'"', NUL}
  {
    assert SkipWhile(input, pos, IsWhitespace) == pos;
    RunInsideInput(input, pos + 1, InString);
  }

  /** A `//` comment yields no token of its own: the scanner continues from the
      first newline, carriage return or tab after it. */
  lemma ScanComment(input: string, pos: nat)
    requires pos + 1 < |input| && input[pos] == '/' && input[pos + 1] == '/'
    ensures var e := SkipWhile(input, pos, InComment);
      pos + 2 <= e <= |input| && Scan(input, pos) == Scan(input, e) &&
      (e < |input| ==> input[e] in {'\n', '\r', '\t', NUL})
  {
    assert SkipWhile(input, pos, IsWhitespace) == pos;
    assert SkipWhile(input, pos, InComment) == SkipWhile(input, pos + 2, InComment);
  }

  class Lexer {
    const input: string
    var position: nat
    var readPosition: nat
    var ch: char

    /** The cursor invariant: readPosition is one ahead of position, and ch is
        the byte at position (0 past the end). */
    ghost predicate Valid()
      reads this
    {
      readPosition == position + 1 && ch == CharAt(input, position)
    }

    /** New: a lexer positioned on the first byte of the input. */
    constructor New(input: string)
      ensures this.input == input && Valid() && position == 0
    {
      this.input := input;
      position := 0;
      readPosition := 0;
      ch := NUL;
      new;
      ReadChar();
    }

    /** Moves the cursor one byte forward. */
    method ReadChar()
      modifies this
      ensures ch == CharAt(input, old(readPosition))
      ensures position == old(readPosition) && readPosition == old(readPosition) + 1
    {
      if readPosition >= |input| {
        ch := NUL;
      } else {
        ch := input[readPosition];
      }
      position := readPosition;
      readPosition := readPosition + 1;
    }

    /** The byte after the current one, or 0 at the end; changes nothing. */
    method PeekChar() returns (c: char)
      ensures c == CharAt(input, readPosition)
    {
      if readPosition >= |input| {
        c := NUL;
      } else {
        c := input[readPosition];
      }
    }

    /** Skips spaces, tabs, newlines and carriage returns. */
    method EatWhitespace()
      requires Valid()
      modifies this
      ensures Valid() && position == SkipWhile(input, old(position), IsWhitespace)
    {
      while ch == ' ' || ch == '\t' || ch == '\n' || ch == '\r'
        invariant Valid() && old(position) <= position
        invariant SkipWhile(input, position, IsWhitespace) == SkipWhile(input, old(position), IsWhitespace)
        decreases |input| - position
      {
        ReadChar();
      }
    }

    /** Reads the maximal run of letters starting at the cursor. */
    method ReadIdentifier() returns (s: string)
      requires Valid() && position <= |input|
      modifies this
      ensures Valid() && position == SkipWhile(input, old(position), IsLetter)
      ensures s == input[old(position)..position]
    {
      var start := position;
      while IsLetter(ch)
        invariant Valid() && start <= position <= |input|
        invariant SkipWhile(input, position, IsLetter) == SkipWhile(input, start, IsLetter)
        decreases |input| - position
      {
        ReadChar();
      }
      s := input[start..position];
    }

    /** Reads the maximal run of digits and dots starting at the cursor. */
    method ReadNumber() returns (s: string)
      requires Valid() && position <= |input|
      modifies this
      ensures Valid() && position == SkipWhile(input, old(position), IsDigit)
      ensures s == input[old(position)..position]
    {
      var start := position;
      while IsDigit(ch)
        invariant Valid() && start <= position <= |input|
        invariant SkipWhile(input, position, IsDigit) == SkipWhile(input, start, IsDigit)
        decreases |input| - position
      {
        ReadChar();
      }
      s := input[start..position];
    }

    /** With the cursor on an opening quote, reads up to the closing quote or the
        end and returns the bytes in between. */
    method ReadString() returns (s: string)
      requires Valid() && position < |input|
      modifies this
      ensures Valid() && position == SkipWhile(input, old(position) + 1, InString)
      ensures s == input[old(position) + 1..position]
    {
      var start := position + 1;
      ReadChar();
      while ch != '"' && ch != NUL
        invariant Valid() && start <= position <= |input|
        invariant SkipWhile(input, position, InString) == SkipWhile(input, start, InString)
        decreases |input| - position
      {
        ReadChar();
      }
      s := input[start..position];
    }

    /** Skips a `//` comment up to (not past) its terminator. */
    method SkipComment()
      requires Valid() && InComment(ch)
      modifies this
      ensures Valid() && position == SkipWhile(input, old(position), InComment)
    {
      while ch != '\n' && ch != '\r' && ch != '\t' && ch != NUL
        invariant Valid() && old(position) <= position <= |input|
        invariant SkipWhile(input, position, InComment) == SkipWhile(input, old(position), InComment)
        decreases |input| - position
      {
        ReadChar();
      }
    }

    /** The next token; the cursor ends where Scan says. */
    method NextToken() returns (tok: Token)
      requires Valid()
      modifies this
      ensures Valid() && (tok, position) == Scan(input, old(position))
      decreases |input| - position
    {
      tok := Token(Unset, "");
      EatWhitespace();
      match ch {
      case '&' =>
        var next := PeekChar();
        if next == '&' {
          var first := ch;
          ReadChar();
          tok := Token(Land, [first, ch]);
        }
      case '|' =>
        var next := PeekChar();
        if next == '|' {
          var first := ch;
          ReadChar();
          tok := Token(Land, [first, ch]);
        }
      case '"' =>
        var literal := ReadString();
        tok := Token(StringLiteral, literal);
      case '=' =>
        var next := PeekChar();
        if next == '=' {
          var first := ch;
          ReadChar();
          tok := Token(Eq, [first, ch]);
        } else {
          tok := Token(Assign, [ch]);
        }
      case '+' => tok := Token(Plus, [ch]);
      case '-' => tok := Token(Minus, [ch]);
      case '!' =>
        var next := PeekChar();
        if next == '=' {
          var first := ch;
          ReadChar();
          tok := Token(NotEq, [first, ch]);
        } else {
          tok := Token(Bang, [ch]);
        }
      case '/' =>
        var next := PeekChar();
        if next == '/' {
          SkipComment();
          tok := NextToken();
          return;
        } else {
          tok := Token(Slash, [ch]);
        }
      case '*' => tok := Token(Asterisk, [ch]);
      case '<' => tok := Token(Lt, [ch]);
      case '>' => tok := Token(Gt, [ch]);
      case '%' => tok := Token(Mod, [ch]);
      case ';' => tok := Token(Semicolon, [ch]);
      case ',' => tok := Token(Comma, [ch]);
      case '{' => tok := Token(LBrace, [ch]);
      case '}' => tok := Token(RBrace, [ch]);
      case '(' => tok := Token(LParen, [ch]);
      case ')' => tok := Token(RParen, [ch]);
      case _ =>
        if ch == NUL {
          tok := Token(Eof, "");
        } else if IsLetter(ch) {
          var literal := ReadIdentifier();
          tok := Token(LookupIdent(literal), literal);
          return;
        } else if IsDigit(ch) {
          var literal := ReadNumber();
          tok := Token(LookupNumber(literal), literal);
          return;
        } else {
          tok := Token(Illegal, [ch]);
        }
      }
      ReadChar();
    }
  }
}
