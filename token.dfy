/**
 * Token kinds, the keyword table, and the classification of identifiers and
 * numbers (Go package `token`).
 */
module Token {

  /**
   * The token kinds. Land, Mod and StringLiteral are the three kinds the lexer
   * produces that token.go does not declare; Unset is Go's zero-valued kind, the
   * empty string, which a lone `&` or `|` leaves in place.
   */
  datatype TokenType =
    | Illegal | Eof
    | Ident | IntLiteral | FloatLiteral
    | Assign | Plus | Minus | Bang | Asterisk | Slash | Lt | Gt | Eq | NotEq
    | Comma | Semicolon | LParen | RParen | LBrace | RBrace
    | Function | Let | Int | Float | Bool | True | False | If | Else | Return
    | Land | Mod | StringLiteral
    | Unset

  datatype Token = Token(tokenType: TokenType, literal: string)

  const Keywords: map<string, TokenType> := map[
    "fun" := Function,
    "let" := Let,
    "int" := Int,
    "float" := Float,
    "true" := True,
    "false" := False,
    "if" := If,
    "else" := Else,
    "return" := Return
  ]

  /** Keyword spellings get their own kind; every other identifier is IDENT. */
  function LookupIdent(ident: string): (t: TokenType)
    ensures t != Ident <==>
      ident in {"fun", "let", "int", "float", "true", "false", "if", "else", "return"}
    ensures t in {Ident, Function, Let, Int, Float, True, False, If, Else, Return}
    ensures t == Function <==> ident == "fun"
    ensures t == Let <==> ident == "let"
    ensures t == Int <==> ident == "int"
    ensures t == Float <==> ident == "float"
    ensures t == True <==> ident == "true"
    ensures t == False <==> ident == "false"
    ensures t == If <==> ident == "if"
    ensures t == Else <==> ident == "else"
    ensures t == Return <==> ident == "return"
  {
    if ident in Keywords then Keywords[ident] else Ident
  }

  /** Different keywords get different kinds, and the BOOL kind is never produced. */
  lemma KeywordKindsDistinct(a: string, b: string)
    ensures LookupIdent(a) == LookupIdent(b) && LookupIdent(a) != Ident ==> a == b
    ensures LookupIdent("bool") == Ident && LookupIdent(a) != Bool
  {
  }

  /** Go's strings.Count(s, "."). */
  function CountDots(s: string): nat
  {
    if s == [] then 0 else (if s[0] == '.' then 1 else 0) + CountDots(s[1..])
  }

  /** The count agrees with an independent definition: the multiplicity of `.`
      in the string's multiset of characters. */
  lemma {:induction false} CountDotsIsMultiplicity(s: string)
    ensures CountDots(s) == multiset(s)['.']
  {
    if s != [] {
      assert s == [s[0]] + s[1..];
      CountDotsIsMultiplicity(s[1..]);
    }
  }

  lemma {:induction false} CountDotsAppend(a: string, b: string)
    ensures CountDots(a + b) == CountDots(a) + CountDots(b)
  {
    if a != [] {
      assert (a + b)[1..] == a[1..] + b;
      CountDotsAppend(a[1..], b);
    } else {
      assert a + b == b;
    }
  }

  lemma {:induction false} CountDotsZero(s: string)
    ensures CountDots(s) == 0 <==> '.' !in s
  {
    if s != [] {
      CountDotsZero(s[1..]);
      assert s == [s[0]] + s[1..];
    }
  }

  predicate HasExactlyOneDot(s: string)
  {
    exists i :: 0 <= i < |s| && s[i] == '.' && '.' !in s[..i] && '.' !in s[i + 1..]
  }

  lemma CountDotsOne(s: string)
    ensures CountDots(s) == 1 <==> HasExactlyOneDot(s)
  {
    if HasExactlyOneDot(s) {
      var i :| 0 <= i < |s| && s[i] == '.' && '.' !in s[..i] && '.' !in s[i + 1..];
      SplitAt(s, i);
      CountDotsZero(s[..i]);
      CountDotsZero(s[i + 1..]);
    }
    if CountDots(s) == 1 {
      CountDotsZero(s);
      var i := FirstDot(s);
      SplitAt(s, i);
      CountDotsZero(s[..i]);
      CountDotsZero(s[i + 1..]);
    }
  }

  function FirstDot(s: string): (i: nat)
    requires '.' in s
    ensures i < |s| && s[i] == '.' && '.' !in s[..i]
  {
    if s[0] == '.' then 0 else
      assert '.' in s[1..] by { assert s == [s[0]] + s[1..]; }
      var j := FirstDot(s[1..]);
      assert s[..j + 1] == [s[0]] + s[1..][..j];
      j + 1
  }

  lemma SplitAt(s: string, i: nat)
    requires i < |s|
    ensures CountDots(s) == CountDots(s[..i]) + (if s[i] == '.' then 1 else 0) + CountDots(s[i + 1..])
  {
    assert s == s[..i] + ([s[i]] + s[i + 1..]);
    CountDotsAppend(s[..i], [s[i]] + s[i + 1..]);
    CountDotsAppend([s[i]], s[i + 1..]);
    assert ([s[i]])[1..] == [];
  }

  /** A digit run with no dot is an integer literal, with exactly one dot a float
      literal, and with more than one dot an illegal token. */
  function LookupNumber(number: string): (t: TokenType)
    ensures t == IntLiteral <==> '.' !in number
    ensures t == FloatLiteral <==> HasExactlyOneDot(number)
    ensures t == Illegal <==> !('.' !in number || HasExactlyOneDot(number))
  {
    CountDotsZero(number);
    CountDotsOne(number);
    match CountDots(number)
    case 0 => IntLiteral
    case 1 => FloatLiteral
    case _ => Illegal
  }
}
