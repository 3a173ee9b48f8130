/**
 * The builtin function table (builtins.go): `len` and `help` as functions of
 * their argument list. The evaluator never reaches them, because identifiers
 * are looked up only in the environment.
 */
module Builtins {
  import opened Numbers
  import opened Ast
  import opened Objects
  import opened Evaluator

  /** The table maps exactly these three names. */
  const Table: map<string, BuiltinFunction> := map["len" := Len, "help" := Help, "print" := Print]

  /** The table holds exactly `len`, `help` and `print`, each bound to its own
      function. */
  lemma TableEntries()
    ensures Table.Keys == {"len", "help", "print"}
    ensures Table["len"] == Len && Table["help"] == Help && Table["print"] == Print
  {
  }

  /** The arity error, with the count in Go's `%v` (decimal) rendering. */
  function ArityError(want: string, got: nat): Object
  {
    Error("wrong number of arguments. want=" + want + ". got=" + NatToDecimal(got))
  }

  /** `len`: the byte length of its one String argument, as an int64. */
  function LenBuiltin(args: seq<Object>): (r: Object)
    ensures r.Integer? <==> |args| == 1 && args[0].String?
    ensures r.Integer? ==> r.intValue == Wrap(|args[0].strValue|)
    ensures |args| != 1 ==> r == ArityError("1", |args|)
    ensures |args| == 1 && !args[0].String? ==> r == Error("len operation only supported on strings")
  {
    if |args| != 1 then ArityError("1", |args|)
    else match args[0]
      case String(v) => Integer(Wrap(|v|))
      case _ => Error("len operation only supported on strings")
  }

  /** `help`: a fixed pointer to the project page, and only with no arguments. */
  function HelpBuiltin(args: seq<Object>): (r: Object)
    ensures r.String? <==> args == []
    ensures args == [] ==> r == String("visit https://github.com/ryanlueds/luederlang")
    ensures args != [] ==> r == ArityError("0", |args|)
  {
    if |args| != 0 then ArityError("0", |args|)
    else String("visit https://github.com/ryanlueds/luederlang")
  }

  /** The count in an arity error reads back as the number of arguments given. */
  lemma ArityErrorReportsCount(want: string, args: seq<Object>)
    ensures var m := ArityError(want, |args|).message;
      var prefix := "wrong number of arguments. want=" + want + ". got=";
      |prefix| <= |m| && m[..|prefix|] == prefix &&
      AllDecimalDigits(m[|prefix|..]) && DecimalToNat(m[|prefix|..]) == |args|
  {
    var prefix := "wrong number of arguments. want=" + want + ". got=";
    var m := ArityError(want, |args|).message;
    assert m[|prefix|..] == NatToDecimal(|args|);
    DecimalRoundTrip(|args|);
  }

  /** For strings of realistic size `len` is exact and additive over
      concatenation. */
  lemma LenOfConcatenation(a: string, b: string)
    requires |a| + |b| <= MaxInt64
    ensures LenBuiltin([String(a)]) == Integer(|a|)
    ensures LenBuiltin([String(a + b)]).intValue ==
      LenBuiltin([String(a)]).intValue + LenBuiltin([String(b)]).intValue
  {
  }

  /** Builtins are invisible to the evaluator: with no binding for `len` in the
      environment, the identifier `len` is an unknown name, whatever the table
      holds. */
  lemma TableNotConsulted(env: Environment, s: Store, fl: FloatOps)
    requires "len" !in s
    ensures "len" in Table
    ensures Evaluate(Identifier("len"), env, s, fl) == (Done(Error("identifier not found: len")), s)
  {
    assert "identifier not found: " + "len" == "identifier not found: len";
  }
}
