/**
 * Worked evaluations of programs from the evaluator's test table
 * (evaluator_test.go), each over a fresh environment. The parser is not part of
 * this model, so each program is written as the syntax tree the usual
 * precedence rules give it. The evaluations are assembled from the big-step
 * rules below, one node at a time.
 */
module EvaluatorExamples {
  import opened Numbers
  import opened Ast
  import opened Objects
  import opened Operators
  import opened Evaluator

  // ---- Big-step rules: Evaluate, one node kind at a time ----

  lemma InfixRule(l: Node, op: string, r: Node, env: Environment, s: Store, fl: FloatOps,
                  lv: Object, s1: Store, rv: Object, s2: Store)
    requires Evaluate(l, env, s, fl) == (Done(lv), s1) && !IsError(lv)
    requires Evaluate(r, env, s1, fl) == (Done(rv), s2) && !IsError(rv)
    ensures Evaluate(InfixExpression(l, op, r), env, s, fl) == (EvalInfixExpression(lv, op, rv, fl), s2)
  {
  }

  lemma PrefixRule(op: string, r: Node, env: Environment, s: Store, fl: FloatOps, rv: Object, s1: Store)
    requires Evaluate(r, env, s, fl) == (Done(rv), s1) && !IsError(rv)
    ensures Evaluate(PrefixExpression(op, r), env, s, fl) == (EvalPrefixExpression(op, rv, fl), s1)
  {
  }

  lemma LetRule(name: string, value: Node, env: Environment, s: Store, fl: FloatOps, v: Object, s1: Store)
    requires Evaluate(value, env, s, fl) == (Done(v), s1) && !IsError(v)
    ensures Evaluate(LetStatement(name, value), env, s, fl) == (Done(Null), s1[name := v])
  {
  }

  lemma ReturnRule(e: Node, env: Environment, s: Store, fl: FloatOps, v: Object, s1: Store)
    requires Evaluate(e, env, s, fl) == (Done(v), s1) && !IsError(v)
    ensures Evaluate(ReturnStatement(e), env, s, fl) == (Done(ReturnValue(v)), s1)
  {
  }

  lemma IfRule(cond: Node, cons: Node, alt: Option<Node>, env: Environment, s: Store, fl: FloatOps,
               c: Object, s1: Store)
    requires Evaluate(cond, env, s, fl) == (Done(c), s1) && !IsError(c)
    ensures Evaluate(IfExpression(cond, cons, alt), env, s, fl) ==
      if IsTruthy(c) then Evaluate(cons, env, s1, fl)
      else if alt.Some? then Evaluate(alt.value, env, s1, fl)
      else (Done(Null), s1)
  {
  }

  /** A program statement that neither returns nor fails passes control on. */
  lemma ProgramStep(stmts: seq<Node>, env: Environment, s: Store, last: Object, fl: FloatOps, v: Object, s1: Store)
    requires stmts != [] && Evaluate(stmts[0], env, s, fl) == (Done(v), s1)
    requires !v.ReturnValue? && !v.Error?
    ensures EvaluateProgram(stmts, env, s, last, fl) == EvaluateProgram(stmts[1..], env, s1, v, fl)
  {
  }

  /** A program statement that returns or fails ends the program. */
  lemma ProgramStop(stmts: seq<Node>, env: Environment, s: Store, last: Object, fl: FloatOps, v: Object, s1: Store)
    requires stmts != [] && Evaluate(stmts[0], env, s, fl) == (Done(v), s1)
    requires v.ReturnValue? || v.Error?
    ensures EvaluateProgram(stmts, env, s, last, fl) == (Done(if v.ReturnValue? then v.inner else v), s1)
  {
  }

  lemma BlockStep(stmts: seq<Node>, env: Environment, s: Store, last: Object, fl: FloatOps, v: Object, s1: Store)
    requires stmts != [] && Evaluate(stmts[0], env, s, fl) == (Done(v), s1)
    requires !StopsBlock(v)
    ensures EvaluateBlock(stmts, env, s, last, fl) == EvaluateBlock(stmts[1..], env, s1, v, fl)
  {
  }

  lemma BlockStop(stmts: seq<Node>, env: Environment, s: Store, last: Object, fl: FloatOps, v: Object, s1: Store)
    requires stmts != [] && Evaluate(stmts[0], env, s, fl) == (Done(v), s1)
    requires StopsBlock(v)
    ensures EvaluateBlock(stmts, env, s, last, fl) == (Done(v), s1)
  {
  }

  // ---- Test-table programs ----

  function Int(v: Int64): Node { IntegerLiteral(v) }

  function Stmt(e: Node): Node { ExpressionStatement(e) }

  const empty: Store := map[]

  /** `50 / 2 * 2` is 50. */
  lemma HalveAndDouble(env: Environment, fl: FloatOps)
    ensures Evaluate(InfixExpression(InfixExpression(Int(50), "/", Int(2)), "*", Int(2)), env, empty, fl)
      == (Done(Integer(50)), empty)
  {
    var e1 := InfixExpression(Int(50), "/", Int(2));
    InfixRule(Int(50), "/", Int(2), env, empty, fl, Integer(50), empty, Integer(2), empty);
    InfixRule(e1, "*", Int(2), env, empty, fl, Integer(25), empty, Integer(2), empty);
  }

  /** `50 / 2 * 2 + 10` is 60. */
  lemma DivisionExample(env: Environment, fl: FloatOps)
    ensures Evaluate(Program([Stmt(InfixExpression(InfixExpression(InfixExpression(
      Int(50), "/", Int(2)), "*", Int(2)), "+", Int(10)))]), env, empty, fl).0 == Done(Integer(60))
  {
    var e2 := InfixExpression(InfixExpression(Int(50), "/", Int(2)), "*", Int(2));
    HalveAndDouble(env, fl);
    var e3 := InfixExpression(e2, "+", Int(10));
    InfixRule(e2, "+", Int(10), env, empty, fl, Integer(50), empty, Integer(10), empty);
    ProgramStep([Stmt(e3)], env, empty, Nil, fl, Integer(60), empty);
  }

  /** `5 + 10 * 2` is 25. */
  lemma PrecedenceProduct(env: Environment, fl: FloatOps)
    ensures Evaluate(InfixExpression(Int(5), "+", InfixExpression(Int(10), "*", Int(2))), env, empty, fl)
      == (Done(Integer(25)), empty)
  {
    var m := InfixExpression(Int(10), "*", Int(2));
    InfixRule(Int(10), "*", Int(2), env, empty, fl, Integer(10), empty, Integer(2), empty);
    InfixRule(Int(5), "+", m, env, empty, fl, Integer(5), empty, Integer(20), empty);
  }

  /** `15 / 3` is 5. */
  lemma PrecedenceQuotient(env: Environment, fl: FloatOps)
    ensures Evaluate(InfixExpression(Int(15), "/", Int(3)), env, empty, fl) == (Done(Integer(5)), empty)
  {
    InfixRule(Int(15), "/", Int(3), env, empty, fl, Integer(15), empty, Integer(3), empty);
  }

  /** `5 + 10 * 2 + 15 / 3` is 30. */
  lemma PrecedenceSum(env: Environment, fl: FloatOps)
    ensures Evaluate(InfixExpression(InfixExpression(Int(5), "+", InfixExpression(Int(10), "*", Int(2))),
      "+", InfixExpression(Int(15), "/", Int(3))), env, empty, fl) == (Done(Integer(30)), empty)
  {
    var a := InfixExpression(Int(5), "+", InfixExpression(Int(10), "*", Int(2)));
    PrecedenceProduct(env, fl);
    var d := InfixExpression(Int(15), "/", Int(3));
    PrecedenceQuotient(env, fl);
    InfixRule(a, "+", d, env, empty, fl, Integer(25), empty, Integer(5), empty);
  }

  /** `(5 + 10 * 2 + 15 / 3) * 2` is 60. */
  lemma PrecedenceDoubled(env: Environment, fl: FloatOps)
    ensures Evaluate(InfixExpression(
      InfixExpression(InfixExpression(Int(5), "+", InfixExpression(Int(10), "*", Int(2))),
        "+", InfixExpression(Int(15), "/", Int(3))),
      "*", Int(2)), env, empty, fl) == (Done(Integer(60)), empty)
  {
    var s := InfixExpression(InfixExpression(Int(5), "+", InfixExpression(Int(10), "*", Int(2))),
      "+", InfixExpression(Int(15), "/", Int(3)));
    PrecedenceSum(env, fl);
    InfixRule(s, "*", Int(2), env, empty, fl, Integer(30), empty, Integer(2), empty);
  }

  /** `(5 + 10 * 2 + 15 / 3) * 2 + -10` is 50. */
  lemma PrecedenceExample(env: Environment, fl: FloatOps)
    ensures Evaluate(Program([Stmt(InfixExpression(
      InfixExpression(
        InfixExpression(InfixExpression(Int(5), "+", InfixExpression(Int(10), "*", Int(2))),
          "+", InfixExpression(Int(15), "/", Int(3))),
        "*", Int(2)),
      "+", PrefixExpression("-", Int(10))))]), env, empty, fl).0 == Done(Integer(50))
  {
    var c := InfixExpression(
        InfixExpression(InfixExpression(Int(5), "+", InfixExpression(Int(10), "*", Int(2))),
          "+", InfixExpression(Int(15), "/", Int(3))),
        "*", Int(2));
    PrecedenceDoubled(env, fl);
    var n := PrefixExpression("-", Int(10));
    PrefixRule("-", Int(10), env, empty, fl, Integer(10), empty);
    var e := InfixExpression(c, "+", n);
    InfixRule(c, "+", n, env, empty, fl, Integer(60), empty, Integer(-10), empty);
    ProgramStep([Stmt(e)], env, empty, Nil, fl, Integer(50), empty);
  }

  /** `9; return 2 * 5; 9;` is 10: the return ends the program. */
  lemma ReturnExample(env: Environment, fl: FloatOps)
    ensures Evaluate(Program([
      Stmt(Int(9)),
      ReturnStatement(InfixExpression(Int(2), "*", Int(5))),
      Stmt(Int(9))]), env, empty, fl).0 == Done(Integer(10))
  {
    var p := InfixExpression(Int(2), "*", Int(5));
    var stmts := [Stmt(Int(9)), ReturnStatement(p), Stmt(Int(9))];
    ProgramStep(stmts, env, empty, Nil, fl, Integer(9), empty);
    InfixRule(Int(2), "*", Int(5), env, empty, fl, Integer(2), empty, Integer(5), empty);
    ReturnRule(p, env, empty, fl, Integer(10), empty);
    ProgramStop(stmts[1..], env, empty, Integer(9), fl, ReturnValue(Integer(10)), empty);
  }

  /** The nested `if (10 > 1) { if (10 > 1) { return 10; } return 1; }` is 10:
      the inner block's ReturnValue passes through the outer block unopened. */
  lemma NestedReturnExample(env: Environment, fl: FloatOps)
    ensures var cond := InfixExpression(Int(10), ">", Int(1));
      var inner := IfExpression(cond, BlockStatement([ReturnStatement(Int(10))]), None);
      Evaluate(Program([Stmt(IfExpression(cond,
        BlockStatement([Stmt(inner), ReturnStatement(Int(1))]), None))]), env, empty, fl).0
      == Done(Integer(10))
  {
    var cond := InfixExpression(Int(10), ">", Int(1));
    TenGreaterThanOne(env, fl);
    var innerBlock := [ReturnStatement(Int(10))];
    ReturnRule(Int(10), env, empty, fl, Integer(10), empty);
    BlockStop(innerBlock, env, empty, Nil, fl, ReturnValue(Integer(10)), empty);
    var inner := IfExpression(cond, BlockStatement(innerBlock), None);
    IfRule(cond, BlockStatement(innerBlock), None, env, empty, fl, Boolean(true), empty);
    var outerBlock := [Stmt(inner), ReturnStatement(Int(1))];
    BlockStop(outerBlock, env, empty, Nil, fl, ReturnValue(Integer(10)), empty);
    var outer := IfExpression(cond, BlockStatement(outerBlock), None);
    IfRule(cond, BlockStatement(outerBlock), None, env, empty, fl, Boolean(true), empty);
    ProgramStop([Stmt(outer)], env, empty, Nil, fl, ReturnValue(Integer(10)), empty);
  }

  /** `5 + true; 5;` stops at the type mismatch. */
  lemma MismatchExample(env: Environment, fl: FloatOps)
    ensures Evaluate(Program([Stmt(InfixExpression(Int(5), "+", BooleanLiteral(true))), Stmt(Int(5))]),
      env, empty, fl).0 == Done(Error("type mismatch: INTEGER + BOOLEAN"))
  {
    var e := InfixExpression(Int(5), "+", BooleanLiteral(true));
    assert "type mismatch: " + "INTEGER" + " " + "+" + " " + "BOOLEAN" == "type mismatch: INTEGER + BOOLEAN";
    InfixRule(Int(5), "+", BooleanLiteral(true), env, empty, fl, Integer(5), empty, Boolean(true), empty);
    ProgramStop([Stmt(e), Stmt(Int(5))], env, empty, Nil, fl, Error("type mismatch: INTEGER + BOOLEAN"), empty);
  }

  /** `-true` and `foobar` give their error messages. */
  lemma PrefixAndIdentifierErrors(env: Environment, fl: FloatOps)
    ensures Evaluate(Program([Stmt(PrefixExpression("-", BooleanLiteral(true)))]), env, empty, fl).0
      == Done(Error("type mismatch: -BOOLEAN"))
    ensures Evaluate(Program([Stmt(Identifier("foobar"))]), env, empty, fl).0
      == Done(Error("identifier not found: foobar"))
  {
    PrefixRule("-", BooleanLiteral(true), env, empty, fl, Boolean(true), empty);
    assert "type mismatch: -" + "BOOLEAN" == "type mismatch: -BOOLEAN";
    ProgramStop([Stmt(PrefixExpression("-", BooleanLiteral(true)))], env, empty, Nil, fl,
      Error("type mismatch: -BOOLEAN"), empty);
    assert "identifier not found: " + "foobar" == "identifier not found: foobar";
    ProgramStop([Stmt(Identifier("foobar"))], env, empty, Nil, fl,
      Error("identifier not found: foobar"), empty);
  }

  /** With a and b bound to 5, `a + b + 5` is 15. */
  lemma LetSum(env: Environment, fl: FloatOps)
    ensures var s2 := map["a" := Integer(5), "b" := Integer(5)];
      Evaluate(InfixExpression(InfixExpression(Identifier("a"), "+", Identifier("b")), "+", Int(5)), env, s2, fl)
      == (Done(Integer(15)), s2)
  {
    var s2 := map["a" := Integer(5), "b" := Integer(5)];
    InfixRule(Identifier("a"), "+", Identifier("b"), env, s2, fl, Integer(5), s2, Integer(5), s2);
    InfixRule(InfixExpression(Identifier("a"), "+", Identifier("b")), "+", Int(5), env, s2, fl,
      Integer(10), s2, Integer(5), s2);
  }

  /** With a and b bound to 5, `let c = a + b + 5; c;` is 15 and binds c. */
  lemma LetTail(env: Environment, fl: FloatOps)
    ensures var s2 := map["a" := Integer(5), "b" := Integer(5)];
      var sum := InfixExpression(InfixExpression(Identifier("a"), "+", Identifier("b")), "+", Int(5));
      EvaluateProgram([LetStatement("c", sum), Stmt(Identifier("c"))], env, s2, Null, fl)
      == (Done(Integer(15)), s2["c" := Integer(15)])
  {
    var s2 := map["a" := Integer(5), "b" := Integer(5)];
    var s3 := s2["c" := Integer(15)];
    var sum := InfixExpression(InfixExpression(Identifier("a"), "+", Identifier("b")), "+", Int(5));
    var stmts := [LetStatement("c", sum), Stmt(Identifier("c"))];
    LetSum(env, fl);
    LetRule("c", sum, env, s2, fl, Integer(15), s2);
    ProgramStep(stmts, env, s2, Null, fl, Null, s3);
    assert stmts[1..] == [Stmt(Identifier("c"))];
    ProgramStep(stmts[1..], env, s3, Null, fl, Integer(15), s3);
  }

  /** `let a = 5; let b = a; let c = a + b + 5; c;` is 15, and leaves a, b and c
      bound. */
  lemma LetExample(env: Environment, fl: FloatOps)
    ensures var (r, s) := Evaluate(Program([
      LetStatement("a", Int(5)),
      LetStatement("b", Identifier("a")),
      LetStatement("c", InfixExpression(InfixExpression(Identifier("a"), "+", Identifier("b")), "+", Int(5))),
      Stmt(Identifier("c"))]), env, empty, fl);
      r == Done(Integer(15)) && s == map["a" := Integer(5), "b" := Integer(5), "c" := Integer(15)]
  {
    var sum := InfixExpression(InfixExpression(Identifier("a"), "+", Identifier("b")), "+", Int(5));
    var stmts := [LetStatement("a", Int(5)), LetStatement("b", Identifier("a")),
      LetStatement("c", sum), Stmt(Identifier("c"))];
    var s1 := empty["a" := Integer(5)];
    var s2 := s1["b" := Integer(5)];
    LetRule("a", Int(5), env, empty, fl, Integer(5), empty);
    ProgramStep(stmts, env, empty, Nil, fl, Null, s1);
    LetRule("b", Identifier("a"), env, s1, fl, Integer(5), s1);
    ProgramStep(stmts[1..], env, s1, Null, fl, Null, s2);
    assert s2 == map["a" := Integer(5), "b" := Integer(5)];
    assert stmts[1..][1..] == [LetStatement("c", sum), Stmt(Identifier("c"))];
    LetTail(env, fl);
    assert s2["c" := Integer(15)] == map["a" := Integer(5), "b" := Integer(5), "c" := Integer(15)];
  }

  /** `1 > 2` is false. */
  lemma OneGreaterThanTwo(env: Environment, fl: FloatOps)
    ensures Evaluate(InfixExpression(Int(1), ">", Int(2)), env, empty, fl) == (Done(Boolean(false)), empty)
  {
    InfixRule(Int(1), ">", Int(2), env, empty, fl, Integer(1), empty, Integer(2), empty);
  }

  /** `10 > 1` is true. */
  lemma TenGreaterThanOne(env: Environment, fl: FloatOps)
    ensures Evaluate(InfixExpression(Int(10), ">", Int(1)), env, empty, fl) == (Done(Boolean(true)), empty)
  {
    InfixRule(Int(10), ">", Int(1), env, empty, fl, Integer(10), empty, Integer(1), empty);
  }

  /** `if (1 > 2) { 10 }` is NULL. */
  lemma IfFalseExample(env: Environment, fl: FloatOps)
    ensures Evaluate(Program([Stmt(IfExpression(InfixExpression(Int(1), ">", Int(2)),
      BlockStatement([Stmt(Int(10))]), None))]), env, empty, fl).0 == Done(Null)
  {
    var gt := InfixExpression(Int(1), ">", Int(2));
    OneGreaterThanTwo(env, fl);
    IfRule(gt, BlockStatement([Stmt(Int(10))]), None, env, empty, fl, Boolean(false), empty);
    ProgramStep([Stmt(IfExpression(gt, BlockStatement([Stmt(Int(10))]), None))], env, empty, Nil, fl, Null, empty);
  }

  /** `if (1) { 10 }` is 10: 1 is truthy. */
  lemma IfTruthyExample(env: Environment, fl: FloatOps)
    ensures Evaluate(Program([Stmt(IfExpression(Int(1),
      BlockStatement([Stmt(Int(10))]), None))]), env, empty, fl).0 == Done(Integer(10))
  {
    var ten := [Stmt(Int(10))];
    BlockStep(ten, env, empty, Nil, fl, Integer(10), empty);
    IfRule(Int(1), BlockStatement(ten), None, env, empty, fl, Integer(1), empty);
    ProgramStep([Stmt(IfExpression(Int(1), BlockStatement(ten), None))], env, empty, Nil, fl, Integer(10), empty);
  }

  /** `if (1 > 2) { 10 } else { 20 }` is 20. */
  lemma IfElseExample(env: Environment, fl: FloatOps)
    ensures Evaluate(Program([Stmt(IfExpression(InfixExpression(Int(1), ">", Int(2)),
      BlockStatement([Stmt(Int(10))]), Some(BlockStatement([Stmt(Int(20))]))))]), env, empty, fl).0
      == Done(Integer(20))
  {
    var gt := InfixExpression(Int(1), ">", Int(2));
    OneGreaterThanTwo(env, fl);
    var twenty := [Stmt(Int(20))];
    BlockStep(twenty, env, empty, Nil, fl, Integer(20), empty);
    var alt := Some(BlockStatement(twenty));
    IfRule(gt, BlockStatement([Stmt(Int(10))]), alt, env, empty, fl, Boolean(false), empty);
    ProgramStep([Stmt(IfExpression(gt, BlockStatement([Stmt(Int(10))]), alt))], env, empty, Nil, fl, Integer(20), empty);
  }

  /** `(1 < 2) == true` is true. */
  lemma ComparisonEqualsTrue(env: Environment, fl: FloatOps)
    ensures Evaluate(Program([Stmt(InfixExpression(InfixExpression(Int(1), "<", Int(2)), "==",
      BooleanLiteral(true)))]), env, empty, fl).0 == Done(Boolean(true))
  {
    var lt := InfixExpression(Int(1), "<", Int(2));
    InfixRule(Int(1), "<", Int(2), env, empty, fl, Integer(1), empty, Integer(2), empty);
    var eq := InfixExpression(lt, "==", BooleanLiteral(true));
    InfixRule(lt, "==", BooleanLiteral(true), env, empty, fl, Boolean(true), empty, Boolean(true), empty);
    ProgramStep([Stmt(eq)], env, empty, Nil, fl, Boolean(true), empty);
  }

  /** `!!!true` is false. */
  lemma TripleBang(env: Environment, fl: FloatOps)
    ensures Evaluate(Program([Stmt(PrefixExpression("!", PrefixExpression("!", PrefixExpression("!",
      BooleanLiteral(true)))))]), env, empty, fl).0 == Done(Boolean(false))
  {
    var n1 := PrefixExpression("!", BooleanLiteral(true));
    PrefixRule("!", BooleanLiteral(true), env, empty, fl, Boolean(true), empty);
    var n2 := PrefixExpression("!", n1);
    PrefixRule("!", n1, env, empty, fl, Boolean(false), empty);
    var n3 := PrefixExpression("!", n2);
    PrefixRule("!", n2, env, empty, fl, Boolean(true), empty);
    ProgramStep([Stmt(n3)], env, empty, Nil, fl, Boolean(false), empty);
  }

  /** A program unwraps only one ReturnValue: `return if (true) { return 5; };`
      yields a ReturnValue, not the integer. */
  lemma DoubleReturnExample(env: Environment, fl: FloatOps)
    ensures Evaluate(Program([ReturnStatement(IfExpression(BooleanLiteral(true),
      BlockStatement([ReturnStatement(Int(5))]), None))]), env, empty, fl).0
      == Done(ReturnValue(Integer(5)))
  {
    var block := [ReturnStatement(Int(5))];
    ReturnRule(Int(5), env, empty, fl, Integer(5), empty);
    BlockStop(block, env, empty, Nil, fl, ReturnValue(Integer(5)), empty);
    var ie := IfExpression(BooleanLiteral(true), BlockStatement(block), None);
    IfRule(BooleanLiteral(true), BlockStatement(block), None, env, empty, fl, Boolean(true), empty);
    ReturnRule(ie, env, empty, fl, ReturnValue(Integer(5)), empty);
    ProgramStop([ReturnStatement(ie)], env, empty, Nil, fl, ReturnValue(ReturnValue(Integer(5))), empty);
  }

  /** An empty program yields nil, and `-` applied to `if (true) {}`, whose
      branch is an empty block and so yields nil, panics. */
  lemma NilExample(env: Environment, fl: FloatOps)
    ensures Evaluate(Program([]), env, empty, fl).0 == Done(Nil)
    ensures Evaluate(PrefixExpression("-", IfExpression(BooleanLiteral(true),
      BlockStatement([]), None)), env, empty, fl).0.Panic?
  {
    IfRule(BooleanLiteral(true), BlockStatement([]), None, env, empty, fl, Boolean(true), empty);
  }
}
