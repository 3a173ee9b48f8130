/**
 * The tree-walking evaluator (evaluator.go).
 *
 * `Evaluate`, `EvaluateBlock`, `EvaluateProgram` and `EvaluateExpressions` say
 * what evaluation computes: the outcome, and the environment's map afterwards.
 * The methods `Eval`, `EvalBlockStatement`, `EvalProgram`, `EvalExpressions`,
 * `EvalIfExpression` and `EvalIdentifier` do it the way the source does, in
 * loops that update the shared Environment in place, and are proved to agree
 * with those functions.
 *
 * A Go run-time panic (a method call on nil, an integer division by zero) is
 * the outcome `Panic`; it ends evaluation wherever it happens.
 */
module Evaluator {
  import opened Numbers
  import opened Ast
  import opened Objects
  import opened Operators

  /** evalIdentifier: the binding in the environment's own map, or an error. */
  function LookupIdentifier(name: string, s: Store): (r: Object)
    ensures name in s ==> r == s[name]
    ensures name !in s ==> r == Error("identifier not found: " + name)
  {
    if name in s then s[name] else Error("identifier not found: " + name)
  }

  /** The block loop's early exit: a non-nil RETURN_VALUE or ERROR. */
  predicate StopsBlock(o: Object)
  {
    !o.Nil? && (TypeOf(o) == ReturnValueObj || TypeOf(o) == ErrorObj)
  }

  /** Whether a sub-evaluation ends the enclosing one: a panic, or an Error value. */
  predicate Aborts(r: Outcome<Object>)
  {
    r.Panic? || IsError(r.value)
  }

  /** The outcome of evaluating `n` with the environment `env` holding the map
      `s`, and the environment's map afterwards. */
  function Evaluate(n: Node, env: Environment, s: Store, fl: FloatOps): (Outcome<Object>, Store)
    decreases n, 2
  {
    match n
    case FunctionLiteral(params, body) => (Done(Function(params, body, env)), s)
    case Identifier(name) => (Done(LookupIdentifier(name, s)), s)
    case CallExpression(callee, args) =>
      var (f, s1) := Evaluate(callee, env, s, fl);
      if Aborts(f) then (f, s1)
      else
        var (vs, s2) := EvaluateExpressions(args, env, s1, [], fl);
        if vs.Panic? then (Panic(vs.reason), s2)
        else if |vs.value| == 1 && IsError(vs.value[0]) then (Done(vs.value[0]), s2)
        else (Done(Null), s2)
    case LetStatement(name, value) => Declare(name, value, env, s, fl)
    case IntStatement(name, value) => Declare(name, value, env, s, fl)
    case FloatStatement(name, value) => Declare(name, value, env, s, fl)
    case Program(stmts) => EvaluateProgram(stmts, env, s, Nil, fl)
    case ExpressionStatement(e) => Evaluate(e, env, s, fl)
    case IntegerLiteral(v) => (Done(Integer(v)), s)
    case FloatLiteral(f) => (Done(Float(f)), s)
    case BooleanLiteral(b) => (Done(Boolean(b)), s)
    case PrefixExpression(op, right) =>
      var (v, s1) := Evaluate(right, env, s, fl);
      if Aborts(v) then (v, s1) else (EvalPrefixExpression(op, v.value, fl), s1)
    case InfixExpression(left, op, right) =>
      var (lv, s1) := Evaluate(left, env, s, fl);
      if Aborts(lv) then (lv, s1)
      else
        var (rv, s2) := Evaluate(right, env, s1, fl);
        if Aborts(rv) then (rv, s2) else (EvalInfixExpression(lv.value, op, rv.value, fl), s2)
    case BlockStatement(stmts) => EvaluateBlock(stmts, env, s, Nil, fl)
    case IfExpression(cond, cons, alt) =>
      var (c, s1) := Evaluate(cond, env, s, fl);
      if Aborts(c) then (c, s1)
      else if IsTruthy(c.value) then Evaluate(cons, env, s1, fl)
      else if alt.Some? then Evaluate(alt.value, env, s1, fl)
      else (Done(Null), s1)
    case ReturnStatement(e) =>
      var (v, s1) := Evaluate(e, env, s, fl);
      if Aborts(v) then (v, s1) else (Done(ReturnValue(v.value)), s1)
    case StringLiteral(_) => (Done(Null), s)
  }

  /** The shared meaning of `let`, `int` and `float` statements: evaluate the
      value, bind it unless it is an error, and yield NULL. */
  function Declare(name: string, value: Node, env: Environment, s: Store, fl: FloatOps): (Outcome<Object>, Store)
    decreases value, 3
  {
    var (v, s1) := Evaluate(value, env, s, fl);
    if Aborts(v) then (v, s1) else (Done(Null), s1[name := v.value])
  }

  /** evalBlockStatement, from the statement list's suffix `stmts` with `last`
      the previous statement's result. */
  function EvaluateBlock(stmts: seq<Node>, env: Environment, s: Store, last: Object, fl: FloatOps): (Outcome<Object>, Store)
    decreases stmts, 1
  {
    if stmts == [] then (Done(last), s)
    else
      var (r, s1) := Evaluate(stmts[0], env, s, fl);
      if r.Panic? || StopsBlock(r.value) then (r, s1)
      else EvaluateBlock(stmts[1..], env, s1, r.value, fl)
  }

  /** evalProgram, from the statement list's suffix `stmts`: like a block, but a
      ReturnValue is unwrapped (once) on the way out. */
  function EvaluateProgram(stmts: seq<Node>, env: Environment, s: Store, last: Object, fl: FloatOps): (Outcome<Object>, Store)
    decreases stmts, 1
  {
    if stmts == [] then (Done(last), s)
    else
      var (r, s1) := Evaluate(stmts[0], env, s, fl);
      if r.Panic? then (r, s1)
      else if r.value.ReturnValue? then (Done(r.value.inner), s1)
      else if r.value.Error? then (r, s1)
      else EvaluateProgram(stmts[1..], env, s1, r.value, fl)
  }

  /** evalExpressions, from the suffix `exps` with the values so far in `acc`:
      the first error replaces the whole list. */
  function EvaluateExpressions(exps: seq<Node>, env: Environment, s: Store, acc: seq<Object>, fl: FloatOps)
    : (Outcome<seq<Object>>, Store)
    decreases exps, 1
  {
    if exps == [] then (Done(acc), s)
    else
      var (r, s1) := Evaluate(exps[0], env, s, fl);
      if r.Panic? then (Panic(r.reason), s1)
      else if IsError(r.value) then (Done([r.value]), s1)
      else EvaluateExpressions(exps[1..], env, s1, acc + [r.value], fl)
  }

  /** evalIdentifier: looks the name up through Environment.Get. */
  method EvalIdentifier(name: string, env: Environment) returns (r: Object)
    ensures name in env.store ==> r == env.store[name]
    ensures name !in env.store ==> r == Error("identifier not found: " + name)
  {
    var val, ok := env.Get(name);
    if !ok {
      return Error("identifier not found: " + name);
    }
    r := val;
  }

  /** Eval: dispatch on the node kind. */
  method Eval(n: Node, env: Environment, fl: FloatOps) returns (r: Outcome<Object>)
    modifies env
    ensures (r, env.store) == Evaluate(n, env, old(env.store), fl)
    decreases n, 2
  {
    match n {
      case FunctionLiteral(params, body) =>
        r := Done(Function(params, body, env));
      case Identifier(name) =>
        var v := EvalIdentifier(name, env);
        r := Done(v);
      case CallExpression(callee, args) =>
        var f := Eval(callee, env, fl);
        if Aborts(f) {
          return f;
        }
        var vs := EvalExpressions(args, env, fl);
        if vs.Panic? {
          return Panic(vs.reason);
        }
        if |vs.value| == 1 && IsError(vs.value[0]) {
          return Done(vs.value[0]);
        }
        r := Done(Null);
      case LetStatement(name, value) =>
        r := EvalDeclaration(name, value, env, fl);
      case IntStatement(name, value) =>
        r := EvalDeclaration(name, value, env, fl);
      case FloatStatement(name, value) =>
        r := EvalDeclaration(name, value, env, fl);
      case Program(stmts) =>
        r := EvalProgram(n, env, fl);
      case ExpressionStatement(e) =>
        r := Eval(e, env, fl);
      case IntegerLiteral(v) =>
        r := Done(Integer(v));
      case FloatLiteral(f) =>
        r := Done(Float(f));
      case BooleanLiteral(b) =>
        r := Done(Boolean(b));
      case PrefixExpression(op, right) =>
        var v := Eval(right, env, fl);
        if Aborts(v) {
          return v;
        }
        r := EvalPrefixExpression(op, v.value, fl);
      case InfixExpression(left, op, right) =>
        var lv := Eval(left, env, fl);
        if Aborts(lv) {
          return lv;
        }
        var rv := Eval(right, env, fl);
        if Aborts(rv) {
          return rv;
        }
        r := EvalInfixExpression(lv.value, op, rv.value, fl);
      case BlockStatement(stmts) =>
        r := EvalBlockStatement(n, env, fl);
      case IfExpression(_, _, _) =>
        r := EvalIfExpression(n, env, fl);
      case ReturnStatement(e) =>
        var v := Eval(e, env, fl);
        if Aborts(v) {
          return v;
        }
        r := Done(ReturnValue(v.value));
      case StringLiteral(_) =>
        r := Done(Null);
    }
  }

  /** The Let/Int/Float branches of Eval: bind the value through Environment.Set. */
  method EvalDeclaration(name: string, value: Node, env: Environment, fl: FloatOps) returns (r: Outcome<Object>)
    modifies env
    ensures (r, env.store) == Declare(name, value, env, old(env.store), fl)
    decreases value, 3
  {
    var v := Eval(value, env, fl);
    if Aborts(v) {
      return v;
    }
    var bound := env.Set(name, v.value);
    r := Done(Null);
  }

  /** evalExpressions: evaluates the arguments left to right into a list. */
  method EvalExpressions(exps: seq<Node>, env: Environment, fl: FloatOps) returns (r: Outcome<seq<Object>>)
    modifies env
    ensures (r, env.store) == EvaluateExpressions(exps, env, old(env.store), [], fl)
    decreases exps, 1
  {
    var result: seq<Object> := [];
    var i := 0;
    while i < |exps|
      invariant 0 <= i <= |exps|
      invariant EvaluateExpressions(exps[i..], env, env.store, result, fl)
        == EvaluateExpressions(exps, env, old(env.store), [], fl)
      decreases |exps| - i
    {
      assert exps[i..][0] == exps[i] && exps[i..][1..] == exps[i + 1..];
      var evaluated := Eval(exps[i], env, fl);
      if evaluated.Panic? {
        return Panic(evaluated.reason);
      }
      if IsError(evaluated.value) {
        return Done([evaluated.value]);
      }
      result := result + [evaluated.value];
      i := i + 1;
    }
    assert exps[i..] == [];
    r := Done(result);
  }

  /** evalProgram: runs the statements in order, stopping at a return (which it
      unwraps) or an error. */
  method EvalProgram(program: Node, env: Environment, fl: FloatOps) returns (r: Outcome<Object>)
    requires program.Program?
    modifies env
    ensures (r, env.store) == EvaluateProgram(program.statements, env, old(env.store), Nil, fl)
    decreases program, 1
  {
    var stmts := program.statements;
    var result := Nil;
    var i := 0;
    while i < |stmts|
      invariant 0 <= i <= |stmts|
      invariant EvaluateProgram(stmts[i..], env, env.store, result, fl)
        == EvaluateProgram(stmts, env, old(env.store), Nil, fl)
      decreases |stmts| - i
    {
      assert stmts[i..][0] == stmts[i] && stmts[i..][1..] == stmts[i + 1..];
      var res := Eval(stmts[i], env, fl);
      if res.Panic? {
        return res;
      }
      result := res.value;
      if result.ReturnValue? {
        return Done(result.inner);
      }
      if result.Error? {
        return res;
      }
      i := i + 1;
    }
    assert stmts[i..] == [];
    r := Done(result);
  }

  /** evalBlockStatement: runs the statements in order, stopping at a non-nil
      RETURN_VALUE or ERROR, which it returns still wrapped. */
  method EvalBlockStatement(block: Node, env: Environment, fl: FloatOps) returns (r: Outcome<Object>)
    requires block.BlockStatement?
    modifies env
    ensures (r, env.store) == EvaluateBlock(block.statements, env, old(env.store), Nil, fl)
    decreases block, 1
  {
    var stmts := block.statements;
    var result := Nil;
    var i := 0;
    while i < |stmts|
      invariant 0 <= i <= |stmts|
      invariant EvaluateBlock(stmts[i..], env, env.store, result, fl)
        == EvaluateBlock(stmts, env, old(env.store), Nil, fl)
      decreases |stmts| - i
    {
      assert stmts[i..][0] == stmts[i] && stmts[i..][1..] == stmts[i + 1..];
      var res := Eval(stmts[i], env, fl);
      if res.Panic? {
        return res;
      }
      result := res.value;
      if result != Nil {
        var rt := TypeOf(result);
        if rt == ReturnValueObj || rt == ErrorObj {
          return res;
        }
      }
      i := i + 1;
    }
    assert stmts[i..] == [];
    r := Done(result);
  }

  /** evalIfExpression: the condition, then the branch its truthiness selects,
      or NULL when it is falsy and there is no alternative. */
  method EvalIfExpression(ie: Node, env: Environment, fl: FloatOps) returns (r: Outcome<Object>)
    requires ie.IfExpression?
    modifies env
    ensures (r, env.store) == Evaluate(ie, env, old(env.store), fl)
    decreases ie, 1
  {
    var condition := Eval(ie.condition, env, fl);
    if Aborts(condition) {
      return condition;
    }
    if IsTruthy(condition.value) {
      r := Eval(ie.consequence, env, fl);
    } else if ie.alternative.Some? {
      r := Eval(ie.alternative.value, env, fl);
    } else {
      r := Done(Null);
    }
  }
}
