/**
 * Properties of evaluation: which names a node can rebind, how a program
 * relates to a block, when evaluation cannot panic, and how errors short-circuit.
 */
module EvaluatorProperties {
  import opened Numbers
  import opened Ast
  import opened Objects
  import opened Operators
  import opened Evaluator

  /** The names a node can bind when evaluated: those of its declarations,
      except inside function bodies, which are never run. */
  function DeclaredNames(n: Node): set<string>
    decreases n, 2
  {
    match n
    case LetStatement(name, value) => {name} + DeclaredNames(value)
    case IntStatement(name, value) => {name} + DeclaredNames(value)
    case FloatStatement(name, value) => {name} + DeclaredNames(value)
    case Program(stmts) => DeclaredNamesIn(stmts)
    case BlockStatement(stmts) => DeclaredNamesIn(stmts)
    case ExpressionStatement(e) => DeclaredNames(e)
    case ReturnStatement(e) => DeclaredNames(e)
    case CallExpression(callee, args) => DeclaredNames(callee) + DeclaredNamesIn(args)
    case PrefixExpression(_, right) => DeclaredNames(right)
    case InfixExpression(left, _, right) => DeclaredNames(left) + DeclaredNames(right)
    case IfExpression(cond, cons, alt) =>
      DeclaredNames(cond) + DeclaredNames(cons) + (if alt.Some? then DeclaredNames(alt.value) else {})
    case _ => {}
  }

  function DeclaredNamesIn(ns: seq<Node>): set<string>
    decreases ns, 1
  {
    if ns == [] then {} else DeclaredNames(ns[0]) + DeclaredNamesIn(ns[1..])
  }

  /** `t` keeps every binding of `s` except possibly those of `names`, and
      drops no name. */
  predicate ChangesOnly(s: Store, t: Store, names: set<string>)
  {
    s.Keys <= t.Keys && forall k :: k in t && k !in names ==> k in s && t[k] == s[k]
  }

  lemma ChangesOnlyCompose(s: Store, t: Store, u: Store, a: set<string>, b: set<string>)
    requires ChangesOnly(s, t, a) && ChangesOnly(t, u, b)
    ensures ChangesOnly(s, u, a + b)
  {
  }

  /** Evaluation only ever adds or rebinds the names the node declares. */
  lemma {:induction false} EvaluateFrame(n: Node, env: Environment, s: Store, fl: FloatOps)
    ensures ChangesOnly(s, Evaluate(n, env, s, fl).1, DeclaredNames(n))
    decreases n, 2
  {
    match n
    case LetStatement(name, value) => EvaluateFrame(value, env, s, fl);
    case IntStatement(name, value) => EvaluateFrame(value, env, s, fl);
    case FloatStatement(name, value) => EvaluateFrame(value, env, s, fl);
    case Program(stmts) => ProgramFrame(stmts, env, s, Nil, fl);
    case BlockStatement(stmts) => BlockFrame(stmts, env, s, Nil, fl);
    case ExpressionStatement(e) => EvaluateFrame(e, env, s, fl);
    case ReturnStatement(e) => EvaluateFrame(e, env, s, fl);
    case CallExpression(callee, args) =>
      EvaluateFrame(callee, env, s, fl);
      var s1 := Evaluate(callee, env, s, fl).1;
      ExpressionsFrame(args, env, s1, [], fl);
      ChangesOnlyCompose(s, s1, EvaluateExpressions(args, env, s1, [], fl).1,
        DeclaredNames(callee), DeclaredNamesIn(args));
    case PrefixExpression(_, right) => EvaluateFrame(right, env, s, fl);
    case InfixExpression(left, _, right) =>
      EvaluateFrame(left, env, s, fl);
      var s1 := Evaluate(left, env, s, fl).1;
      EvaluateFrame(right, env, s1, fl);
      ChangesOnlyCompose(s, s1, Evaluate(right, env, s1, fl).1, DeclaredNames(left), DeclaredNames(right));
    case IfExpression(cond, cons, alt) => IfFrame(cond, cons, alt, env, s, fl);
    case _ =>
  }

  /** The if case of EvaluateFrame: the condition's names, then those of the
      branch taken. */
  lemma {:induction false} IfFrame(cond: Node, cons: Node, alt: Option<Node>, env: Environment, s: Store, fl: FloatOps)
    ensures var n := IfExpression(cond, cons, alt); ChangesOnly(s, Evaluate(n, env, s, fl).1, DeclaredNames(n))
    decreases IfExpression(cond, cons, alt), 1
  {
    EvaluateFrame(cond, env, s, fl);
    var s1 := Evaluate(cond, env, s, fl).1;
    EvaluateFrame(cons, env, s1, fl);
    ChangesOnlyCompose(s, s1, Evaluate(cons, env, s1, fl).1, DeclaredNames(cond), DeclaredNames(cons));
    if alt.Some? {
      EvaluateFrame(alt.value, env, s1, fl);
      ChangesOnlyCompose(s, s1, Evaluate(alt.value, env, s1, fl).1, DeclaredNames(cond), DeclaredNames(alt.value));
    }
  }

  lemma {:induction false} BlockFrame(stmts: seq<Node>, env: Environment, s: Store, last: Object, fl: FloatOps)
    ensures ChangesOnly(s, EvaluateBlock(stmts, env, s, last, fl).1, DeclaredNamesIn(stmts))
    decreases stmts, 1
  {
    if stmts != [] {
      EvaluateFrame(stmts[0], env, s, fl);
      var (r, s1) := Evaluate(stmts[0], env, s, fl);
      if !(r.Panic? || StopsBlock(r.value)) {
        BlockFrame(stmts[1..], env, s1, r.value, fl);
        ChangesOnlyCompose(s, s1, EvaluateBlock(stmts[1..], env, s1, r.value, fl).1,
          DeclaredNames(stmts[0]), DeclaredNamesIn(stmts[1..]));
      }
    }
  }

  lemma {:induction false} ProgramFrame(stmts: seq<Node>, env: Environment, s: Store, last: Object, fl: FloatOps)
    ensures ChangesOnly(s, EvaluateProgram(stmts, env, s, last, fl).1, DeclaredNamesIn(stmts))
    decreases stmts, 1
  {
    if stmts != [] {
      EvaluateFrame(stmts[0], env, s, fl);
      var (r, s1) := Evaluate(stmts[0], env, s, fl);
      if !(r.Panic? || r.value.ReturnValue? || r.value.Error?) {
        ProgramFrame(stmts[1..], env, s1, r.value, fl);
        ChangesOnlyCompose(s, s1, EvaluateProgram(stmts[1..], env, s1, r.value, fl).1,
          DeclaredNames(stmts[0]), DeclaredNamesIn(stmts[1..]));
      }
    }
  }

  lemma {:induction false} ExpressionsFrame(exps: seq<Node>, env: Environment, s: Store, acc: seq<Object>, fl: FloatOps)
    ensures ChangesOnly(s, EvaluateExpressions(exps, env, s, acc, fl).1, DeclaredNamesIn(exps))
    decreases exps, 1
  {
    if exps != [] {
      EvaluateFrame(exps[0], env, s, fl);
      var (r, s1) := Evaluate(exps[0], env, s, fl);
      if !(r.Panic? || IsError(r.value)) {
        ExpressionsFrame(exps[1..], env, s1, acc + [r.value], fl);
        ChangesOnlyCompose(s, s1, EvaluateExpressions(exps[1..], env, s1, acc + [r.value], fl).1,
          DeclaredNames(exps[0]), DeclaredNamesIn(exps[1..]));
      }
    }
  }

  /** A node without declarations (outside function bodies) leaves the
      environment exactly as it found it. */
  lemma NoDeclarationsNoChange(n: Node, env: Environment, s: Store, fl: FloatOps)
    requires DeclaredNames(n) == {}
    ensures Evaluate(n, env, s, fl).1 == s
  {
    EvaluateFrame(n, env, s, fl);
  }

  /**
   * A program behaves as a block of the same statements, except that a
   * ReturnValue result is unwrapped once. (So `return return 5` at the top
   * level still yields a ReturnValue.)
   */
  lemma {:induction false} ProgramIsUnwrappedBlock(stmts: seq<Node>, env: Environment, s: Store, last: Object, fl: FloatOps)
    requires !last.ReturnValue?
    ensures var (rb, sb) := EvaluateBlock(stmts, env, s, last, fl);
      var (rp, sp) := EvaluateProgram(stmts, env, s, last, fl);
      sp == sb && rp == (if rb.Done? && rb.value.ReturnValue? then Done(rb.value.inner) else rb)
    decreases stmts
  {
    if stmts != [] {
      var (r, s1) := Evaluate(stmts[0], env, s, fl);
      if !(r.Panic? || r.value.ReturnValue? || r.value.Error?) {
        ProgramIsUnwrappedBlock(stmts[1..], env, s1, r.value, fl);
      }
    }
  }

  /** The node-level form: Program(stmts) is BlockStatement(stmts) with the
      final ReturnValue unwrapped. */
  lemma ProgramNodeIsUnwrappedBlockNode(stmts: seq<Node>, env: Environment, s: Store, fl: FloatOps)
    ensures var (rb, sb) := Evaluate(BlockStatement(stmts), env, s, fl);
      var (rp, sp) := Evaluate(Program(stmts), env, s, fl);
      sp == sb && rp == (if rb.Done? && rb.value.ReturnValue? then Done(rb.value.inner) else rb)
  {
    ProgramIsUnwrappedBlock(stmts, env, s, Nil, fl);
  }

  /** Every binding holds a value that can be dereferenced all the way down. */
  predicate NilFree(s: Store)
  {
    forall k :: k in s ==> Inspectable(s[k])
  }

  /** The syntactic condition under which evaluation cannot panic: no integer
      division that might divide by zero (no `/` at all) and no empty block or
      program, whose nil result would reach an operator. Function bodies are
      never run, so they are unconstrained. */
  predicate Safe(n: Node)
    decreases n, 2
  {
    match n
    case Program(stmts) => stmts != [] && SafeAll(stmts)
    case BlockStatement(stmts) => stmts != [] && SafeAll(stmts)
    case LetStatement(_, value) => Safe(value)
    case IntStatement(_, value) => Safe(value)
    case FloatStatement(_, value) => Safe(value)
    case ExpressionStatement(e) => Safe(e)
    case ReturnStatement(e) => Safe(e)
    case CallExpression(callee, args) => Safe(callee) && SafeAll(args)
    case PrefixExpression(_, right) => Safe(right)
    case InfixExpression(left, op, right) => op != "/" && Safe(left) && Safe(right)
    case IfExpression(cond, cons, alt) => Safe(cond) && Safe(cons) && (alt.Some? ==> Safe(alt.value))
    case _ => true
  }

  predicate SafeAll(ns: seq<Node>)
    decreases ns, 1
  {
    ns == [] || (Safe(ns[0]) && SafeAll(ns[1..]))
  }

  /** Operators other than `/` never panic on operands free of nil. */
  lemma InfixNeverPanics(l: Object, op: string, r: Object, fl: FloatOps)
    requires op != "/" && Inspectable(l) && Inspectable(r)
    ensures var o := EvalInfixExpression(l, op, r, fl); o.Done? && Inspectable(o.value)
  {
  }

  lemma PrefixNeverPanics(op: string, v: Object, fl: FloatOps)
    requires Inspectable(v)
    ensures var o := EvalPrefixExpression(op, v, fl); o.Done? && Inspectable(o.value)
  {
  }

  lemma BindKeepsNilFree(s: Store, name: string, v: Object)
    requires NilFree(s) && Inspectable(v)
    ensures NilFree(s[name := v])
  {
  }

  /** A Safe node evaluated over nil-free bindings never panics, yields a
      nil-free value, and leaves the bindings nil-free. */
  lemma {:induction false} SafeNeverPanics(n: Node, env: Environment, s: Store, fl: FloatOps)
    requires Safe(n) && NilFree(s)
    ensures var (r, t) := Evaluate(n, env, s, fl); r.Done? && Inspectable(r.value) && NilFree(t)
    decreases n, 2
  {
    match n
    case LetStatement(name, value) => SafeDeclarationNeverPanics(name, value, env, s, fl);
    case IntStatement(name, value) => SafeDeclarationNeverPanics(name, value, env, s, fl);
    case FloatStatement(name, value) => SafeDeclarationNeverPanics(name, value, env, s, fl);
    case Program(stmts) => SafeProgramNeverPanics(stmts, env, s, Nil, fl);
    case BlockStatement(stmts) => SafeBlockNeverPanics(stmts, env, s, Nil, fl);
    case ExpressionStatement(e) => SafeNeverPanics(e, env, s, fl);
    case ReturnStatement(e) => SafeNeverPanics(e, env, s, fl);
    case CallExpression(callee, args) =>
      SafeNeverPanics(callee, env, s, fl);
      var s1 := Evaluate(callee, env, s, fl).1;
      SafeExpressionsNeverPanic(args, env, s1, [], fl);
    case PrefixExpression(op, right) =>
      SafeNeverPanics(right, env, s, fl);
      var v := Evaluate(right, env, s, fl).0;
      PrefixNeverPanics(op, v.value, fl);
    case InfixExpression(left, op, right) =>
      SafeNeverPanics(left, env, s, fl);
      var (lv, s1) := Evaluate(left, env, s, fl);
      SafeNeverPanics(right, env, s1, fl);
      var rv := Evaluate(right, env, s1, fl).0;
      InfixNeverPanics(lv.value, op, rv.value, fl);
    case IfExpression(cond, cons, alt) =>
      SafeNeverPanics(cond, env, s, fl);
      var s1 := Evaluate(cond, env, s, fl).1;
      SafeNeverPanics(cons, env, s1, fl);
      if alt.Some? {
        SafeNeverPanics(alt.value, env, s1, fl);
      }
    case _ =>
  }

  lemma {:induction false} SafeDeclarationNeverPanics(name: string, value: Node, env: Environment, s: Store, fl: FloatOps)
    requires Safe(value) && NilFree(s)
    ensures var (r, t) := Declare(name, value, env, s, fl); r.Done? && Inspectable(r.value) && NilFree(t)
    decreases value, 3
  {
    SafeNeverPanics(value, env, s, fl);
    var (v, s1) := Evaluate(value, env, s, fl);
    BindKeepsNilFree(s1, name, v.value);
  }

  lemma {:induction false} SafeBlockNeverPanics(stmts: seq<Node>, env: Environment, s: Store, last: Object, fl: FloatOps)
    requires SafeAll(stmts) && NilFree(s) && (stmts != [] || Inspectable(last))
    ensures var (r, t) := EvaluateBlock(stmts, env, s, last, fl); r.Done? && Inspectable(r.value) && NilFree(t)
    decreases stmts, 1
  {
    if stmts != [] {
      SafeNeverPanics(stmts[0], env, s, fl);
      var (r, s1) := Evaluate(stmts[0], env, s, fl);
      if !StopsBlock(r.value) {
        SafeBlockNeverPanics(stmts[1..], env, s1, r.value, fl);
      }
    }
  }

  lemma {:induction false} SafeProgramNeverPanics(stmts: seq<Node>, env: Environment, s: Store, last: Object, fl: FloatOps)
    requires SafeAll(stmts) && NilFree(s) && (stmts != [] || Inspectable(last))
    ensures var (r, t) := EvaluateProgram(stmts, env, s, last, fl); r.Done? && Inspectable(r.value) && NilFree(t)
    decreases stmts, 1
  {
    if stmts != [] {
      SafeNeverPanics(stmts[0], env, s, fl);
      var (r, s1) := Evaluate(stmts[0], env, s, fl);
      if !(r.value.ReturnValue? || r.value.Error?) {
        SafeProgramNeverPanics(stmts[1..], env, s1, r.value, fl);
      }
    }
  }

  lemma {:induction false} SafeExpressionsNeverPanic(exps: seq<Node>, env: Environment, s: Store, acc: seq<Object>, fl: FloatOps)
    requires SafeAll(exps) && NilFree(s)
    ensures var (r, t) := EvaluateExpressions(exps, env, s, acc, fl); r.Done? && NilFree(t)
    decreases exps, 1
  {
    if exps != [] {
      SafeNeverPanics(exps[0], env, s, fl);
      var (r, s1) := Evaluate(exps[0], env, s, fl);
      if !IsError(r.value) {
        SafeExpressionsNeverPanic(exps[1..], env, s1, acc + [r.value], fl);
      }
    }
  }

  /** evalExpressions yields either the single first error, or one error-free
      value per expression appended to what came before. */
  lemma {:induction false} ExpressionsShape(exps: seq<Node>, env: Environment, s: Store, acc: seq<Object>, fl: FloatOps)
    requires forall i :: 0 <= i < |acc| ==> !IsError(acc[i])
    ensures var r := EvaluateExpressions(exps, env, s, acc, fl).0;
      r.Done? ==>
        (|r.value| == 1 && IsError(r.value[0])) ||
        (|r.value| == |acc| + |exps| && r.value[..|acc|] == acc &&
         forall i :: 0 <= i < |r.value| ==> !IsError(r.value[i]))
    decreases exps
  {
    if exps != [] {
      var (r, s1) := Evaluate(exps[0], env, s, fl);
      if !(r.Panic? || IsError(r.value)) {
        ExpressionsShape(exps[1..], env, s1, acc + [r.value], fl);
        var res := EvaluateExpressions(exps[1..], env, s1, acc + [r.value], fl).0;
        if res.Done? && |res.value| == |acc| + 1 + |exps[1..]| {
          assert res.value[..|acc|] == (acc + [r.value])[..|acc|];
        }
      }
    }
  }

  /** No call is ever applied: a call that does not panic yields NULL or an
      error (from the callee or from the first erroring argument). */
  lemma CallsYieldNullOrError(callee: Node, args: seq<Node>, env: Environment, s: Store, fl: FloatOps)
    ensures var r := Evaluate(CallExpression(callee, args), env, s, fl).0;
      r.Done? ==> r.value == Null || r.value.Error?
  {
    var (f, s1) := Evaluate(callee, env, s, fl);
    if !Aborts(f) {
      var vs := EvaluateExpressions(args, env, s1, [], fl).0;
      if vs.Done? && |vs.value| == 1 && IsError(vs.value[0]) {
        assert vs.value[0].Error?;
      }
    }
  }

  /** An error (or panic) from a sub-evaluation is the whole result, with the
      bindings as that sub-evaluation left them: later operands, branches and
      bindings are skipped. */
  lemma AbortsPropagate(n: Node, env: Environment, s: Store, fl: FloatOps)
    ensures n.PrefixExpression? && Aborts(Evaluate(n.right, env, s, fl).0) ==>
      Evaluate(n, env, s, fl) == Evaluate(n.right, env, s, fl)
    ensures n.InfixExpression? && Aborts(Evaluate(n.left, env, s, fl).0) ==>
      Evaluate(n, env, s, fl) == Evaluate(n.left, env, s, fl)
    ensures (n.InfixExpression? && !Aborts(Evaluate(n.left, env, s, fl).0) &&
             Aborts(Evaluate(n.right, env, Evaluate(n.left, env, s, fl).1, fl).0)) ==>
      Evaluate(n, env, s, fl) == Evaluate(n.right, env, Evaluate(n.left, env, s, fl).1, fl)
    ensures n.IsDeclaration() && Aborts(Evaluate(n.value, env, s, fl).0) ==>
      Evaluate(n, env, s, fl) == Evaluate(n.value, env, s, fl)
    ensures n.ReturnStatement? && Aborts(Evaluate(n.returnValue, env, s, fl).0) ==>
      Evaluate(n, env, s, fl) == Evaluate(n.returnValue, env, s, fl)
    ensures n.CallExpression? && Aborts(Evaluate(n.callee, env, s, fl).0) ==>
      Evaluate(n, env, s, fl) == Evaluate(n.callee, env, s, fl)
    ensures n.IfExpression? && Aborts(Evaluate(n.condition, env, s, fl).0) ==>
      Evaluate(n, env, s, fl) == Evaluate(n.condition, env, s, fl)
  {
  }

  /** A declaration whose value evaluates without error binds exactly that value
      under its name and yields NULL. */
  lemma DeclarationBinds(n: Node, env: Environment, s: Store, fl: FloatOps)
    requires n.IsDeclaration()
    ensures var (v, s1) := Evaluate(n.value, env, s, fl);
      !Aborts(v) ==> Evaluate(n, env, s, fl) == (Done(Null), s1[n.name := v.value])
  {
  }

  /** The if expression: a truthy condition selects the consequence, a falsy
      one the alternative, or NULL when there is none. */
  lemma IfSelectsBranch(cond: Node, cons: Node, alt: Option<Node>, env: Environment, s: Store, fl: FloatOps)
    ensures var (c, s1) := Evaluate(cond, env, s, fl);
      var r := Evaluate(IfExpression(cond, cons, alt), env, s, fl);
      !Aborts(c) ==>
        (IsTruthy(c.value) ==> r == Evaluate(cons, env, s1, fl)) &&
        (!IsTruthy(c.value) && alt.Some? ==> r == Evaluate(alt.value, env, s1, fl)) &&
        (!IsTruthy(c.value) && alt.None? ==> r == (Done(Null), s1))
  {
  }

  /** A function literal captures the current environment and runs nothing: the
      bindings are unchanged whatever its body declares. */
  lemma FunctionLiteralCaptures(params: seq<string>, body: Node, env: Environment, s: Store, fl: FloatOps)
    ensures Evaluate(FunctionLiteral(params, body), env, s, fl) == (Done(Function(params, body, env)), s)
  {
  }
}
