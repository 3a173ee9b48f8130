/**
 * The evaluator's pure operator helpers (evaluator.go): truthiness, the two
 * prefix operators, and the eight infix operators with their integer/float
 * promotion and type-mismatch errors.
 *
 * Every `Type()` call the source makes on a nil operand is a nil-pointer
 * panic; these functions return `Panic` in exactly those cases. Integer
 * division by zero is Go's run-time panic as well.
 */
module Operators {
  import opened Numbers
  import opened Objects

  /** Go's isError: a non-nil value tagged ERROR. */
  predicate IsError(o: Object)
    ensures IsError(o) <==> o.Error?
  {
    !o.Nil? && TypeOf(o) == ErrorObj
  }

  /** Go's isTruthy: only FALSE and NULL are falsy; integers, errors, functions
      and even nil count as true. */
  predicate IsTruthy(o: Object)
    ensures o.Boolean? ==> (IsTruthy(o) <==> o.boolValue)
    ensures o.Null? ==> !IsTruthy(o)
    ensures !(o.Boolean? || o.Null?) ==> IsTruthy(o)
  {
    !(o == Boolean(false) || o == Null)
  }

  predicate IsNumeric(o: Object) { o.Integer? || o.Float? }

  /** The float64 conversion the source applies to the integer side of a mixed pair. */
  function AsFloat(o: Object, fl: FloatOps): Float64
    requires IsNumeric(o)
  {
    if o.Integer? then fl.fromInt(o.intValue) else o.floatValue
  }

  const NilDereference := "invalid memory address or nil pointer dereference"
  const DivideByZero := "integer divide by zero"

  /** evalBangPrefixExpression. */
  function EvalBangPrefix(right: Object): (r: Outcome<Object>)
    ensures r.Panic? <==> right.Nil?
    ensures (right.Boolean? || right.Null?) ==> r == Done(Boolean(!IsTruthy(right)))
    ensures !(right.Nil? || right.Boolean? || right.Null?) ==>
      r == Done(Error("type mismatch: !" + TypeOf(right).Name()))
  {
    match right
    case Boolean(b) => Done(Boolean(!b))
    case Null => Done(Boolean(true))
    case Nil => Panic(NilDereference)
    case _ => Done(Error("type mismatch: !" + TypeOf(right).Name()))
  }

  /** evalMinusPrefixExpression: `0 - v` in the operand's own type. */
  function EvalMinusPrefix(right: Object, fl: FloatOps): (r: Outcome<Object>)
    ensures r.Panic? <==> right.Nil?
    ensures right.Integer? ==> r == Done(Integer(Wrap(0 - right.intValue)))
    ensures right.Float? ==> r == Done(Float(fl.sub(fl.fromInt(0), right.floatValue)))
    ensures !(right.Nil? || IsNumeric(right)) ==>
      r == Done(Error("type mismatch: -" + TypeOf(right).Name()))
  {
    match right
    case Nil => Panic(NilDereference)
    case Integer(v) => Done(Integer(Wrap(0 - v)))
    case Float(f) => Done(Float(fl.sub(fl.fromInt(0), f)))
    case _ => Done(Error("type mismatch: -" + TypeOf(right).Name()))
  }

  /** evalPrefixExpression: `!`, `-`, or an unknown-operator error naming the
      operand's tag. */
  function EvalPrefixExpression(operator: string, right: Object, fl: FloatOps): (r: Outcome<Object>)
    ensures r.Panic? <==> right.Nil?
    ensures operator == "!" ==> r == EvalBangPrefix(right)
    ensures operator == "-" ==> r == EvalMinusPrefix(right, fl)
    ensures operator != "!" && operator != "-" && !right.Nil? ==>
      r == Done(Error("unknown operator: " + operator + TypeOf(right).Name()))
    ensures r.Done? ==> r.value.Boolean? || r.value.Integer? || r.value.Float? || r.value.Error?
  {
    if operator == "!" then EvalBangPrefix(right)
    else if operator == "-" then EvalMinusPrefix(right, fl)
    else if right.Nil? then Panic(NilDereference)
    else Done(Error("unknown operator: " + operator + TypeOf(right).Name()))
  }

  /** `!!b` is `b` for every Boolean; `!!null` is false, so double negation
      turns NULL into FALSE. */
  lemma BangTwice(b: bool)
    ensures EvalBangPrefix(EvalBangPrefix(Boolean(b)).value) == Done(Boolean(b))
    ensures EvalBangPrefix(EvalBangPrefix(Null).value) == Done(Boolean(false))
  {
  }

  /** `-(-v)` is `v` for every int64, the overflowing MinInt64 included, whose
      negation wraps to itself. */
  lemma MinusTwice(v: Int64, fl: FloatOps)
    ensures EvalMinusPrefix(EvalMinusPrefix(Integer(v), fl).value, fl) == Done(Integer(v))
    ensures EvalMinusPrefix(Integer(MinInt64), fl) == Done(Integer(MinInt64))
  {
    if v == MinInt64 {
      assert Wrap(0 - v) == MinInt64;
    } else {
      assert Wrap(0 - v) == 0 - v;
    }
  }

  /** The four arithmetic operators. */
  datatype ArithOp = Add | Sub | Mul | Div
  {
    function Symbol(): string
    {
      match this
      case Add => "+"
      case Sub => "-"
      case Mul => "*"
      case Div => "/"
    }
  }

  /** Go's int64 arithmetic: wrap-around for +, - and *, truncating quotient for /. */
  function IntArith(op: ArithOp, a: Int64, b: Int64): Int64
    requires op.Div? ==> b != 0
  {
    match op
    case Add => Wrap(a + b)
    case Sub => Wrap(a - b)
    case Mul => Wrap(a * b)
    case Div => GoQuotient(a, b)
  }

  function FloatArith(op: ArithOp, fl: FloatOps, x: Float64, y: Float64): Float64
  {
    match op
    case Add => fl.add(x, y)
    case Sub => fl.sub(x, y)
    case Mul => fl.mul(x, y)
    case Div => fl.div(x, y)
  }

  function Mismatch(l: Object, symbol: string, r: Object): Object
    requires !l.Nil? && !r.Nil?
  {
    Error("type mismatch: " + TypeOf(l).Name() + " " + symbol + " " + TypeOf(r).Name())
  }

  /**
   * evalPlus/Subtract/Multiply/DivideInfixExpression: the four functions share
   * one shape and differ only in the operator applied.
   */
  function Arithmetic(op: ArithOp, l: Object, r: Object, fl: FloatOps): (res: Outcome<Object>)
    ensures res.Panic? <==>
      l.Nil? || r.Nil? || (op.Div? && l.Integer? && r.Integer? && r.intValue == 0)
    ensures res.Done? && res.value.Integer? <==> res.Done? && l.Integer? && r.Integer?
    ensures res.Done? && l.Integer? && r.Integer? ==>
      res.value.intValue == IntArith(op, l.intValue, r.intValue)
    ensures res.Done? && res.value.Float? <==> IsNumeric(l) && IsNumeric(r) && (l.Float? || r.Float?)
    ensures res.Done? && res.value.Error? <==> !l.Nil? && !r.Nil? && !(IsNumeric(l) && IsNumeric(r))
    ensures res.Done? && res.value.Error? ==>
      res.value.message == "type mismatch: " + TypeOf(l).Name() + " " + op.Symbol() + " " + TypeOf(r).Name()
  {
    if l.Nil? || r.Nil? then Panic(NilDereference)
    else if l.Integer? && r.Integer? then
      if op.Div? && r.intValue == 0 then Panic(DivideByZero)
      else Done(Integer(IntArith(op, l.intValue, r.intValue)))
    else if IsNumeric(l) && IsNumeric(r) then
      Done(Float(FloatArith(op, fl, AsFloat(l, fl), AsFloat(r, fl))))
    else Done(Mismatch(l, op.Symbol(), r))
  }

  /** The four comparison operators. */
  datatype CompareOp = Less | Greater | Equal | NotEqual
  {
    function Symbol(): string
    {
      match this
      case Less => "<"
      case Greater => ">"
      case Equal => "=="
      case NotEqual => "!="
    }
  }

  /** IEEE `>` is `<` with the operands swapped, and `!=` is the negation of
      `==` (true for NaN operands), so `less` and `equal` suffice. */
  function FloatCompare(op: CompareOp, fl: FloatOps, x: Float64, y: Float64): bool
  {
    match op
    case Less => fl.less(x, y)
    case Greater => fl.less(y, x)
    case Equal => fl.equal(x, y)
    case NotEqual => !fl.equal(x, y)
  }

  function IntCompare(op: CompareOp, a: Int64, b: Int64): bool
  {
    match op
    case Less => a < b
    case Greater => a > b
    case Equal => a == b
    case NotEqual => a != b
  }

  /**
   * evalLT/GT/Equals/NotEqualsInfixExpression. Numeric pairs compare after
   * promotion; `==` and `!=` also compare two Booleans (by identity of the
   * interned TRUE and FALSE, which is value equality).
   */
  function Comparison(op: CompareOp, l: Object, r: Object, fl: FloatOps): (res: Outcome<Object>)
    ensures res.Panic? <==> l.Nil? || r.Nil?
    ensures res.Done? ==> res.value.Boolean? || res.value.Error?
    ensures res.Done? && res.value.Boolean? <==>
      (IsNumeric(l) && IsNumeric(r)) ||
      ((op.Equal? || op.NotEqual?) && l.Boolean? && r.Boolean?)
    ensures l.Integer? && r.Integer? ==> res == Done(Boolean(IntCompare(op, l.intValue, r.intValue)))
    ensures l.Boolean? && r.Boolean? && op.Equal? ==> res == Done(Boolean(l.boolValue == r.boolValue))
    ensures res.Done? && res.value.Error? ==>
      res.value.message == "type mismatch: " + TypeOf(l).Name() + " " + op.Symbol() + " " + TypeOf(r).Name()
  {
    if l.Nil? || r.Nil? then Panic(NilDereference)
    else if l.Integer? && r.Integer? then Done(Boolean(IntCompare(op, l.intValue, r.intValue)))
    else if IsNumeric(l) && IsNumeric(r) then
      Done(Boolean(FloatCompare(op, fl, AsFloat(l, fl), AsFloat(r, fl))))
    else if (op.Equal? || op.NotEqual?) && l.Boolean? && r.Boolean? then
      Done(Boolean(if op.Equal? then l == r else l != r))
    else Done(Mismatch(l, op.Symbol(), r))
  }

  /**
   * evalInfixExpression: dispatch on the operator's spelling. An operator
   * outside the eight is reported as an error naming it, after the source has
   * printed both operands' tags (which panics on a nil operand).
   */
  function EvalInfixExpression(l: Object, operator: string, r: Object, fl: FloatOps): (res: Outcome<Object>)
    ensures res.Panic? <==>
      l.Nil? || r.Nil? || (operator == "/" && l.Integer? && r.Integer? && r.intValue == 0)
    ensures operator !in {"+", "-", "*", "/", "<", ">", "==", "!="} && !l.Nil? && !r.Nil? ==>
      res == Done(Error("How did you even do this... What operator is " + operator + "?"))
  {
    match operator
    case "+" => Arithmetic(Add, l, r, fl)
    case "*" => Arithmetic(Mul, l, r, fl)
    case "-" => Arithmetic(Sub, l, r, fl)
    case "/" => Arithmetic(Div, l, r, fl)
    case ">" => Comparison(Greater, l, r, fl)
    case "<" => Comparison(Less, l, r, fl)
    case "==" => Comparison(Equal, l, r, fl)
    case "!=" => Comparison(NotEqual, l, r, fl)
    case _ =>
      if l.Nil? || r.Nil? then Panic(NilDereference)
      else Done(Error("How did you even do this... What operator is " + operator + "?"))
  }

  /** Each arithmetic spelling reaches its own operation. */
  lemma ArithmeticDispatch(l: Object, operator: string, r: Object, fl: FloatOps)
    ensures var res := EvalInfixExpression(l, operator, r, fl);
      (operator == "+" ==> res == Arithmetic(Add, l, r, fl)) &&
      (operator == "-" ==> res == Arithmetic(Sub, l, r, fl)) &&
      (operator == "*" ==> res == Arithmetic(Mul, l, r, fl)) &&
      (operator == "/" ==> res == Arithmetic(Div, l, r, fl))
  {
  }

  /** Each comparison spelling reaches its own comparison. */
  lemma ComparisonDispatch(l: Object, operator: string, r: Object, fl: FloatOps)
    ensures var res := EvalInfixExpression(l, operator, r, fl);
      (operator == "<" ==> res == Comparison(Less, l, r, fl)) &&
      (operator == ">" ==> res == Comparison(Greater, l, r, fl)) &&
      (operator == "==" ==> res == Comparison(Equal, l, r, fl)) &&
      (operator == "!=" ==> res == Comparison(NotEqual, l, r, fl))
  {
  }

  /** At the operator level the four comparisons on integers are the
      mathematical ones, and `==`/`!=` on booleans compare their values. */
  lemma IntegerComparisonsMean(a: Int64, b: Int64, p: bool, q: bool, fl: FloatOps)
    ensures EvalInfixExpression(Integer(a), "<", Integer(b), fl) == Done(Boolean(a < b))
    ensures EvalInfixExpression(Integer(a), ">", Integer(b), fl) == Done(Boolean(a > b))
    ensures EvalInfixExpression(Integer(a), "==", Integer(b), fl) == Done(Boolean(a == b))
    ensures EvalInfixExpression(Integer(a), "!=", Integer(b), fl) == Done(Boolean(a != b))
    ensures EvalInfixExpression(Boolean(p), "==", Boolean(q), fl) == Done(Boolean(p == q))
    ensures EvalInfixExpression(Boolean(p), "!=", Boolean(q), fl) == Done(Boolean(p != q))
  {
  }

  /** At the operator level `!` negates a boolean and sends NULL to TRUE, and
      `-` negates an int64 with wrap-around. */
  lemma PrefixOperatorsMean(p: bool, v: Int64, fl: FloatOps)
    ensures EvalPrefixExpression("!", Boolean(p), fl) == Done(Boolean(!p))
    ensures EvalPrefixExpression("!", Null, fl) == Done(Boolean(true))
    ensures EvalPrefixExpression("-", Integer(v), fl) == Done(Integer(Wrap(-(v as int))))
    ensures v != MinInt64 ==> EvalPrefixExpression("-", Integer(v), fl) == Done(Integer(-v))
  {
    if v != MinInt64 {
      assert Wrap(-(v as int)) == -v;
    }
  }

  /** On int64 operands whose exact result fits, +, - and * are the
      mathematical operations; past the range they wrap around. */
  lemma IntegerArithmeticExact(a: Int64, b: Int64, fl: FloatOps)
    ensures MinInt64 <= a + b <= MaxInt64 ==> EvalInfixExpression(Integer(a), "+", Integer(b), fl) == Done(Integer(a + b))
    ensures MinInt64 <= a - b <= MaxInt64 ==> EvalInfixExpression(Integer(a), "-", Integer(b), fl) == Done(Integer(a - b))
    ensures MinInt64 <= a * b <= MaxInt64 ==> EvalInfixExpression(Integer(a), "*", Integer(b), fl) == Done(Integer(a * b))
    ensures EvalInfixExpression(Integer(MaxInt64), "+", Integer(1), fl) == Done(Integer(MinInt64))
  {
  }

  /** Integer `/` truncates toward zero: the quotient q leaves a remainder
      a - q*b smaller than b in magnitude and carrying a's sign. */
  lemma IntegerDivisionTruncates(a: Int64, b: Int64, fl: FloatOps)
    requires b != 0 && !(a == MinInt64 && b == -1)
    ensures var res := EvalInfixExpression(Integer(a), "/", Integer(b), fl);
      res.Done? && res.value.Integer? &&
      var rem := a - res.value.intValue * b;
      Abs(rem) < Abs(b) && (rem == 0 || (rem < 0) == (a < 0))
  {
    GoQuotientExact(a, b);
    TruncDivRemainder(a, b);
  }

  /** The one overflowing quotient: MinInt64 / -1 wraps back to MinInt64. */
  lemma IntegerDivisionOverflow(fl: FloatOps)
    ensures EvalInfixExpression(Integer(MinInt64), "/", Integer(-1), fl) == Done(Integer(MinInt64))
  {
    GoQuotientOverflow();
  }

  /** `!=` answers the opposite of `==` whenever `==` answers, and both report a
      type mismatch on the same operand pairs. */
  lemma NotEqualNegatesEqual(l: Object, r: Object, fl: FloatOps)
    ensures var eq := EvalInfixExpression(l, "==", r, fl);
      var ne := EvalInfixExpression(l, "!=", r, fl);
      (eq.Panic? <==> ne.Panic?) &&
      (eq.Done? && eq.value.Boolean? <==> ne.Done? && ne.value.Boolean?) &&
      (eq.Done? && eq.value.Boolean? ==> ne.value.boolValue == !eq.value.boolValue)
  {
  }

  /** `l > r` answers exactly as `r < l`. */
  lemma GreaterIsFlippedLess(l: Object, r: Object, fl: FloatOps)
    requires IsNumeric(l) && IsNumeric(r)
    ensures EvalInfixExpression(l, ">", r, fl) == EvalInfixExpression(r, "<", l, fl)
  {
  }

  /** Integer + and * commute (both sides wrap the same exact value). */
  lemma IntegerAddMulCommute(a: Int64, b: Int64, fl: FloatOps)
    ensures EvalInfixExpression(Integer(a), "+", Integer(b), fl) == EvalInfixExpression(Integer(b), "+", Integer(a), fl)
    ensures EvalInfixExpression(Integer(a), "*", Integer(b), fl) == EvalInfixExpression(Integer(b), "*", Integer(a), fl)
  {
    assert a * b == b * a;
  }
}
