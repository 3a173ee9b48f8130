/**
 * The interpreter's run-time values (Go package `object`): a closed set of
 * variants, each with a type tag and an inspection string, and the mutable
 * environment that maps names to values.
 */
module Objects {
  import opened Numbers
  import opened Ast

  /** The type tags; LIST is declared but no value carries it. */
  datatype ObjectType =
    | IntegerObj | BooleanObj | FloatObj | NullObj | StringObj | ListObj
    | ReturnValueObj | ErrorObj | FunctionObj | BuiltinObj
  {
    /** The tag as it is spelled in error messages. */
    function Name(): string
    {
      match this
      case IntegerObj => "INTEGER"
      case BooleanObj => "BOOLEAN"
      case FloatObj => "FLOAT"
      case NullObj => "NULL"
      case StringObj => "STRING"
      case ListObj => "LIST"
      case ReturnValueObj => "RETURN_VALUE"
      case ErrorObj => "ERROR"
      case FunctionObj => "FUNCTION"
      case BuiltinObj => "BUILTIN"
    }
  }

  /** The native functions behind the builtin table. */
  datatype BuiltinFunction = Len | Help | Print

  /**
   * A run-time value. `Nil` is Go's untyped nil interface value: an empty block
   * or program evaluates to it and it can be bound like any other value, but it
   * has no type tag. Booleans and Null are interned in the source (TRUE, FALSE,
   * NULL), so comparing them by identity is comparing them by value here.
   */
  datatype Object =
    | Nil
    | Integer(intValue: Int64)
    | String(strValue: string)
    | Float(floatValue: Float64)
    | Boolean(boolValue: bool)
    | Null
    | ReturnValue(inner: Object)
    | Error(message: string)
    | Function(parameters: seq<string>, body: Node, env: Environment)
    | Builtin(fn: BuiltinFunction)

  /** Go's `Type()`; calling it on nil is a nil-pointer panic, hence the requires. */
  function TypeOf(o: Object): (t: ObjectType)
    requires !o.Nil?
    ensures t != ListObj
    ensures t == IntegerObj <==> o.Integer?
    ensures t == FloatObj <==> o.Float?
    ensures t == BooleanObj <==> o.Boolean?
    ensures t == ErrorObj <==> o.Error?
    ensures t == ReturnValueObj <==> o.ReturnValue?
    ensures t == StringObj <==> o.String?
    ensures t == NullObj <==> o.Null?
    ensures t == FunctionObj <==> o.Function?
    ensures t == BuiltinObj <==> o.Builtin?
  {
    match o
    case Integer(_) => IntegerObj
    case String(_) => StringObj
    case Float(_) => FloatObj
    case Boolean(_) => BooleanObj
    case Null => NullObj
    case ReturnValue(_) => ReturnValueObj
    case Error(_) => ErrorObj
    case Function(_, _, _) => FunctionObj
    case Builtin(_) => BuiltinObj
  }

  /** Two values carry the same tag exactly when they are the same variant. */
  lemma TypeOfIdentifiesVariant(a: Object, b: Object)
    requires !a.Nil? && !b.Nil?
    ensures TypeOf(a) == TypeOf(b) <==>
      (a.Integer? && b.Integer?) || (a.String? && b.String?) || (a.Float? && b.Float?) ||
      (a.Boolean? && b.Boolean?) || (a.Null? && b.Null?) || (a.ReturnValue? && b.ReturnValue?) ||
      (a.Error? && b.Error?) || (a.Function? && b.Function?) || (a.Builtin? && b.Builtin?)
  {
  }

  /** Distinct tags are spelled differently, so an error message names the tag. */
  lemma TagNamesDistinct(a: ObjectType, b: ObjectType)
    ensures a.Name() == b.Name() <==> a == b
  {
  }

  /** Inspect dereferences every value it reaches; a nil anywhere is a panic. */
  predicate Inspectable(o: Object)
  {
    match o
    case Nil => false
    case ReturnValue(v) => Inspectable(v)
    case _ => true
  }

  /** Go's strings.Join. */
  function Join(parts: seq<string>, sep: string): string
  {
    if parts == [] then ""
    else if |parts| == 1 then parts[0]
    else Join(parts[..|parts| - 1], sep) + sep + parts[|parts| - 1]
  }

  function TotalLength(parts: seq<string>): nat
  {
    if parts == [] then 0 else TotalLength(parts[..|parts| - 1]) + |parts[|parts| - 1]|
  }

  lemma {:induction false} JoinLength(parts: seq<string>, sep: string)
    requires parts != []
    ensures |Join(parts, sep)| == TotalLength(parts) + |sep| * (|parts| - 1)
  {
    var n := |parts|;
    if n > 1 {
      JoinLength(parts[..n - 1], sep);
      assert |sep| * (n - 2) + |sep| == |sep| * (n - 1);
    } else {
      assert parts[..0] == [];
    }
  }

  /**
   * Go's `Inspect()`. Float formatting (`%v`) is the given `fl.format`, and a
   * function body is printed by the syntax tree's own rendering, `render`.
   */
  function Inspect(o: Object, fl: FloatOps, render: Node -> string): string
    requires Inspectable(o)
  {
    match o
    case Integer(v) => IntToDecimal(v)
    case String(s) => s
    case Float(f) => fl.format(f)
    case Boolean(b) => if b then "true" else "false"
    case Null => "null"
    case ReturnValue(v) => Inspect(v, fl, render)
    case Error(m) => "ERROR: " + m
    case Function(params, body, _) => "fun(" + Join(params, ", ") + ") {\n" + render(body) + "\n}"
    case Builtin(_) => "built in function"
  }

  /** The value a chain of return wrappers carries. */
  function Unwrapped(o: Object): (r: Object)
    ensures !r.ReturnValue?
  {
    if o.ReturnValue? then Unwrapped(o.inner) else o
  }

  /** However deeply a value is wrapped in ReturnValue, it inspects as the value itself. */
  lemma {:induction false} InspectSeesThroughReturn(o: Object, fl: FloatOps, render: Node -> string)
    requires Inspectable(o)
    ensures Inspectable(Unwrapped(o))
    ensures Inspect(o, fl, render) == Inspect(Unwrapped(o), fl, render)
  {
    if o.ReturnValue? {
      InspectSeesThroughReturn(o.inner, fl, render);
    }
  }

  /** An integer's inspection string reads back as the same integer. */
  lemma InspectIntegerRoundTrip(v: Int64, fl: FloatOps, render: Node -> string)
    ensures ParseDecimal(Inspect(Integer(v), fl, render)) == v
  {
    IntDecimalRoundTrip(v);
  }

  /** An error inspects as "ERROR: " followed by exactly its message. */
  lemma InspectError(m: string, fl: FloatOps, render: Node -> string)
    ensures var s := Inspect(Error(m), fl, render);
      |s| == 7 + |m| && s[..7] == "ERROR: " && s[7..] == m
  {
  }

  /** The fixed strings: true, false, null and the builtin marker. */
  lemma InspectConstants(b: bool, f: BuiltinFunction, fl: FloatOps, render: Node -> string)
    ensures Inspect(Boolean(b), fl, render) == (if b then "true" else "false")
    ensures Inspect(Null, fl, render) == "null"
    ensures Inspect(Builtin(f), fl, render) == "built in function"
  {
  }

  /** A function prints as `fun(<params joined by ", ">) {`, a newline, the
      rendered body, a newline and `}`. */
  lemma InspectFunction(params: seq<string>, body: Node, env: Environment, fl: FloatOps, render: Node -> string)
    ensures var s := Inspect(Function(params, body, env), fl, render);
      var p := Join(params, ", ");
      |s| == |p| + |render(body)| + 10 &&
      s[..4] == "fun(" && s[4..4 + |p|] == p && s[4 + |p|..8 + |p|] == ") {\n" &&
      s[8 + |p|..|s| - 2] == render(body) && s[|s| - 2..] == "\n}"
  {
  }

  /** The evaluator's result when Go would panic instead of returning. */
  datatype Outcome<T> = Done(value: T) | Panic(reason: string)

  type Store = map<string, Object>

  /**
   * A single flat scope: one mutable map from names to values, with no link to
   * an enclosing scope.
   */
  class Environment {
    var store: Store

    /** NewEnvironment: an environment with no bindings. */
    constructor ()
      ensures store == map[]
    {
      store := map[];
    }

    /** Binds (or rebinds) `name` in this environment and returns the value. */
    method Set(name: string, value: Object) returns (r: Object)
      modifies this
      ensures store == old(store)[name := value]
      ensures r == value
    {
      store := store[name := value];
      r := value;
    }

    /** Looks `name` up in this environment's own map only; a miss yields the zero
        value nil and ok = false. */
    method Get(name: string) returns (val: Object, ok: bool)
      ensures ok <==> name in store
      ensures ok ==> val == store[name]
      ensures !ok ==> val == Nil
    {
      ok := name in store;
      val := if ok then store[name] else Nil;
    }
  }

  /** A fresh environment has no binding for any name. */
  method FreshEnvironmentLookup(name: string) returns (val: Object, ok: bool)
    ensures !ok && val == Nil
  {
    var env := new Environment();
    val, ok := env.Get(name);
  }

  /** After Set(name, v) on any environment, Get(name) yields (v, true), every other
      name keeps its old lookup result, and Get changes nothing. */
  method SetThenGet(env: Environment, name: string, v: Object, other: string)
    returns (got: Object, ok: bool, otherGot: Object, otherOk: bool)
    modifies env
    ensures got == v && ok
    ensures other != name ==> otherOk == (other in old(env.store))
    ensures other != name && otherOk ==> otherGot == old(env.store)[other]
    ensures env.store == old(env.store)[name := v]
  {
    var stored := env.Set(name, v);
    got, ok := env.Get(name);
    otherGot, otherOk := env.Get(other);
  }
}
