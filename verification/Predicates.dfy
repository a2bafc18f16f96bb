/** The JavaScript of a `shouldLoad` predicate: syntax, and evaluation of expressions without
    assignments. `fuel` bounds the depth of evaluation; results are about every bound. */
module Predicates {
  import opened Wrappers

  // ----- syntax -----

  datatype Prim = Null | Bool(b: bool) | Num(n: int) | Str(s: string)

  /** A property of an object pattern, or its rest element. */
  datatype PatternProp = PatternProp(key: Node, computed: bool, value: Pattern) | PropRest(argument: Pattern)

  datatype Pattern =
    | Hole
    | Name(name: string)
    | ObjectPattern(props: seq<PatternProp>)
    | ArrayPattern(elements: seq<Pattern>)
    | AssignmentPattern(left: Pattern, fallback: Node)
    | RestElement(argument: Pattern)

  datatype Property = Property(key: Node, computed: bool, value: Node)

  /** `Jsx` is an element: its tag, which names a variable unless it is intrinsic, and the
      expressions among its attributes and children. `Let` is a `const` declaration with the
      statements after it; conditional returns are conditionals. `Operation` is any other
      expression that evaluates its operands in order, such as an operator, a template or `new`. */
  datatype Node =
    | Ident(name: string)
    | Literal(value: Prim)
    | This
    | Member(base: Node, property: Node, computed: bool)
    | OptionalMember(base: Node, property: Node, computed: bool)
    | Fun(params: seq<Pattern>, body: Node, arrow: bool)
    | ObjectLit(properties: seq<Property>)
    | ArrayLit(elements: seq<Node>)
    | Call(callee: Node, args: seq<Node>)
    | Conditional(test: Node, whenTrue: Node, whenFalse: Node)
    | Logical(isAnd: bool, left: Node, right: Node)
    | Jsx(tag: string, intrinsic: bool, parts: seq<Node>)
    | Let(bound: string, init: Node, rest: Node)
    | Operation(operator: string, operands: seq<Node>)

  // ----- values -----

  datatype Field = Field(key: string, value: Value)

  /** `Uninit` is what a name holds before its binding is made. */
  datatype Value =
    | Undefined
    | Uninit
    | Primitive(p: Prim)
    | Array(items: seq<Value>)
    | Object(fields: seq<Field>)
    | Closure(fn: Node, env: Env, self: Value)
    | HostFn(name: string)

  /** `Declared` names are there, but hold nothing yet. */
  datatype Env = Empty | Bound(name: string, value: Value, rest: Env) | Declared(names: set<string>, rest: Env)

  datatype Outcome = Val(value: Value) | Throw(error: string) | Timeout

  function Lookup(e: Env, x: string): Option<Value> {
    match e
    case Empty => None
    case Bound(y, v, rest) => if x == y then Some(v) else Lookup(rest, x)
    case Declared(names, rest) => if x in names then Some(Uninit) else Lookup(rest, x)
  }

  /** What built-in code does: it gets the receiver and the arguments, and may call back. */
  type Callback = (Value, seq<Value>) -> Outcome
  type Host = (Callback, string, Value, seq<Value>) -> Outcome

  function Truthy(v: Value): bool {
    match v
    case Undefined => false
    case Uninit => false
    case Primitive(Null) => false
    case Primitive(Bool(b)) => b
    case Primitive(Num(n)) => n != 0
    case Primitive(Str(s)) => s != ""
    case _ => true
  }

  predicate IsNullish(v: Value) { v == Undefined || v == Uninit || v == Primitive(Null) }

  // ----- names -----

  /** The names that a pattern binds. */
  ghost function Names(p: Pattern): set<string> {
    match p
    case Hole => {}
    case Name(x) => {x}
    case ObjectPattern(props) => set i, x | 0 <= i < |props| && x in PropNames(props[i]) :: x
    case ArrayPattern(elements) => set i, x | 0 <= i < |elements| && x in Names(elements[i]) :: x
    case AssignmentPattern(left, _) => Names(left)
    case RestElement(argument) => Names(argument)
  }

  ghost function PropNames(p: PatternProp): set<string> {
    match p
    case PatternProp(_, _, value) => Names(value)
    case PropRest(argument) => Names(argument)
  }

  ghost function ParamNames(params: seq<Pattern>): set<string> {
    set i, x | 0 <= i < |params| && x in Names(params[i]) :: x
  }

  // ----- evaluation -----

  datatype Values = Vals(values: seq<Value>) | Stopped(outcome: Outcome)
  datatype MaybeField = Made(field: Field) | NotMade(outcome: Outcome)
  datatype Callee = Called(f: Value, receiver: Value) | NotCalled(outcome: Outcome)
  type Applier = (Value, Value, seq<Value>) -> Outcome
  datatype Scope = Scope(env: Env) | Halted(outcome: Outcome)

  /** A caller that no built-in code may call back into. */
  ghost function NoCallback(): Callback { (f: Value, args: seq<Value>) => Timeout }

  ghost function Field0(fields: seq<Field>, key: string): Value {
    if fields == [] then Undefined
    else if fields[0].key == key then fields[0].value
    else Field0(fields[1..], key)
  }

  /** Read a property; what is not a plain object is up to the host. */
  ghost function Get(h: Host, v: Value, key: string): Outcome {
    if IsNullish(v) then Throw("TypeError: cannot read properties of " + key)
    else if v.Object? then Val(Field0(v.fields, key))
    else h(NoCallback(), "[[Get]]", v, [Primitive(Str(key))])
  }

  /** The property key that a computed key stands for. */
  ghost function KeyOf(h: Host, v: Value): Outcome {
    if v.Primitive? && v.p.Str? then Val(v)
    else match h(NoCallback(), "ToPropertyKey", Undefined, [v])
         case Val(Primitive(Str(s))) => Val(Primitive(Str(s)))
         case Val(_) => Throw("TypeError: not a property key")
         case o => o
  }

  ghost function Eval(h: Host, fuel: nat, n: Node, e: Env, self: Value): Outcome
    decreases fuel, 1, 0
  {
    if fuel == 0 then Timeout
    else match n
      case Ident(x) => Look(e, x)
      case Literal(p) => Val(Primitive(p))
      case This => Val(self)
      case Member(o, p, computed) => GetFrom(h, fuel - 1, Eval(h, fuel - 1, o, e, self), false, p, computed, e, self)
      case OptionalMember(o, p, computed) =>
        GetFrom(h, fuel - 1, Eval(h, fuel - 1, o, e, self), true, p, computed, e, self)
      case Fun(_, _, _) => Val(Closure(n, e, self))
      case ObjectLit(properties) => EvalFields(h, fuel - 1, properties, [], e, self)
      case ArrayLit(elements) =>
        (match EvalAll(h, fuel - 1, elements, e, self)
         case Vals(vs) => Val(Array(vs))
         case Stopped(o) => o)
      case Call(callee, args) => EvalCall(h, fuel - 1, callee, args, e, self)
      case Conditional(test, whenTrue, whenFalse) =>
        Branch(h, fuel - 1, Eval(h, fuel - 1, test, e, self), whenTrue, whenFalse, e, self)
      case Logical(isAnd, left, right) => AndThen(h, fuel - 1, isAnd, Eval(h, fuel - 1, left, e, self), right, e, self)
      case Jsx(tag, intrinsic, parts) =>
        Element(TagOf(tag, intrinsic, e), EvalAll(h, fuel - 1, parts, e, self))
      case Let(x, init, rest) => EvalLet(h, fuel - 1, x, Eval(h, fuel - 1, init, Declared({x}, e), self), rest, e, self)
      case Operation(op, operands) =>
        Operate(h, CallbackAt(h, fuel - 1), op, EvalAll(h, fuel - 1, operands, e, self))
  }

  ghost function Branch(
      h: Host, fuel: nat, test: Outcome, whenTrue: Node, whenFalse: Node, e: Env, self: Value): Outcome
    decreases fuel, 2, 0
  {
    match test
    case Val(v) => Eval(h, fuel, Taken(v, whenTrue, whenFalse), e, self)
    case stop => stop
  }

  function Taken(v: Value, whenTrue: Node, whenFalse: Node): Node { if Truthy(v) then whenTrue else whenFalse }

  ghost function AndThen(h: Host, fuel: nat, isAnd: bool, left: Outcome, right: Node, e: Env, self: Value): Outcome
    decreases fuel, 2, 0
  {
    match left
    case Val(v) => if Truthy(v) == isAnd then Eval(h, fuel, right, e, self) else Val(v)
    case stop => stop
  }

  ghost function Look(e: Env, x: string): Outcome {
    match Lookup(e, x)
    case None => Throw("ReferenceError: " + x)
    case Some(Uninit) => Throw("ReferenceError: " + x)
    case Some(v) => Val(v)
  }

  ghost function TagOf(tag: string, intrinsic: bool, e: Env): Outcome {
    if intrinsic then Val(Primitive(Str(tag))) else Look(e, tag)
  }

  /** An element holds its type and its parts. */
  ghost function Element(tag: Outcome, parts: Values): Outcome {
    match tag
    case Val(v) => (match parts
                    case Vals(vs) => Val(Object([Field("type", v), Field("parts", Array(vs))]))
                    case Stopped(o) => o)
    case stop => stop
  }

  /** The statements after a declaration; the name was there before, but held nothing. */
  ghost function EvalLet(h: Host, fuel: nat, x: string, o: Outcome, rest: Node, e: Env, self: Value): Outcome
    decreases fuel, 2, 0
  {
    match o
    case Val(v) => Eval(h, fuel, rest, Bound(x, v, Declared({x}, e)), self)
    case stop => stop
  }

  ghost function Operate(h: Host, callback: Callback, op: string, operands: Values): Outcome {
    match operands
    case Vals(vs) => h(callback, op, Undefined, vs)
    case Stopped(o) => o
  }

  /** How built-in code calls a value. */
  ghost function CallbackAt(h: Host, fuel: nat): Callback
    decreases fuel, 3, 0
  {
    (f: Value, args: seq<Value>) => Apply(h, fuel, f, Undefined, args)
  }

  ghost function EvalAll(h: Host, fuel: nat, ns: seq<Node>, e: Env, self: Value): Values
    decreases fuel, 2, |ns|
  {
    if ns == [] then Vals([])
    else match Eval(h, fuel, ns[0], e, self)
         case Val(v) =>
           (match EvalAll(h, fuel, ns[1..], e, self)
            case Vals(vs) => Vals([v] + vs)
            case Stopped(o) => Stopped(o))
         case stop => Stopped(stop)
  }

  /** The key of a property: its name, or the value of a computed one. */
  ghost function EvalKey(h: Host, fuel: nat, key: Node, computed: bool, e: Env, self: Value): Outcome
    decreases fuel, 2, 0
  {
    if computed then KeyFrom(h, Eval(h, fuel, key, e, self)) else StaticKey(h, key)
  }

  ghost function KeyFrom(h: Host, o: Outcome): Outcome {
    match o
    case Val(v) => KeyOf(h, v)
    case stop => stop
  }

  ghost function StaticKey(h: Host, key: Node): Outcome {
    match key
    case Ident(x) => Val(Primitive(Str(x)))
    case Literal(p) => KeyOf(h, Primitive(p))
    case _ => Throw("SyntaxError")
  }

  ghost function GetAt(h: Host, fuel: nat, v: Value, key: Node, computed: bool, e: Env, self: Value): Outcome
    decreases fuel, 3, 0
  {
    GetKeyed(h, v, EvalKey(h, fuel, key, computed, e, self))
  }

  /** Read a property of what was evaluated; an optional read stops at nothing. */
  ghost function GetFrom(
      h: Host, fuel: nat, o: Outcome, optional: bool, key: Node, computed: bool, e: Env, self: Value): Outcome
    decreases fuel, 4, 0
  {
    match o
    case Val(v) => if optional && IsNullish(v) then Val(Undefined) else GetAt(h, fuel, v, key, computed, e, self)
    case stop => stop
  }

  /** Read the property that a key, once evaluated, names. */
  ghost function GetKeyed(h: Host, v: Value, key: Outcome): Outcome {
    match key
    case Val(Primitive(Str(k))) => Get(h, v, k)
    case Val(_) => Throw("TypeError: not a property key")
    case stop => stop
  }

  ghost function EvalFields(h: Host, fuel: nat, ps: seq<Property>, done: seq<Field>, e: Env, self: Value): Outcome
    decreases fuel, 4, |ps|
  {
    if ps == [] then Val(Object(done))
    else match EvalField(h, fuel, ps[0], e, self)
         case Made(field) => EvalFields(h, fuel, ps[1..], [field] + done, e, self)
         case NotMade(o) => o
  }

  ghost function EvalField(h: Host, fuel: nat, p: Property, e: Env, self: Value): MaybeField
    decreases fuel, 3, 0
  {
    FieldOf(EvalKey(h, fuel, p.key, p.computed, e, self), Eval(h, fuel, p.value, e, self))
  }

  /** A field, if neither its key nor its value stopped evaluation; the key comes first. */
  ghost function FieldOf(key: Outcome, value: Outcome): MaybeField {
    match key
    case Val(Primitive(Str(k))) => (match value
                                    case Val(v) => Made(Field(k, v))
                                    case stop => NotMade(stop))
    case Val(_) => NotMade(Throw("TypeError: not a property key"))
    case stop => NotMade(stop)
  }

  ghost function EvalCall(h: Host, fuel: nat, callee: Node, args: seq<Node>, e: Env, self: Value): Outcome
    decreases fuel, 5, 0
  {
    match EvalCallee(h, fuel, callee, e, self)
    case Called(f, receiver) => Invoke(ApplierAt(h, fuel), f, receiver, EvalAll(h, fuel, args, e, self))
    case NotCalled(o) => o
  }

  /** What is called, and the receiver: a method call passes the object it is read from. */
  ghost function EvalCallee(h: Host, fuel: nat, callee: Node, e: Env, self: Value): Callee
    decreases fuel, 4, 0
  {
    if callee.Member? then
      MethodOf(h, fuel, Eval(h, fuel, callee.base, e, self), callee.property, callee.computed, e, self)
    else CalleeOf(Eval(h, fuel, callee, e, self), Undefined)
  }

  ghost function MethodOf(h: Host, fuel: nat, o: Outcome, key: Node, computed: bool, e: Env, self: Value): Callee
    decreases fuel, 3, 1
  {
    match o
    case Val(receiver) => CalleeOf(GetAt(h, fuel, receiver, key, computed, e, self), receiver)
    case stop => NotCalled(stop)
  }

  ghost function CalleeOf(o: Outcome, receiver: Value): Callee {
    match o
    case Val(f) => Called(f, receiver)
    case stop => NotCalled(stop)
  }

  /** Make a call once its arguments are there. */
  ghost function Invoke(apply: Applier, f: Value, receiver: Value, args: Values): Outcome {
    match args
    case Vals(vs) => apply(f, receiver, vs)
    case Stopped(o) => o
  }

  ghost function ApplierAt(h: Host, fuel: nat): Applier
    decreases fuel, 3, 0
  {
    (f: Value, receiver: Value, args: seq<Value>) => Apply(h, fuel, f, receiver, args)
  }

  /** Call a value. */
  ghost function Apply(h: Host, fuel: nat, f: Value, receiver: Value, args: seq<Value>): Outcome
    decreases fuel, 2, 0
  {
    if fuel == 0 then Timeout
    else if f.Closure? && f.fn.Fun? then Code(h, fuel - 1, f.fn, f.env, if f.fn.arrow then f.self else receiver, args)
    else if f.HostFn? then h(CallbackAt(h, fuel - 1), f.name, receiver, args)
    else Throw("TypeError: not a function")
  }

  /** Run the code of a function: its parameters are bound with their names already declared. */
  ghost function Code(h: Host, fuel: nat, fn: Node, env: Env, self: Value, args: seq<Value>): Outcome
    requires fn.Fun?
    decreases fuel, 4, 0
  {
    RunBody(h, fuel, fn.body, BindAll(h, fuel, fn.params, args, Declared(ParamNames(fn.params), env), self), self)
  }

  ghost function RunBody(h: Host, fuel: nat, body: Node, scope: Scope, self: Value): Outcome
    decreases fuel, 2, 0
  {
    match scope
    case Scope(env) => Eval(h, fuel, body, env, self)
    case Halted(o) => o
  }

  /** Bind a list of patterns to a list of values. */
  ghost function BindAll(h: Host, fuel: nat, ps: seq<Pattern>, vs: seq<Value>, e: Env, self: Value): Scope
    decreases fuel, 3, |ps|
  {
    if ps == [] then Scope(e)
    else match Bind(h, fuel, Bare(ps[0]), Supplied(ps[0], vs), e, self)
         case Scope(e') => BindAll(h, fuel, ps[1..], Left(vs), e', self)
         case halt => halt
  }

  /** The pattern under a rest element, and what it is bound to; a missing value is undefined. */
  function Bare(p: Pattern): Pattern { if p.RestElement? then p.argument else p }

  function Supplied(p: Pattern, vs: seq<Value>): Value {
    if p.RestElement? then Array(vs) else if vs == [] then Undefined else vs[0]
  }

  function Left(vs: seq<Value>): seq<Value> { if vs == [] then [] else vs[1..] }

  ghost function Bind(h: Host, fuel: nat, p: Pattern, v: Value, e: Env, self: Value): Scope
    decreases fuel, 2, 0
  {
    if fuel == 0 then Halted(Timeout)
    else match p
      case Hole => Scope(e)
      case Name(x) => Scope(Bound(x, v, e))
      case ObjectPattern(props) =>
        if IsNullish(v) then Halted(Throw("TypeError: cannot destructure"))
        else BindProps(h, fuel - 1, props, [], v, e, self)
      case ArrayPattern(elements) =>
        if v.Array? then BindAll(h, fuel - 1, elements, v.items, e, self) else Halted(Throw("TypeError: not iterable"))
      case AssignmentPattern(left, fallback) =>
        if v != Undefined then Bind(h, fuel - 1, left, v, e, self)
        else BindOutcome(h, fuel - 1, left, Eval(h, fuel - 1, fallback, e, self), e, self)
      case RestElement(argument) => Halted(Throw("SyntaxError"))
  }

  ghost function BindProps(
      h: Host, fuel: nat, props: seq<PatternProp>, used: seq<string>, v: Value, e: Env, self: Value): Scope
    decreases fuel, 4, |props|
  {
    if props == [] then Scope(e)
    else
      var key := PropKey(h, fuel, props[0], e, self);
      match BindProp(h, fuel, props[0], key, used, v, e, self)
      case Scope(e') => BindProps(h, fuel, props[1..], UsedWith(used, key), v, e', self)
      case halt => halt
  }

  ghost function PropKey(h: Host, fuel: nat, prop: PatternProp, e: Env, self: Value): Outcome
    decreases fuel, 3, 0
  {
    match prop
    case PropRest(_) => Val(Undefined)
    case PatternProp(key, computed, _) => EvalKey(h, fuel, key, computed, e, self)
  }

  /** Bind one property, its key evaluated. */
  ghost function BindProp(
      h: Host, fuel: nat, prop: PatternProp, key: Outcome, used: seq<string>, v: Value, e: Env, self: Value): Scope
    decreases fuel, 3, 0
  {
    match prop
    case PropRest(argument) => Bind(h, fuel, argument, Without(v, used), e, self)
    case PatternProp(_, _, value) => BindOutcome(h, fuel, value, GetKeyed(h, v, key), e, self)
  }

  ghost function UsedWith(used: seq<string>, key: Outcome): seq<string> {
    match key
    case Val(Primitive(Str(k))) => used + [k]
    case _ => used
  }

  ghost function BindOutcome(h: Host, fuel: nat, p: Pattern, o: Outcome, e: Env, self: Value): Scope
    decreases fuel, 2, 1
  {
    match o
    case Val(d) => Bind(h, fuel, p, d, e, self)
    case stop => Halted(stop)
  }

  /** The fields that were not taken yet. */
  ghost function Without(v: Value, used: seq<string>): Value {
    if v.Object? then Object(Untaken(v.fields, used)) else Object([])
  }

  ghost function Untaken(fields: seq<Field>, used: seq<string>): seq<Field> {
    if fields == [] then []
    else (if fields[0].key in used then [] else [fields[0]]) + Untaken(fields[1..], used)
  }
}
