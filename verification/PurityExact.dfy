/** Exactly which names the walk of the purity check collects, and so which predicates it accepts
    (ui/plugins/vite-plugin-module-manifest.js:33-101). */
module PurityExact {
  import opened Wrappers
  import opened Predicates
  import opened Purity
  import opened PuritySound

  // ----- an expression without what the walk passes over -----

  /** The expression with every parameter fallback and computed pattern key blanked and every tag
      intrinsic. */
  ghost function Blanked(n: Node): Node {
    match n
    case Ident(_) => n
    case Literal(_) => n
    case This => n
    case Member(o, p, computed) => Member(Blanked(o), Blanked(p), computed)
    case OptionalMember(o, p, computed) => OptionalMember(Blanked(o), Blanked(p), computed)
    case Fun(params, body, arrow) =>
      Fun(seq(|params|, i requires 0 <= i < |params| => BlankedPattern(params[i])), Blanked(body), arrow)
    case ObjectLit(ps) =>
      ObjectLit(seq(|ps|, i requires 0 <= i < |ps| =>
        Property(Blanked(ps[i].key), ps[i].computed, Blanked(ps[i].value))))
    case ArrayLit(ns) => ArrayLit(seq(|ns|, i requires 0 <= i < |ns| => Blanked(ns[i])))
    case Call(f, args) => Call(Blanked(f), seq(|args|, i requires 0 <= i < |args| => Blanked(args[i])))
    case Conditional(a, b, c) => Conditional(Blanked(a), Blanked(b), Blanked(c))
    case Logical(isAnd, a, b) => Logical(isAnd, Blanked(a), Blanked(b))
    case Jsx(tag, _, ns) => Jsx(tag, true, seq(|ns|, i requires 0 <= i < |ns| => Blanked(ns[i])))
    case Let(y, a, b) => Let(y, Blanked(a), Blanked(b))
    case Operation(op, ns) => Operation(op, seq(|ns|, i requires 0 <= i < |ns| => Blanked(ns[i])))
  }

  ghost function BlankedPattern(p: Pattern): Pattern {
    match p
    case Hole => p
    case Name(_) => p
    case ObjectPattern(props) =>
      ObjectPattern(seq(|props|, i requires 0 <= i < |props| => BlankedProp(props[i])))
    case ArrayPattern(elements) =>
      ArrayPattern(seq(|elements|, i requires 0 <= i < |elements| => BlankedPattern(elements[i])))
    case AssignmentPattern(left, _) => BlankedPattern(left)
    case RestElement(argument) => RestElement(BlankedPattern(argument))
  }

  ghost function BlankedProp(p: PatternProp): PatternProp {
    match p
    case PatternProp(key, computed, value) =>
      PatternProp(if computed then Literal(Null) else key, computed, BlankedPattern(value))
    case PropRest(argument) => PropRest(BlankedPattern(argument))
  }

  /** Blanking keeps the names that a pattern binds, and leaves none to look up. */
  lemma {:induction false} BlankedBinds(p: Pattern)
    ensures Names(BlankedPattern(p)) == Names(p) && PatternRefs(BlankedPattern(p)) == {}
    decreases p
  {
    match p {
      case Hole =>
      case Name(_) =>
      case ObjectPattern(props) =>
        forall i | 0 <= i < |props|
          ensures PropNames(BlankedProp(props[i])) == PropNames(props[i]) && PropRefs(BlankedProp(props[i])) == {}
        {
          BlankedPropBinds(props[i]);
        }
        ObjectBinds(props);
      case ArrayPattern(elements) =>
        forall i | 0 <= i < |elements|
          ensures Names(BlankedPattern(elements[i])) == Names(elements[i])
          ensures PatternRefs(BlankedPattern(elements[i])) == {}
        {
          BlankedBinds(elements[i]);
        }
        ArrayBinds(elements);
      case AssignmentPattern(left, _) => BlankedBinds(left);
      case RestElement(argument) => BlankedBinds(argument);
    }
  }

  lemma {:induction false} BlankedPropBinds(p: PatternProp)
    ensures PropNames(BlankedProp(p)) == PropNames(p) && PropRefs(BlankedProp(p)) == {}
    decreases p
  {
    match p {
      case PatternProp(_, _, value) => BlankedBinds(value);
      case PropRest(argument) => BlankedBinds(argument);
    }
  }

  lemma ObjectBinds(props: seq<PatternProp>)
    requires forall i :: 0 <= i < |props| ==>
               PropNames(BlankedProp(props[i])) == PropNames(props[i]) && PropRefs(BlankedProp(props[i])) == {}
    ensures var p := ObjectPattern(props); Names(BlankedPattern(p)) == Names(p) && PatternRefs(BlankedPattern(p)) == {}
  {
    var b := BlankedPattern(ObjectPattern(props));
    assert forall i :: 0 <= i < |props| ==> b.props[i] == BlankedProp(props[i]);
  }

  lemma ArrayBinds(elements: seq<Pattern>)
    requires forall i :: 0 <= i < |elements| ==> Names(BlankedPattern(elements[i])) == Names(elements[i])
    requires forall i :: 0 <= i < |elements| ==> PatternRefs(BlankedPattern(elements[i])) == {}
    ensures var p := ArrayPattern(elements);
            Names(BlankedPattern(p)) == Names(p) && PatternRefs(BlankedPattern(p)) == {}
  {
    var b := BlankedPattern(ArrayPattern(elements));
    assert forall i :: 0 <= i < |elements| ==> b.elements[i] == BlankedPattern(elements[i]);
  }

  // ----- what the walk takes for references and evaluation does not -----

  /** The property names of optional members, and the names that declarations bind. */
  ghost function Extra(n: Node): set<string> {
    match n
    case Ident(_) => {}
    case Literal(_) => {}
    case This => {}
    case Member(o, p, computed) => Extra(o) + (if computed then Extra(p) else {})
    case OptionalMember(o, p, computed) => Extra(o) + Extra(p) + (if computed then {} else Refs(Blanked(p)))
    case Fun(params, body, _) => Extra(body) - ParamNames(params)
    case ObjectLit(ps) => set i, x | 0 <= i < |ps| && x in ExtraIn(ps[i]) :: x
    case ArrayLit(ns) => set i, x | 0 <= i < |ns| && x in Extra(ns[i]) :: x
    case Call(f, args) => Extra(f) + set i, x | 0 <= i < |args| && x in Extra(args[i]) :: x
    case Conditional(a, b, c) => Extra(a) + Extra(b) + Extra(c)
    case Logical(_, a, b) => Extra(a) + Extra(b)
    case Jsx(_, _, ns) => set i, x | 0 <= i < |ns| && x in Extra(ns[i]) :: x
    case Let(y, a, b) => {y} + Extra(a) + Extra(b)
    case Operation(_, ns) => set i, x | 0 <= i < |ns| && x in Extra(ns[i]) :: x
  }

  ghost function ExtraIn(p: Property): set<string> {
    (if p.computed then Extra(p.key) else {}) + Extra(p.value)
  }

  // ----- exactly what is collected -----

  /** What is collected, and what evaluation looks up, both in terms of the blanked expression. */
  ghost predicate Exact(n: Node, x: string) {
    && (x in FreeRefs(n, {}) <==> x in Refs(Blanked(n)) || x in Extra(n))
    && (x in Refs(n) <==> x in Refs(Blanked(n)) || x in Hidden(n))
  }

  /** A name is collected exactly when evaluating the expression without its fallbacks, computed
      pattern keys and tags would look it up, or it is the property name of an optional member, or
      the name that a declaration binds. And those are, with the hidden ones, all that evaluation
      of the expression itself looks up. */
  lemma {:induction false} CollectedExactly(n: Node, x: string)
    ensures Exact(n, x)
    decreases n
  {
    match n {
      case Member(o, p, computed) =>
        CollectedExactly(o, x);
        CollectedExactly(p, x);
        MemberExactly(o, p, computed, x);
      case OptionalMember(o, p, computed) =>
        CollectedExactly(o, x);
        CollectedExactly(p, x);
        OptionalExactly(o, p, computed, x);
      case Fun(params, body, arrow) => CollectedExactly(body, x); FunExactly(params, body, arrow, x);
      case ObjectLit(ps) =>
        forall i | 0 <= i < |ps|
          ensures Exact(ps[i].key, x) && Exact(ps[i].value, x)
        {
          CollectedExactly(ps[i].key, x);
          CollectedExactly(ps[i].value, x);
        }
        ObjectExactly(ps, x);
      case Call(f, args) => CollectedExactly(f, x); AllExactly(n, args, x); CallExactly(f, args, x);
      case Conditional(a, b, c) =>
        CollectedExactly(a, x);
        CollectedExactly(b, x);
        CollectedExactly(c, x);
        ConditionalExactly(a, b, c, x);
      case Logical(isAnd, a, b) => CollectedExactly(a, x); CollectedExactly(b, x); LogicalExactly(isAnd, a, b, x);
      case Let(y, a, b) => CollectedExactly(a, x); CollectedExactly(b, x); LetExactly(y, a, b, x);
      case ArrayLit(ns) => AllExactly(n, ns, x); ArrayExactly(ns, x);
      case Jsx(tag, intrinsic, ns) => AllExactly(n, ns, x); JsxExactly(tag, intrinsic, ns, x);
      case Operation(op, ns) => AllExactly(n, ns, x); OperationExactly(op, ns, x);
      case _ => LeafExactly(n, x);
    }
  }

  lemma LeafExactly(n: Node, x: string)
    requires n.Ident? || n.Literal? || n.This?
    ensures Exact(n, x)
  {
  }

  lemma MemberExactly(o: Node, p: Node, computed: bool, x: string)
    requires Exact(o, x) && Exact(p, x)
    ensures Exact(Member(o, p, computed), x)
  {
  }

  lemma OptionalExactly(o: Node, p: Node, computed: bool, x: string)
    requires Exact(o, x) && Exact(p, x)
    ensures Exact(OptionalMember(o, p, computed), x)
  {
  }

  lemma ConditionalExactly(a: Node, b: Node, c: Node, x: string)
    requires Exact(a, x) && Exact(b, x) && Exact(c, x)
    ensures Exact(Conditional(a, b, c), x)
  {
  }

  lemma LogicalExactly(isAnd: bool, a: Node, b: Node, x: string)
    requires Exact(a, x) && Exact(b, x)
    ensures Exact(Logical(isAnd, a, b), x)
  {
  }

  lemma LetExactly(y: string, a: Node, b: Node, x: string)
    requires Exact(a, x) && Exact(b, x)
    ensures Exact(Let(y, a, b), x)
  {
  }

  lemma ArrayExactly(ns: seq<Node>, x: string)
    requires forall i :: 0 <= i < |ns| ==> Exact(ns[i], x)
    ensures Exact(ArrayLit(ns), x)
  {
    ListExactly(ns, x);
  }

  /** An element has its tag besides what a list of its parts has. */
  lemma JsxExactly(tag: string, intrinsic: bool, ns: seq<Node>, x: string)
    requires forall i :: 0 <= i < |ns| ==> Exact(ns[i], x)
    ensures Exact(Jsx(tag, intrinsic, ns), x)
  {
    ArrayExactly(ns, x);
    JsxCollects(tag, intrinsic, ns, x);
    var list := Blanked(ArrayLit(ns));
    assert Blanked(Jsx(tag, intrinsic, ns)) == Jsx(tag, true, list.elements);
    JsxCollects(tag, true, list.elements, x);
  }

  lemma JsxCollects(tag: string, intrinsic: bool, ns: seq<Node>, x: string)
    ensures x in FreeRefs(Jsx(tag, intrinsic, ns), {}) <==> x in FreeRefs(ArrayLit(ns), {})
    ensures x in Refs(Jsx(tag, intrinsic, ns)) <==> (!intrinsic && x == tag) || x in Refs(ArrayLit(ns))
    ensures x in Extra(Jsx(tag, intrinsic, ns)) <==> x in Extra(ArrayLit(ns))
    ensures x in Hidden(Jsx(tag, intrinsic, ns)) <==> (!intrinsic && x == tag) || x in Hidden(ArrayLit(ns))
  {
  }

  lemma OperationExactly(op: string, ns: seq<Node>, x: string)
    requires forall i :: 0 <= i < |ns| ==> Exact(ns[i], x)
    ensures Exact(Operation(op, ns), x)
  {
    ArrayExactly(ns, x);
    OperationCollects(op, ns, x);
    var list := Blanked(ArrayLit(ns));
    assert Blanked(Operation(op, ns)) == Operation(op, list.elements);
    OperationCollects(op, list.elements, x);
  }

  lemma OperationCollects(op: string, ns: seq<Node>, x: string)
    ensures x in FreeRefs(Operation(op, ns), {}) <==> x in FreeRefs(ArrayLit(ns), {})
    ensures x in Refs(Operation(op, ns)) <==> x in Refs(ArrayLit(ns))
    ensures x in Extra(Operation(op, ns)) <==> x in Extra(ArrayLit(ns))
    ensures x in Hidden(Operation(op, ns)) <==> x in Hidden(ArrayLit(ns))
  {
  }

  /** What is in a call is in its callee or in its arguments. */
  lemma CallExactly(f: Node, args: seq<Node>, x: string)
    requires Exact(f, x) && forall i :: 0 <= i < |args| ==> Exact(args[i], x)
    ensures Exact(Call(f, args), x)
  {
    CallCollects(f, args, x);
    CallBlanks(f, args, x);
    ArrayExactly(args, x);
  }

  lemma CallCollects(f: Node, args: seq<Node>, x: string)
    ensures x in FreeRefs(Call(f, args), {}) <==> x in FreeRefs(f, {}) || x in FreeRefs(ArrayLit(args), {})
    ensures x in Refs(Call(f, args)) <==> x in Refs(f) || x in Refs(ArrayLit(args))
    ensures x in Extra(Call(f, args)) <==> x in Extra(f) || x in Extra(ArrayLit(args))
    ensures x in Hidden(Call(f, args)) <==> x in Hidden(f) || x in Hidden(ArrayLit(args))
  {
  }

  lemma CallBlanks(f: Node, args: seq<Node>, x: string)
    ensures x in Refs(Blanked(Call(f, args))) <==> x in Refs(Blanked(f)) || x in Refs(Blanked(ArrayLit(args)))
  {
    var call, list := Blanked(Call(f, args)), Blanked(ArrayLit(args));
    assert call == Call(Blanked(f), list.elements);
    CallCollects(Blanked(f), list.elements, x);
  }

  lemma {:induction false} AllExactly(n: Node, ns: seq<Node>, x: string)
    requires HasElements(n, ns)
    ensures forall i :: 0 <= i < |ns| ==> Exact(ns[i], x)
    decreases n, 0
  {
    forall i | 0 <= i < |ns|
      ensures Exact(ns[i], x)
    {
      CollectedExactly(ns[i], x);
    }
  }

  lemma ListExactly(ns: seq<Node>, x: string)
    requires forall i :: 0 <= i < |ns| ==> Exact(ns[i], x)
    ensures var bs := seq(|ns|, i requires 0 <= i < |ns| => Blanked(ns[i]));
            && ((exists i :: 0 <= i < |ns| && x in FreeRefs(ns[i], {})) <==>
                  (exists i :: 0 <= i < |bs| && x in Refs(bs[i])) || (exists i :: 0 <= i < |ns| && x in Extra(ns[i])))
            && ((exists i :: 0 <= i < |ns| && x in Refs(ns[i])) <==>
                  (exists i :: 0 <= i < |bs| && x in Refs(bs[i])) || (exists i :: 0 <= i < |ns| && x in Hidden(ns[i])))
  {
    var bs := seq(|ns|, i requires 0 <= i < |ns| => Blanked(ns[i]));
    forall i | 0 <= i < |ns|
      ensures bs[i] == Blanked(ns[i]) && Exact(ns[i], x)
    {
    }
  }

  lemma ObjectExactly(ps: seq<Property>, x: string)
    requires forall i :: 0 <= i < |ps| ==> Exact(ps[i].key, x) && Exact(ps[i].value, x)
    ensures Exact(ObjectLit(ps), x)
  {
    var b := Blanked(ObjectLit(ps));
    forall i | 0 <= i < |ps|
      ensures x in PropertyRefs(ps[i], {}) <==> x in FieldRefs(b.properties[i]) || x in ExtraIn(ps[i])
      ensures x in FieldRefs(ps[i]) <==> x in FieldRefs(b.properties[i]) || x in HiddenIn(ps[i])
    {
    }
  }

  lemma FunExactly(params: seq<Pattern>, body: Node, arrow: bool, x: string)
    requires Exact(body, x)
    ensures Exact(Fun(params, body, arrow), x)
  {
    var b := Blanked(Fun(params, body, arrow));
    forall i | 0 <= i < |params|
      ensures Names(b.params[i]) == Names(params[i]) && PatternRefs(b.params[i]) == {}
    {
      BlankedBinds(params[i]);
    }
    assert ParamNames(b.params) == ParamNames(params);
    CollectedLessBound(body, {} + ParamNames(params), x);
  }

  // ----- exactly what is accepted -----

  /** The names that an accepted predicate may use besides its parameters. */
  const OPEN_NAMES: set<string> :=
    {"Boolean", "Array", "Object", "String", "Number", "Math", "JSON", "undefined", "NaN", "Infinity", "Permissions"}

  /** Acceptance, spelled out: a function which, blanked, looks up nothing but the open names, and
      whose optional property names and declared names are all open or its parameters. Where
      nothing is hidden, it looks up nothing else as it is. */
  lemma AcceptedExactly(pred: Node)
    ensures Accepted(pred) <==>
              pred.Fun? && Refs(Blanked(pred)) <= OPEN_NAMES && Extra(pred) <= OPEN_NAMES
    ensures pred.Fun? && Hidden(pred) <= OPEN_NAMES ==>
              (Accepted(pred) <==> Refs(pred) <= OPEN_NAMES && Extra(pred) <= OPEN_NAMES)
  {
    OpenNames();
    if pred.Fun? {
      forall x
        ensures x in FreeRefs(pred.body, ParamNames(pred.params)) <==> x in Refs(Blanked(pred)) || x in Extra(pred)
        ensures x in Refs(pred) <==> x in Refs(Blanked(pred)) || x in Hidden(pred)
      {
        CollectedExactly(pred, x);
        assert {} + ParamNames(pred.params) == ParamNames(pred.params);
      }
    }
  }

  lemma OpenNames()
    ensures ALLOWED == OPEN_NAMES
  {
  }

  function PropertyOf(c: string, k: string): Node { Fun([Name(c)], Member(Ident(c), Ident(k), false), true) }

  function OptionalPropertyOf(c: string, k: string): Node {
    Fun([Name(c)], OptionalMember(Ident(c), Ident(k), false), true)
  }

  function PropertyThrough(c: string, y: string, k: string): Node {
    Fun([Name(c)], Let(y, Member(Ident(c), Ident(k), false), Ident(y)), true)
  }

  /** `(c) => c.k` is accepted whatever the names. The same read as `c?.k`, or through a local
      constant `y`, looks up no more, yet is accepted only if `k`, or `y`, is an open name or `c`. */
  lemma PropertiesAccepted(c: string, k: string, y: string)
    ensures Accepted(PropertyOf(c, k))
    ensures Refs(OptionalPropertyOf(c, k)) == {} && (Accepted(OptionalPropertyOf(c, k)) <==> k in OPEN_NAMES + {c})
    ensures Refs(PropertyThrough(c, y, k)) == {} && (Accepted(PropertyThrough(c, y, k)) <==> y in OPEN_NAMES + {c})
  {
    OpenNames();
    OneNameOnly(c, Member(Ident(c), Ident(k), false));
    OneNameOnly(c, OptionalMember(Ident(c), Ident(k), false));
    OneNameOnly(c, Let(y, Member(Ident(c), Ident(k), false), Ident(y)));
    LocalNames(c, k, y);
  }

  /** A function of one plain parameter. */
  lemma OneNameOnly(c: string, body: Node)
    ensures var pred := Fun([Name(c)], body, true);
            && (Accepted(pred) <==> FreeRefs(body, {c}) <= ALLOWED) && Refs(pred) == Refs(body) - {c}
  {
    OneParam(Name(c));
  }

  lemma LocalNames(c: string, k: string, y: string)
    ensures FreeRefs(Member(Ident(c), Ident(k), false), {c}) == {}
    ensures FreeRefs(OptionalMember(Ident(c), Ident(k), false), {c}) == {k} - {c}
    ensures FreeRefs(Let(y, Member(Ident(c), Ident(k), false), Ident(y)), {c}) == {y} - {c}
    ensures Refs(OptionalMember(Ident(c), Ident(k), false)) == {c}
    ensures Refs(Let(y, Member(Ident(c), Ident(k), false), Ident(y))) - {c} == {}
  {
  }

  // ----- the names that a pattern binds are those that binding adds -----

  /** Of `names` and the names known before, exactly these are known after; and what is said of any
      other name is as before. */
  ghost predicate Adds(e: Env, scope: Scope, names: set<string>, x: string) {
    scope.Scope? ==>
      && (Lookup(scope.env, x).Some? <==> Lookup(e, x).Some? || x in names)
      && (x !in names ==> Lookup(scope.env, x) == Lookup(e, x))
  }

  lemma AddsInTurn(e: Env, first: Scope, second: Scope, a: set<string>, b: set<string>, names: set<string>, x: string)
    requires first.Scope? && Adds(e, first, a, x) && Adds(first.env, second, b, x)
    requires x in names <==> x in a || x in b
    ensures Adds(e, second, names, x)
  {
  }

  lemma FirstParam(ps: seq<Pattern>, x: string)
    requires ps != []
    ensures x in ParamNames(ps) <==> x in Names(Bare(ps[0])) || x in ParamNames(ps[1..])
  {
    assert Names(Bare(ps[0])) == Names(ps[0]);
    if x in ParamNames(ps) && x !in Names(ps[0]) {
      var i :| 0 <= i < |ps| && x in Names(ps[i]);
      assert ps[1..][i - 1] == ps[i];
    }
    if x in ParamNames(ps[1..]) {
      var i :| 0 <= i < |ps[1..]| && x in Names(ps[1..][i]);
      assert ps[1..][i] == ps[i + 1];
    }
  }

  ghost function PropsNames(props: seq<PatternProp>): set<string> {
    set i, x | 0 <= i < |props| && x in PropNames(props[i]) :: x
  }

  lemma FirstProp(props: seq<PatternProp>, x: string)
    requires props != []
    ensures x in PropsNames(props) <==> x in PropNames(props[0]) || x in PropsNames(props[1..])
  {
    assert forall i :: 0 <= i < |props| - 1 ==> props[1..][i] == props[i + 1];
    if x in PropsNames(props) && x !in PropNames(props[0]) {
      var i :| 0 <= i < |props| && x in PropNames(props[i]);
      assert x in PropNames(props[1..][i - 1]);
    }
  }

  /** Binding a pattern, wherever it succeeds, makes exactly its names known. */
  lemma {:induction false} BindAddsNames(h: Host, fuel: nat, p: Pattern, v: Value, e: Env, self: Value, x: string)
    ensures Adds(e, Bind(h, fuel, p, v, e, self), Names(p), x)
    decreases fuel, 2, 0
  {
    if fuel > 0 {
      match p {
        case Hole =>
        case Name(_) =>
        case ObjectPattern(props) =>
          if !IsNullish(v) {
            PropsAddNames(h, fuel - 1, props, [], v, e, self, x);
            assert Names(p) == PropsNames(props);
          }
        case ArrayPattern(elements) =>
          if v.Array? {
            AllAddNames(h, fuel - 1, elements, v.items, e, self, x);
            assert Names(p) == ParamNames(elements);
          }
        case AssignmentPattern(left, fallback) =>
          if v != Undefined {
            BindAddsNames(h, fuel - 1, left, v, e, self, x);
          } else if Eval(h, fuel - 1, fallback, e, self).Val? {
            BindAddsNames(h, fuel - 1, left, Eval(h, fuel - 1, fallback, e, self).value, e, self, x);
          }
        case RestElement(_) =>
      }
    }
  }

  lemma {:induction false} AllAddNames(
      h: Host, fuel: nat, ps: seq<Pattern>, vs: seq<Value>, e: Env, self: Value, x: string)
    ensures Adds(e, BindAll(h, fuel, ps, vs, e, self), ParamNames(ps), x)
    decreases fuel, 3, |ps|
  {
    if ps != [] {
      var first := Bind(h, fuel, Bare(ps[0]), Supplied(ps[0], vs), e, self);
      FirstParam(ps, x);
      BindAddsNames(h, fuel, Bare(ps[0]), Supplied(ps[0], vs), e, self, x);
      if first.Scope? {
        AllAddNames(h, fuel, ps[1..], Left(vs), first.env, self, x);
        AddsInTurn(e, first, BindAll(h, fuel, ps, vs, e, self), Names(Bare(ps[0])), ParamNames(ps[1..]),
                   ParamNames(ps), x);
      }
    }
  }

  lemma {:induction false} PropsAddNames(
      h: Host, fuel: nat, props: seq<PatternProp>, used: seq<string>, v: Value, e: Env, self: Value, x: string)
    ensures Adds(e, BindProps(h, fuel, props, used, v, e, self), PropsNames(props), x)
    decreases fuel, 4, |props|
  {
    if props != [] {
      var key := PropKey(h, fuel, props[0], e, self);
      var first := BindProp(h, fuel, props[0], key, used, v, e, self);
      FirstProp(props, x);
      PropAddsNames(h, fuel, props[0], key, used, v, e, self, x);
      if first.Scope? {
        PropsAddNames(h, fuel, props[1..], UsedWith(used, key), v, first.env, self, x);
        AddsInTurn(e, first, BindProps(h, fuel, props, used, v, e, self), PropNames(props[0]), PropsNames(props[1..]),
                   PropsNames(props), x);
      }
    }
  }

  lemma {:induction false} PropAddsNames(
      h: Host, fuel: nat, prop: PatternProp, key: Outcome, used: seq<string>, v: Value, e: Env, self: Value, x: string)
    ensures Adds(e, BindProp(h, fuel, prop, key, used, v, e, self), PropNames(prop), x)
    decreases fuel, 3, 0
  {
    match prop {
      case PropRest(argument) => BindAddsNames(h, fuel, argument, Without(v, used), e, self, x);
      case PatternProp(_, _, value) =>
        var o := GetKeyed(h, v, key);
        if o.Val? { BindAddsNames(h, fuel, value, o.value, e, self, x); }
    }
  }
}
