/** Why an accepted predicate may be lifted: its value depends on nothing but its arguments and
    the allowed names (ui/plugins/vite-plugin-module-manifest.js:33-101). */
module PuritySound {
  import opened Wrappers
  import opened Predicates
  import opened Purity

  // ----- the names that evaluation looks up -----

  /** The true free names of an expression: those in the fallbacks and computed keys of its
      patterns and its tags count too, and `.prop` never does. */
  ghost function Refs(n: Node): set<string> {
    match n
    case Ident(x) => {x}
    case Literal(_) => {}
    case This => {}
    case Member(o, p, computed) => Refs(o) + (if computed then Refs(p) else {})
    case OptionalMember(o, p, computed) => Refs(o) + (if computed then Refs(p) else {})
    case Fun(params, body, _) =>
      ((set i, x | 0 <= i < |params| && x in PatternRefs(params[i]) :: x) + Refs(body)) - ParamNames(params)
    case ObjectLit(ps) => set i, x | 0 <= i < |ps| && x in FieldRefs(ps[i]) :: x
    case ArrayLit(ns) => set i, x | 0 <= i < |ns| && x in Refs(ns[i]) :: x
    case Call(f, args) => Refs(f) + set i, x | 0 <= i < |args| && x in Refs(args[i]) :: x
    case Conditional(a, b, c) => Refs(a) + Refs(b) + Refs(c)
    case Logical(_, a, b) => Refs(a) + Refs(b)
    case Jsx(tag, intrinsic, ns) =>
      (if intrinsic then {} else {tag}) + set i, x | 0 <= i < |ns| && x in Refs(ns[i]) :: x
    case Let(y, a, b) => (Refs(a) + Refs(b)) - {y}
    case Operation(_, ns) => set i, x | 0 <= i < |ns| && x in Refs(ns[i]) :: x
  }

  ghost function FieldRefs(p: Property): set<string> {
    (if p.computed then Refs(p.key) else {}) + Refs(p.value)
  }

  ghost function PatternRefs(p: Pattern): set<string> {
    match p
    case Hole => {}
    case Name(_) => {}
    case ObjectPattern(props) => set i, x | 0 <= i < |props| && x in PropRefs(props[i]) :: x
    case ArrayPattern(elements) => set i, x | 0 <= i < |elements| && x in PatternRefs(elements[i]) :: x
    case AssignmentPattern(left, fallback) => PatternRefs(left) + Refs(fallback)
    case RestElement(argument) => PatternRefs(argument)
  }

  ghost function PropRefs(p: PatternProp): set<string> {
    match p
    case PatternProp(key, computed, value) => (if computed then Refs(key) else {}) + PatternRefs(value)
    case PropRest(argument) => PatternRefs(argument)
  }

  /** Whether an expression can see the `this` around it: arrow functions let it through. */
  ghost predicate SeesThis(n: Node) {
    match n
    case Ident(_) => false
    case Literal(_) => false
    case This => true
    case Member(o, p, computed) => SeesThis(o) || (computed && SeesThis(p))
    case OptionalMember(o, p, computed) => SeesThis(o) || (computed && SeesThis(p))
    case Fun(params, body, arrow) =>
      arrow && (SeesThis(body) || exists i :: 0 <= i < |params| && PatternSeesThis(params[i]))
    case ObjectLit(ps) =>
      exists i :: 0 <= i < |ps| && ((ps[i].computed && SeesThis(ps[i].key)) || SeesThis(ps[i].value))
    case ArrayLit(ns) => exists i :: 0 <= i < |ns| && SeesThis(ns[i])
    case Call(f, args) => SeesThis(f) || exists i :: 0 <= i < |args| && SeesThis(args[i])
    case Conditional(a, b, c) => SeesThis(a) || SeesThis(b) || SeesThis(c)
    case Logical(_, a, b) => SeesThis(a) || SeesThis(b)
    case Jsx(_, _, ns) => exists i :: 0 <= i < |ns| && SeesThis(ns[i])
    case Let(_, a, b) => SeesThis(a) || SeesThis(b)
    case Operation(_, ns) => exists i :: 0 <= i < |ns| && SeesThis(ns[i])
  }

  ghost predicate PatternSeesThis(p: Pattern) {
    match p
    case Hole => false
    case Name(_) => false
    case ObjectPattern(props) => exists i :: 0 <= i < |props| && PropSeesThis(props[i])
    case ArrayPattern(elements) => exists i :: 0 <= i < |elements| && PatternSeesThis(elements[i])
    case AssignmentPattern(left, fallback) => PatternSeesThis(left) || SeesThis(fallback)
    case RestElement(argument) => PatternSeesThis(argument)
  }

  ghost predicate PropSeesThis(p: PatternProp) {
    match p
    case PatternProp(key, computed, value) => (computed && SeesThis(key)) || PatternSeesThis(value)
    case PropRest(argument) => PatternSeesThis(argument)
  }

  // ----- when two values cannot be told apart -----

  /** Equal up to closures, and closures of the same code whose environments agree on what the
      code looks up. */
  ghost predicate Same(v: Value, w: Value)
    decreases v, 0
  {
    match v
    case Array(items) => w.Array? && |w.items| == |items| && forall i :: 0 <= i < |items| ==> Same(items[i], w.items[i])
    case Object(fields) =>
      w.Object? && |w.fields| == |fields|
      && forall i :: 0 <= i < |fields| ==> fields[i].key == w.fields[i].key && Same(fields[i].value, w.fields[i].value)
    case Closure(fn, env, self) =>
      && w.Closure? && w.fn == fn && (forall x :: x in Refs(fn) ==> SameAt(env, w.env, x))
      && (SeesThis(fn) ==> Same(self, w.self))
    case _ => v == w
  }

  /** Two environments agree on a name. */
  ghost predicate SameAt(e: Env, d: Env, x: string)
    decreases e, 1
  {
    match e
    case Empty => Lookup(d, x).None?
    case Bound(y, v, rest) => if x == y then Lookup(d, x).Some? && Same(v, Lookup(d, x).value) else SameAt(rest, d, x)
    case Declared(names, rest) => if x in names then Lookup(d, x) == Some(Uninit) else SameAt(rest, d, x)
  }

  ghost predicate SameAll(vs: seq<Value>, ws: seq<Value>) {
    |vs| == |ws| && forall i :: 0 <= i < |vs| ==> Same(vs[i], ws[i])
  }

  ghost predicate SameOutcome(o: Outcome, p: Outcome) {
    match o
    case Val(v) => p.Val? && Same(v, p.value)
    case _ => o == p
  }

  ghost predicate Agree(e: Env, d: Env, names: set<string>) {
    forall x :: x in names ==> SameAt(e, d, x)
  }

  lemma {:induction false} SameLookup(e: Env, d: Env, x: string)
    ensures SameAt(e, d, x) <==>
              match Lookup(e, x)
              case None => Lookup(d, x).None?
              case Some(v) => Lookup(d, x).Some? && Same(v, Lookup(d, x).value)
  {
    match e {
      case Empty =>
      case Bound(y, v, rest) => if x != y { SameLookup(rest, d, x); }
      case Declared(names, rest) => if x !in names { SameLookup(rest, d, x); } else { assert Same(Uninit, Uninit); }
    }
  }

  lemma {:induction false} SameRefl(v: Value)
    ensures Same(v, v)
    decreases v, 0
  {
    match v {
      case Array(items) => forall i | 0 <= i < |items| ensures Same(items[i], items[i]) { SameRefl(items[i]); }
      case Object(fields) =>
        forall i | 0 <= i < |fields|
          ensures Same(fields[i].value, fields[i].value)
        {
          SameRefl(fields[i].value);
        }
      case Closure(fn, env, self) =>
        SameRefl(self);
        forall x | x in Refs(fn) ensures SameAt(env, env, x) { SameAtRefl(env, x); }
      case _ =>
    }
  }

  lemma {:induction false} SameAtRefl(e: Env, x: string)
    ensures SameAt(e, e, x)
    decreases e, 1
  {
    match e {
      case Empty =>
      case Bound(y, v, rest) =>
        if x == y { SameRefl(v); } else { SameAtRefl(rest, x); SameLookup(rest, rest, x); SameLookup(rest, e, x); }
      case Declared(names, rest) =>
        if x !in names { SameAtRefl(rest, x); SameLookup(rest, rest, x); SameLookup(rest, e, x); }
    }
  }

  /** Related values answer a condition alike. */
  lemma SameTruth(v: Value, w: Value)
    requires Same(v, w)
    ensures Truthy(v) == Truthy(w) && IsNullish(v) == IsNullish(w) && (v == Undefined <==> w == Undefined)
    ensures v.Primitive? ==> v == w
  {
  }

  // ----- the host -----

  ghost predicate SameCallbacks(f: Callback, g: Callback) {
    forall v, w, vs, ws :: Same(v, w) && SameAll(vs, ws) ==> SameOutcome(f(v, vs), g(w, ws))
  }

  /** Built-in code cannot see into a closure except by calling it. */
  ghost predicate IsParametric(h: Host) {
    forall f, g, name, v, w, vs, ws ::
      SameCallbacks(f, g) && Same(v, w) && SameAll(vs, ws) ==> SameOutcome(h(f, name, v, vs), h(g, name, w, ws))
  }

  // ----- coincidence -----

  /** The two sides of a comparison: same code, two environments and two receivers that agree on
      the names `at`, and on `this` where it is seen. */
  ghost predicate Agreeing(e: Env, s: Value, d: Env, t: Value, at: set<string>, seesThis: bool) {
    Agree(e, d, at) && (seesThis ==> Same(s, t))
  }

  ghost predicate AgreeingAll(e: Env, s: Value, d: Env, t: Value, ns: seq<Node>) {
    forall i :: 0 <= i < |ns| ==> Agreeing(e, s, d, t, Refs(ns[i]), SeesThis(ns[i]))
  }

  ghost predicate PropertyAgrees(e: Env, s: Value, d: Env, t: Value, p: Property) {
    && (p.computed ==> Agreeing(e, s, d, t, Refs(p.key), SeesThis(p.key)))
    && Agreeing(e, s, d, t, Refs(p.value), SeesThis(p.value))
  }

  ghost predicate SameValues(vs: Values, ws: Values) {
    match vs
    case Vals(a) => ws.Vals? && SameAll(a, ws.values)
    case Stopped(o) => ws.Stopped? && SameOutcome(o, ws.outcome)
  }

  ghost predicate SameScope(a: Scope, b: Scope, at: set<string>) {
    match a
    case Scope(e) => b.Scope? && Agree(e, b.env, at)
    case Halted(o) => b.Halted? && SameOutcome(o, b.outcome)
  }

  lemma HostSame(h: Host, f: Callback, name: string, v: Value, w: Value, vs: seq<Value>, ws: seq<Value>)
    requires IsParametric(h) && SameCallbacks(f, f) && Same(v, w) && SameAll(vs, ws)
    ensures SameOutcome(h(f, name, v, vs), h(f, name, w, ws))
  {
  }

  lemma {:induction false} FieldSame(a: seq<Field>, b: seq<Field>, key: string)
    requires Same(Object(a), Object(b))
    ensures Same(Field0(a, key), Field0(b, key))
  {
    if a != [] {
      assert a[0].key == b[0].key && Same(a[0].value, b[0].value);
      if a[0].key != key {
        assert Same(Object(a[1..]), Object(b[1..]));
        FieldSame(a[1..], b[1..], key);
      }
    }
  }

  lemma GetSame(h: Host, v: Value, w: Value, key: string)
    requires IsParametric(h) && Same(v, w)
    ensures SameOutcome(Get(h, v, key), Get(h, w, key))
  {
    SameTruth(v, w);
    if !IsNullish(v) {
      if v.Object? {
        FieldSame(v.fields, w.fields, key);
      } else {
        HostSame(h, NoCallback(), "[[Get]]", v, w, [Primitive(Str(key))], [Primitive(Str(key))]);
      }
    }
  }

  lemma KeySame(h: Host, v: Value, w: Value)
    requires IsParametric(h) && Same(v, w)
    ensures KeyOf(h, v) == KeyOf(h, w)
  {
    SameTruth(v, w);
    if !(v.Primitive? && v.p.Str?) {
      HostSame(h, NoCallback(), "ToPropertyKey", Undefined, Undefined, [v], [w]);
      var o, p := h(NoCallback(), "ToPropertyKey", Undefined, [v]), h(NoCallback(), "ToPropertyKey", Undefined, [w]);
      if o.Val? { SameTruth(o.value, p.value); }
    }
  }

  lemma KeyFromSame(h: Host, o: Outcome, q: Outcome)
    requires IsParametric(h) && SameOutcome(o, q)
    ensures KeyFrom(h, o) == KeyFrom(h, q)
  {
    if o.Val? { KeySame(h, o.value, q.value); }
  }

  lemma {:induction false} EvalSame(h: Host, fuel: nat, n: Node, e: Env, s: Value, d: Env, t: Value)
    requires IsParametric(h) && Agreeing(e, s, d, t, Refs(n), SeesThis(n))
    ensures SameOutcome(Eval(h, fuel, n, e, s), Eval(h, fuel, n, d, t))
    decreases fuel, 1, 0
  {
    if fuel == 0 {
      assert Eval(h, fuel, n, e, s) == Timeout;
    } else if IsLeaf(n) {
      LeafSame(h, fuel, n, e, s, d, t);
    } else {
      CompoundSame(h, fuel, n, e, s, d, t);
    }
  }

  predicate IsLeaf(n: Node) { n.Ident? || n.Literal? || n.This? || n.Fun? }

  lemma LeafSame(h: Host, fuel: nat, n: Node, e: Env, s: Value, d: Env, t: Value)
    requires fuel > 0 && IsLeaf(n) && Agreeing(e, s, d, t, Refs(n), SeesThis(n))
    ensures SameOutcome(Eval(h, fuel, n, e, s), Eval(h, fuel, n, d, t))
  {
    match n {
      case Ident(x) => LookSame(e, d, x);
      case Fun(_, _, _) => ClosureSame(n, e, s, d, t);
      case _ =>
    }
  }

  lemma {:induction false} CompoundSame(h: Host, fuel: nat, n: Node, e: Env, s: Value, d: Env, t: Value)
    requires fuel > 0 && !IsLeaf(n)
    requires IsParametric(h) && Agreeing(e, s, d, t, Refs(n), SeesThis(n))
    ensures SameOutcome(Eval(h, fuel, n, e, s), Eval(h, fuel, n, d, t))
    decreases fuel, 0, 2
  {
    match n {
      case Member(o, p, computed) => MemberSame(h, fuel, o, p, computed, e, s, d, t);
      case OptionalMember(o, p, computed) => OptionalSame(h, fuel, o, p, computed, e, s, d, t);
      case Conditional(a, b, c) => ConditionalSame(h, fuel, a, b, c, e, s, d, t);
      case Logical(isAnd, a, b) => LogicalSame(h, fuel, isAnd, a, b, e, s, d, t);
      case ObjectLit(ps) => ObjectSame(h, fuel, ps, e, s, d, t);
      case ArrayLit(ns) => ArraySame(h, fuel, ns, e, s, d, t);
      case Call(f, args) => CallSame(h, fuel, f, args, e, s, d, t);
      case Jsx(tag, intrinsic, ns) => JsxSame(h, fuel, tag, intrinsic, ns, e, s, d, t);
      case Let(y, a, b) => LetSame(h, fuel, y, a, b, e, s, d, t);
      case Operation(op, ns) => OperationSame(h, fuel, op, ns, e, s, d, t);
    }
  }

  lemma ClosureSame(n: Node, e: Env, s: Value, d: Env, t: Value)
    requires Agreeing(e, s, d, t, Refs(n), SeesThis(n))
    ensures Same(Closure(n, e, s), Closure(n, d, t))
  {
  }

  /** Outcomes that cannot be told apart lead to the same branch. */
  lemma TestSame(o: Outcome, q: Outcome)
    requires SameOutcome(o, q)
    ensures o.Val? ==> q.Val? && Truthy(o.value) == Truthy(q.value)
  {
    if o.Val? { SameTruth(o.value, q.value); }
  }

  lemma {:induction false} ConditionalSame(
      h: Host, fuel: nat, a: Node, b: Node, c: Node, e: Env, s: Value, d: Env, t: Value)
    requires fuel > 0 && IsParametric(h)
    requires Agreeing(e, s, d, t, Refs(Conditional(a, b, c)), SeesThis(Conditional(a, b, c)))
    ensures SameOutcome(Eval(h, fuel, Conditional(a, b, c), e, s), Eval(h, fuel, Conditional(a, b, c), d, t))
    decreases fuel, 0, 0
  {
    EvalSame(h, fuel - 1, a, e, s, d, t);
    BranchSame(h, fuel - 1, Eval(h, fuel - 1, a, e, s), Eval(h, fuel - 1, a, d, t), b, c, e, s, d, t);
  }

  lemma {:induction false} BranchSame(
      h: Host, fuel: nat, o: Outcome, q: Outcome, b: Node, c: Node, e: Env, s: Value, d: Env, t: Value)
    requires IsParametric(h) && SameOutcome(o, q)
    requires Agreeing(e, s, d, t, Refs(b), SeesThis(b)) && Agreeing(e, s, d, t, Refs(c), SeesThis(c))
    ensures SameOutcome(Branch(h, fuel, o, b, c, e, s), Branch(h, fuel, q, b, c, d, t))
    decreases fuel, 2, 0
  {
    if o.Val? {
      TestSame(o, q);
      BranchIs(h, fuel, o.value, b, c, e, s);
      BranchIs(h, fuel, q.value, b, c, d, t);
      TakenSame(h, fuel, Taken(o.value, b, c), b, c, e, s, d, t);
    }
  }

  lemma BranchIs(h: Host, fuel: nat, v: Value, b: Node, c: Node, e: Env, s: Value)
    ensures Branch(h, fuel, Val(v), b, c, e, s) == Eval(h, fuel, Taken(v, b, c), e, s)
  {
  }

  lemma {:induction false} TakenSame(h: Host, fuel: nat, n: Node, b: Node, c: Node, e: Env, s: Value, d: Env, t: Value)
    requires IsParametric(h) && (n == b || n == c)
    requires Agreeing(e, s, d, t, Refs(b), SeesThis(b)) && Agreeing(e, s, d, t, Refs(c), SeesThis(c))
    ensures SameOutcome(Eval(h, fuel, n, e, s), Eval(h, fuel, n, d, t))
    decreases fuel, 1, 1
  {
    EvalSame(h, fuel, n, e, s, d, t);
  }

  lemma {:induction false} LogicalSame(
      h: Host, fuel: nat, isAnd: bool, a: Node, b: Node, e: Env, s: Value, d: Env, t: Value)
    requires fuel > 0 && IsParametric(h)
    requires Agreeing(e, s, d, t, Refs(Logical(isAnd, a, b)), SeesThis(Logical(isAnd, a, b)))
    ensures SameOutcome(Eval(h, fuel, Logical(isAnd, a, b), e, s), Eval(h, fuel, Logical(isAnd, a, b), d, t))
    decreases fuel, 0, 0
  {
    EvalSame(h, fuel - 1, a, e, s, d, t);
    AndThenSame(h, fuel - 1, isAnd, Eval(h, fuel - 1, a, e, s), Eval(h, fuel - 1, a, d, t), b, e, s, d, t);
  }

  lemma {:induction false} AndThenSame(
      h: Host, fuel: nat, isAnd: bool, o: Outcome, q: Outcome, b: Node, e: Env, s: Value, d: Env, t: Value)
    requires IsParametric(h) && SameOutcome(o, q) && Agreeing(e, s, d, t, Refs(b), SeesThis(b))
    ensures SameOutcome(AndThen(h, fuel, isAnd, o, b, e, s), AndThen(h, fuel, isAnd, q, b, d, t))
    decreases fuel, 2, 0
  {
    TestSame(o, q);
    if o.Val? { EvalSame(h, fuel, b, e, s, d, t); }
  }

  lemma {:induction false} ObjectSame(h: Host, fuel: nat, ps: seq<Property>, e: Env, s: Value, d: Env, t: Value)
    requires fuel > 0 && IsParametric(h) && Agreeing(e, s, d, t, Refs(ObjectLit(ps)), SeesThis(ObjectLit(ps)))
    ensures SameOutcome(Eval(h, fuel, ObjectLit(ps), e, s), Eval(h, fuel, ObjectLit(ps), d, t))
    decreases fuel, 0, 0
  {
    ObjectAgrees(ps, e, s, d, t);
    EvalFieldsSame(h, fuel - 1, ps, [], [], e, s, d, t);
  }

  predicate HasElements(n: Node, ns: seq<Node>) {
    || n == ArrayLit(ns) || (n.Call? && n.args == ns) || (n.Operation? && n.operands == ns)
    || (n.Jsx? && n.parts == ns)
  }

  lemma ElementsAgree(n: Node, ns: seq<Node>, e: Env, s: Value, d: Env, t: Value)
    requires HasElements(n, ns)
    requires Agreeing(e, s, d, t, Refs(n), SeesThis(n))
    ensures AgreeingAll(e, s, d, t, ns)
  {
    forall i | 0 <= i < |ns|
      ensures Agreeing(e, s, d, t, Refs(ns[i]), SeesThis(ns[i]))
    {
      assert Refs(ns[i]) <= Refs(n);
    }
  }

  lemma {:induction false} ArraySame(h: Host, fuel: nat, ns: seq<Node>, e: Env, s: Value, d: Env, t: Value)
    requires fuel > 0 && IsParametric(h) && Agreeing(e, s, d, t, Refs(ArrayLit(ns)), SeesThis(ArrayLit(ns)))
    ensures SameOutcome(Eval(h, fuel, ArrayLit(ns), e, s), Eval(h, fuel, ArrayLit(ns), d, t))
    decreases fuel, 0, 0
  {
    ElementsAgree(ArrayLit(ns), ns, e, s, d, t);
    EvalAllSame(h, fuel - 1, ns, e, s, d, t);
  }

  lemma {:induction false} CallSame(h: Host, fuel: nat, f: Node, args: seq<Node>, e: Env, s: Value, d: Env, t: Value)
    requires fuel > 0 && IsParametric(h) && Agreeing(e, s, d, t, Refs(Call(f, args)), SeesThis(Call(f, args)))
    ensures SameOutcome(Eval(h, fuel, Call(f, args), e, s), Eval(h, fuel, Call(f, args), d, t))
    decreases fuel, 0, 0
  {
    ElementsAgree(Call(f, args), args, e, s, d, t);
    EvalCallSame(h, fuel - 1, f, args, e, s, d, t);
  }

  lemma {:induction false} JsxSame(
      h: Host, fuel: nat, tag: string, intrinsic: bool, ns: seq<Node>, e: Env, s: Value, d: Env, t: Value)
    requires fuel > 0 && IsParametric(h)
    requires Agreeing(e, s, d, t, Refs(Jsx(tag, intrinsic, ns)), SeesThis(Jsx(tag, intrinsic, ns)))
    ensures SameOutcome(Eval(h, fuel, Jsx(tag, intrinsic, ns), e, s), Eval(h, fuel, Jsx(tag, intrinsic, ns), d, t))
    decreases fuel, 0, 0
  {
    ElementsAgree(Jsx(tag, intrinsic, ns), ns, e, s, d, t);
    EvalAllSame(h, fuel - 1, ns, e, s, d, t);
    TagSame(tag, intrinsic, e, d);
    ElementSame(TagOf(tag, intrinsic, e), TagOf(tag, intrinsic, d), EvalAll(h, fuel - 1, ns, e, s),
                EvalAll(h, fuel - 1, ns, d, t));
  }

  lemma LookSame(e: Env, d: Env, x: string)
    requires SameAt(e, d, x)
    ensures SameOutcome(Look(e, x), Look(d, x))
  {
    SameLookup(e, d, x);
  }

  lemma TagSame(tag: string, intrinsic: bool, e: Env, d: Env)
    requires !intrinsic ==> SameAt(e, d, tag)
    ensures SameOutcome(TagOf(tag, intrinsic, e), TagOf(tag, intrinsic, d))
  {
    if !intrinsic { LookSame(e, d, tag); }
  }

  lemma ElementSame(o: Outcome, q: Outcome, vs: Values, ws: Values)
    requires SameOutcome(o, q) && SameValues(vs, ws)
    ensures SameOutcome(Element(o, vs), Element(q, ws))
  {
    if o.Val? && vs.Vals? {
      assert Same(Array(vs.values), Array(ws.values));
      ObjectGrows(Field("parts", Array(vs.values)), Field("parts", Array(ws.values)), [], []);
      var a, b := [Field("parts", Array(vs.values))] + [], [Field("parts", Array(ws.values))] + [];
      ObjectGrows(Field("type", o.value), Field("type", q.value), a, b);
    }
  }

  lemma {:induction false} LetSame(h: Host, fuel: nat, y: string, a: Node, b: Node, e: Env, s: Value, d: Env, t: Value)
    requires fuel > 0 && IsParametric(h) && Agreeing(e, s, d, t, Refs(Let(y, a, b)), SeesThis(Let(y, a, b)))
    ensures SameOutcome(Eval(h, fuel, Let(y, a, b), e, s), Eval(h, fuel, Let(y, a, b), d, t))
    decreases fuel, 0, 1
  {
    DeclaredSame({y}, e, d, Refs(Let(y, a, b)));
    var e0, d0 := Declared({y}, e), Declared({y}, d);
    EvalSame(h, fuel - 1, a, e0, s, d0, t);
    EvalLetSame(h, fuel - 1, y, Eval(h, fuel - 1, a, e0, s), Eval(h, fuel - 1, a, d0, t), b, e, s, d, t);
  }

  lemma {:induction false} EvalLetSame(
      h: Host, fuel: nat, y: string, o: Outcome, q: Outcome, b: Node, e: Env, s: Value, d: Env, t: Value)
    requires IsParametric(h) && SameOutcome(o, q) && Agree(e, d, Refs(b) - {y}) && (SeesThis(b) ==> Same(s, t))
    ensures SameOutcome(EvalLet(h, fuel, y, o, b, e, s), EvalLet(h, fuel, y, q, b, d, t))
    decreases fuel, 2, 0
  {
    var e0, d0 := Declared({y}, e), Declared({y}, d);
    DeclaredSame({y}, e, d, Refs(b) - {y});
    if o.Val? {
      BoundSame(y, o.value, e0, q.value, d0, {y} + (Refs(b) - {y}));
      EvalSame(h, fuel, b, Bound(y, o.value, e0), s, Bound(y, q.value, d0), t);
    }
  }

  lemma DeclaredSame(names: set<string>, e: Env, d: Env, at: set<string>)
    requires Agree(e, d, at)
    ensures Agree(Declared(names, e), Declared(names, d), names + at)
  {
    forall x | x in names + at ensures SameAt(Declared(names, e), Declared(names, d), x) {
      SameLookup(e, d, x);
      SameLookup(Declared(names, e), Declared(names, d), x);
    }
  }

  lemma {:induction false} OperationSame(
      h: Host, fuel: nat, op: string, ns: seq<Node>, e: Env, s: Value, d: Env, t: Value)
    requires fuel > 0 && IsParametric(h) && Agreeing(e, s, d, t, Refs(Operation(op, ns)), SeesThis(Operation(op, ns)))
    ensures SameOutcome(Eval(h, fuel, Operation(op, ns), e, s), Eval(h, fuel, Operation(op, ns), d, t))
    decreases fuel, 0, 0
  {
    ElementsAgree(Operation(op, ns), ns, e, s, d, t);
    EvalAllSame(h, fuel - 1, ns, e, s, d, t);
    CallbackSame(h, fuel - 1);
    OperateSame(h, CallbackAt(h, fuel - 1), op, EvalAll(h, fuel - 1, ns, e, s), EvalAll(h, fuel - 1, ns, d, t));
  }

  lemma OperateSame(h: Host, f: Callback, op: string, vs: Values, ws: Values)
    requires IsParametric(h) && SameCallbacks(f, f) && SameValues(vs, ws)
    ensures SameOutcome(Operate(h, f, op, vs), Operate(h, f, op, ws))
  {
    if vs.Vals? { HostSame(h, f, op, Undefined, Undefined, vs.values, ws.values); }
  }

  lemma ObjectAgrees(ps: seq<Property>, e: Env, s: Value, d: Env, t: Value)
    requires Agreeing(e, s, d, t, Refs(ObjectLit(ps)), SeesThis(ObjectLit(ps)))
    ensures forall i :: 0 <= i < |ps| ==> PropertyAgrees(e, s, d, t, ps[i])
  {
    forall i | 0 <= i < |ps|
      ensures PropertyAgrees(e, s, d, t, ps[i])
    {
      assert FieldRefs(ps[i]) <= Refs(ObjectLit(ps));
    }
  }

  lemma {:induction false} MemberSame(
      h: Host, fuel: nat, o: Node, p: Node, computed: bool, e: Env, s: Value, d: Env, t: Value)
    requires fuel > 0 && IsParametric(h)
    requires Agreeing(e, s, d, t, Refs(Member(o, p, computed)), SeesThis(Member(o, p, computed)))
    ensures SameOutcome(Eval(h, fuel, Member(o, p, computed), e, s), Eval(h, fuel, Member(o, p, computed), d, t))
    decreases fuel, 0, 0
  {
    EvalSame(h, fuel - 1, o, e, s, d, t);
    GetFromSame(h, fuel - 1, Eval(h, fuel - 1, o, e, s), Eval(h, fuel - 1, o, d, t), false, p, computed, e, s, d, t);
  }

  lemma {:induction false} OptionalSame(
      h: Host, fuel: nat, o: Node, p: Node, computed: bool, e: Env, s: Value, d: Env, t: Value)
    requires fuel > 0 && IsParametric(h)
    requires Agreeing(e, s, d, t, Refs(OptionalMember(o, p, computed)), SeesThis(OptionalMember(o, p, computed)))
    ensures SameOutcome(Eval(h, fuel, OptionalMember(o, p, computed), e, s),
                        Eval(h, fuel, OptionalMember(o, p, computed), d, t))
    decreases fuel, 0, 0
  {
    EvalSame(h, fuel - 1, o, e, s, d, t);
    GetFromSame(h, fuel - 1, Eval(h, fuel - 1, o, e, s), Eval(h, fuel - 1, o, d, t), true, p, computed, e, s, d, t);
  }

  lemma {:induction false} GetFromSame(
      h: Host, fuel: nat, o: Outcome, q: Outcome, optional: bool, key: Node, computed: bool, e: Env, s: Value, d: Env,
      t: Value)
    requires IsParametric(h) && SameOutcome(o, q) && (computed ==> Agreeing(e, s, d, t, Refs(key), SeesThis(key)))
    ensures SameOutcome(GetFrom(h, fuel, o, optional, key, computed, e, s),
                        GetFrom(h, fuel, q, optional, key, computed, d, t))
    decreases fuel, 4, 0
  {
    if o.Val? {
      SameTruth(o.value, q.value);
      GetAtSame(h, fuel, o.value, q.value, key, computed, e, s, d, t);
    }
  }

  lemma {:induction false} CallbackSame(h: Host, fuel: nat)
    requires IsParametric(h)
    ensures SameCallbacks(CallbackAt(h, fuel), CallbackAt(h, fuel))
    decreases fuel, 3, 0
  {
    forall v, w, vs, ws | Same(v, w) && SameAll(vs, ws)
      ensures SameOutcome(CallbackAt(h, fuel)(v, vs), CallbackAt(h, fuel)(w, ws))
    {
      ApplySame(h, fuel, v, w, Undefined, Undefined, vs, ws);
    }
  }

  lemma {:induction false} EvalAllSame(h: Host, fuel: nat, ns: seq<Node>, e: Env, s: Value, d: Env, t: Value)
    requires IsParametric(h)
    requires AgreeingAll(e, s, d, t, ns)
    ensures SameValues(EvalAll(h, fuel, ns, e, s), EvalAll(h, fuel, ns, d, t))
    decreases fuel, 2, |ns|
  {
    if ns != [] {
      EvalSame(h, fuel, ns[0], e, s, d, t);
      EvalAllSame(h, fuel, ns[1..], e, s, d, t);
    }
  }

  lemma {:induction false} EvalKeySame(
      h: Host, fuel: nat, key: Node, computed: bool, e: Env, s: Value, d: Env, t: Value)
    requires IsParametric(h) && (computed ==> Agreeing(e, s, d, t, Refs(key), SeesThis(key)))
    ensures EvalKey(h, fuel, key, computed, e, s) == EvalKey(h, fuel, key, computed, d, t)
    decreases fuel, 2, 0
  {
    if computed {
      EvalSame(h, fuel, key, e, s, d, t);
      KeyFromSame(h, Eval(h, fuel, key, e, s), Eval(h, fuel, key, d, t));
    }
  }

  lemma {:induction false} GetAtSame(
      h: Host, fuel: nat, v: Value, w: Value, key: Node, computed: bool, e: Env, s: Value, d: Env, t: Value)
    requires IsParametric(h) && Same(v, w) && (computed ==> Agreeing(e, s, d, t, Refs(key), SeesThis(key)))
    ensures SameOutcome(GetAt(h, fuel, v, key, computed, e, s), GetAt(h, fuel, w, key, computed, d, t))
    decreases fuel, 3, 0
  {
    EvalKeySame(h, fuel, key, computed, e, s, d, t);
    GetKeyedSame(h, v, w, EvalKey(h, fuel, key, computed, e, s));
  }

  lemma GetKeyedSame(h: Host, v: Value, w: Value, key: Outcome)
    requires IsParametric(h) && Same(v, w)
    ensures SameOutcome(GetKeyed(h, v, key), GetKeyed(h, w, key))
  {
    if key.Val? && key.value.Primitive? && key.value.p.Str? { GetSame(h, v, w, key.value.p.s); }
  }

  ghost predicate SameField(f: MaybeField, g: MaybeField) {
    match f
    case Made(a) => g.Made? && a.key == g.field.key && Same(a.value, g.field.value)
    case NotMade(o) => g == f && !o.Val?
  }

  lemma {:induction false} EvalFieldsSame(
      h: Host, fuel: nat, ps: seq<Property>, a: seq<Field>, b: seq<Field>, e: Env, s: Value, d: Env, t: Value)
    requires IsParametric(h) && Same(Object(a), Object(b))
    requires forall i :: 0 <= i < |ps| ==> PropertyAgrees(e, s, d, t, ps[i])
    ensures SameOutcome(EvalFields(h, fuel, ps, a, e, s), EvalFields(h, fuel, ps, b, d, t))
    decreases fuel, 4, |ps|
  {
    if ps != [] {
      EvalFieldSame(h, fuel, ps[0], e, s, d, t);
      var f, g := EvalField(h, fuel, ps[0], e, s), EvalField(h, fuel, ps[0], d, t);
      if f.Made? {
        ObjectGrows(f.field, g.field, a, b);
        EvalFieldsSame(h, fuel, ps[1..], [f.field] + a, [g.field] + b, e, s, d, t);
      }
    }
  }

  lemma ObjectGrows(f: Field, g: Field, a: seq<Field>, b: seq<Field>)
    requires f.key == g.key && Same(f.value, g.value) && Same(Object(a), Object(b))
    ensures Same(Object([f] + a), Object([g] + b))
  {
  }

  lemma {:induction false} EvalFieldSame(h: Host, fuel: nat, p: Property, e: Env, s: Value, d: Env, t: Value)
    requires IsParametric(h) && PropertyAgrees(e, s, d, t, p)
    ensures SameField(EvalField(h, fuel, p, e, s), EvalField(h, fuel, p, d, t))
    decreases fuel, 3, 0
  {
    EvalKeySame(h, fuel, p.key, p.computed, e, s, d, t);
    EvalSame(h, fuel, p.value, e, s, d, t);
    FieldOfSame(EvalKey(h, fuel, p.key, p.computed, e, s), Eval(h, fuel, p.value, e, s), Eval(h, fuel, p.value, d, t));
  }

  lemma FieldOfSame(key: Outcome, o: Outcome, q: Outcome)
    requires SameOutcome(o, q)
    ensures SameField(FieldOf(key, o), FieldOf(key, q))
  {
  }

  ghost predicate SameCallee(a: Callee, b: Callee) {
    match a
    case Called(f, r) => b.Called? && Same(f, b.f) && Same(r, b.receiver)
    case NotCalled(o) => b.NotCalled? && SameOutcome(o, b.outcome)
  }

  ghost predicate SameApplier(a: Applier) {
    forall f, g, r, q, vs, ws :: Same(f, g) && Same(r, q) && SameAll(vs, ws) ==> SameOutcome(a(f, r, vs), a(g, q, ws))
  }

  lemma {:induction false} EvalCallSame(
      h: Host, fuel: nat, f: Node, args: seq<Node>, e: Env, s: Value, d: Env, t: Value)
    requires IsParametric(h) && Agreeing(e, s, d, t, Refs(f), SeesThis(f)) && AgreeingAll(e, s, d, t, args)
    ensures SameOutcome(EvalCall(h, fuel, f, args, e, s), EvalCall(h, fuel, f, args, d, t))
    decreases fuel, 5, 0
  {
    CalleeSame(h, fuel, f, e, s, d, t);
    EvalAllSame(h, fuel, args, e, s, d, t);
    ApplierSame(h, fuel);
    InvokeSame(ApplierAt(h, fuel), EvalCallee(h, fuel, f, e, s), EvalCallee(h, fuel, f, d, t),
               EvalAll(h, fuel, args, e, s), EvalAll(h, fuel, args, d, t));
  }

  lemma InvokeSame(apply: Applier, a: Callee, b: Callee, vs: Values, ws: Values)
    requires SameApplier(apply) && SameCallee(a, b) && SameValues(vs, ws)
    ensures a.Called? ==> SameOutcome(Invoke(apply, a.f, a.receiver, vs), Invoke(apply, b.f, b.receiver, ws))
  {
  }

  lemma {:induction false} CalleeSame(h: Host, fuel: nat, f: Node, e: Env, s: Value, d: Env, t: Value)
    requires IsParametric(h) && Agreeing(e, s, d, t, Refs(f), SeesThis(f))
    ensures SameCallee(EvalCallee(h, fuel, f, e, s), EvalCallee(h, fuel, f, d, t))
    decreases fuel, 4, 0
  {
    if f.Member? {
      EvalSame(h, fuel, f.base, e, s, d, t);
      MethodSame(h, fuel, Eval(h, fuel, f.base, e, s), Eval(h, fuel, f.base, d, t), f.property, f.computed, e, s, d, t);
    } else {
      EvalSame(h, fuel, f, e, s, d, t);
    }
  }

  lemma {:induction false} MethodSame(
      h: Host, fuel: nat, o: Outcome, q: Outcome, key: Node, computed: bool, e: Env, s: Value, d: Env, t: Value)
    requires IsParametric(h) && SameOutcome(o, q) && (computed ==> Agreeing(e, s, d, t, Refs(key), SeesThis(key)))
    ensures SameCallee(MethodOf(h, fuel, o, key, computed, e, s), MethodOf(h, fuel, q, key, computed, d, t))
    decreases fuel, 3, 1
  {
    if o.Val? { GetAtSame(h, fuel, o.value, q.value, key, computed, e, s, d, t); }
  }

  lemma {:induction false} ApplierSame(h: Host, fuel: nat)
    requires IsParametric(h)
    ensures SameApplier(ApplierAt(h, fuel))
    decreases fuel, 3, 0
  {
    forall f, g, r, q, vs, ws | Same(f, g) && Same(r, q) && SameAll(vs, ws)
      ensures SameOutcome(ApplierAt(h, fuel)(f, r, vs), ApplierAt(h, fuel)(g, q, ws))
    {
      ApplySame(h, fuel, f, g, r, q, vs, ws);
    }
  }

  lemma {:induction false} ApplySame(
      h: Host, fuel: nat, f: Value, g: Value, r: Value, q: Value, vs: seq<Value>, ws: seq<Value>)
    requires IsParametric(h) && Same(f, g) && Same(r, q) && SameAll(vs, ws)
    ensures SameOutcome(Apply(h, fuel, f, r, vs), Apply(h, fuel, g, q, ws))
    decreases fuel, 2, 0
  {
    if fuel > 0 {
      if f.Closure? && f.fn.Fun? {
        ClosureCallSame(h, fuel, f, g, r, q, vs, ws);
      } else if f.HostFn? {
        HostCallSame(h, fuel, f.name, r, q, vs, ws);
      }
    }
  }

  lemma {:induction false} HostCallSame(
      h: Host, fuel: nat, name: string, r: Value, q: Value, vs: seq<Value>, ws: seq<Value>)
    requires fuel > 0 && IsParametric(h) && Same(r, q) && SameAll(vs, ws)
    ensures SameOutcome(Apply(h, fuel, HostFn(name), r, vs), Apply(h, fuel, HostFn(name), q, ws))
    decreases fuel, 1, 0
  {
    CallbackSame(h, fuel - 1);
    HostSame(h, CallbackAt(h, fuel - 1), name, r, q, vs, ws);
    HostCallIs(h, fuel, name, r, vs);
    HostCallIs(h, fuel, name, q, ws);
  }

  lemma HostCallIs(h: Host, fuel: nat, name: string, r: Value, vs: seq<Value>)
    requires fuel > 0
    ensures Apply(h, fuel, HostFn(name), r, vs) == h(CallbackAt(h, fuel - 1), name, r, vs)
  {
  }

  lemma {:induction false} ClosureCallSame(
      h: Host, fuel: nat, f: Value, g: Value, r: Value, q: Value, vs: seq<Value>, ws: seq<Value>)
    requires fuel > 0 && f.Closure? && f.fn.Fun? && IsParametric(h) && Same(f, g) && Same(r, q) && SameAll(vs, ws)
    ensures SameOutcome(Apply(h, fuel, f, r, vs), Apply(h, fuel, g, q, ws))
    decreases fuel, 1, 0
  {
    CodeSame(h, fuel - 1, f.fn, f.env, if f.fn.arrow then f.self else r, g.env, if f.fn.arrow then g.self else q, vs,
             ws);
  }

  lemma {:induction false} CodeSame(
      h: Host, fuel: nat, fn: Node, e: Env, s: Value, d: Env, t: Value, vs: seq<Value>, ws: seq<Value>)
    requires fn.Fun? && IsParametric(h) && SameAll(vs, ws) && Agree(e, d, Refs(fn))
    requires SeesThis(fn.(arrow := true)) ==> Same(s, t)
    ensures SameOutcome(Code(h, fuel, fn, e, s, vs), Code(h, fuel, fn, d, t, ws))
    decreases fuel, 4, 0
  {
    var names := ParamNames(fn.params);
    var at := names + Refs(fn);
    var e0, d0 := Declared(names, e), Declared(names, d);
    DeclaredSame(names, e, d, Refs(fn));
    CodeLooksUp(fn);
    BindAllSame(h, fuel, fn.params, vs, ws, e0, s, d0, t, at);
    var a, b := BindAll(h, fuel, fn.params, vs, e0, s), BindAll(h, fuel, fn.params, ws, d0, t);
    BodySame(h, fuel, fn.body, a, s, b, t, at);
  }

  lemma {:induction false} BodySame(
      h: Host, fuel: nat, body: Node, a: Scope, s: Value, b: Scope, t: Value, at: set<string>)
    requires IsParametric(h) && SameScope(a, b, at) && Refs(body) <= at && (SeesThis(body) ==> Same(s, t))
    ensures SameOutcome(RunBody(h, fuel, body, a, s), RunBody(h, fuel, body, b, t))
    decreases fuel, 2, 0
  {
    if a.Scope? { EvalSame(h, fuel, body, a.env, s, b.env, t); }
  }

  /** What the parameters and the body of a function look up, it binds or looks up itself. */
  lemma CodeLooksUp(fn: Node)
    requires fn.Fun?
    ensures Refs(fn.body) <= ParamNames(fn.params) + Refs(fn)
    ensures forall i :: 0 <= i < |fn.params| ==> PatternRefs(fn.params[i]) <= ParamNames(fn.params) + Refs(fn)
  {
  }

  lemma BoundSame(x: string, v: Value, e: Env, w: Value, d: Env, at: set<string>)
    requires Agree(e, d, at) && Same(v, w)
    ensures Agree(Bound(x, v, e), Bound(x, w, d), at)
  {
    forall y | y in at ensures SameAt(Bound(x, v, e), Bound(x, w, d), y) {
      SameLookup(e, d, y);
      SameLookup(Bound(x, v, e), Bound(x, w, d), y);
    }
  }

  lemma {:induction false} BindAllSame(
      h: Host, fuel: nat, ps: seq<Pattern>, vs: seq<Value>, ws: seq<Value>, e: Env, s: Value, d: Env, t: Value,
      at: set<string>)
    requires IsParametric(h) && Agree(e, d, at) && SameAll(vs, ws)
    requires forall i :: 0 <= i < |ps| ==> PatternRefs(ps[i]) <= at && (PatternSeesThis(ps[i]) ==> Same(s, t))
    ensures SameScope(BindAll(h, fuel, ps, vs, e, s), BindAll(h, fuel, ps, ws, d, t), at)
    decreases fuel, 3, |ps|
  {
    if ps != [] {
      var p, v, w := Bare(ps[0]), Supplied(ps[0], vs), Supplied(ps[0], ws);
      BareSame(ps[0], vs, ws);
      BindSame(h, fuel, p, v, w, e, s, d, t, at);
      var a, b := Bind(h, fuel, p, v, e, s), Bind(h, fuel, p, w, d, t);
      if a.Scope? { BindAllSame(h, fuel, ps[1..], Left(vs), Left(ws), a.env, s, b.env, t, at); }
    }
  }

  lemma BareSame(p: Pattern, vs: seq<Value>, ws: seq<Value>)
    requires SameAll(vs, ws)
    ensures Same(Supplied(p, vs), Supplied(p, ws)) && SameAll(Left(vs), Left(ws))
    ensures PatternRefs(Bare(p)) == PatternRefs(p) && (PatternSeesThis(Bare(p)) <==> PatternSeesThis(p))
  {
  }

  lemma {:induction false} BindSame(
      h: Host, fuel: nat, p: Pattern, v: Value, w: Value, e: Env, s: Value, d: Env, t: Value, at: set<string>)
    requires IsParametric(h) && Agree(e, d, at) && Same(v, w) && PatternRefs(p) <= at
    requires PatternSeesThis(p) ==> Same(s, t)
    ensures SameScope(Bind(h, fuel, p, v, e, s), Bind(h, fuel, p, w, d, t), at)
    decreases fuel, 2, 0
  {
    if fuel > 0 {
      match p {
        case Hole =>
        case Name(x) => BoundSame(x, v, e, w, d, at);
        case ObjectPattern(props) =>
          assert PropsFit(props, at, s, t);
          ObjectPatternSame(h, fuel, props, v, w, e, s, d, t, at);
        case ArrayPattern(elements) =>
          if v.Array? { BindAllSame(h, fuel - 1, elements, v.items, w.items, e, s, d, t, at); }
        case AssignmentPattern(left, fallback) => FallbackSame(h, fuel, left, fallback, v, w, e, s, d, t, at);
        case RestElement(_) =>
      }
    }
  }

  lemma {:induction false} FallbackSame(
      h: Host, fuel: nat, left: Pattern, fallback: Node, v: Value, w: Value, e: Env, s: Value, d: Env, t: Value,
      at: set<string>)
    requires fuel > 0 && IsParametric(h) && Agree(e, d, at) && Same(v, w)
    requires PatternRefs(left) <= at && (PatternSeesThis(left) ==> Same(s, t))
    requires Refs(fallback) <= at && (SeesThis(fallback) ==> Same(s, t))
    ensures SameScope(Bind(h, fuel, AssignmentPattern(left, fallback), v, e, s),
                      Bind(h, fuel, AssignmentPattern(left, fallback), w, d, t), at)
    decreases fuel, 1, 2
  {
    SameTruth(v, w);
    if v != Undefined {
      GivenIs(h, fuel, left, fallback, v, e, s);
      GivenIs(h, fuel, left, fallback, w, d, t);
      BindSame(h, fuel - 1, left, v, w, e, s, d, t, at);
    } else {
      MissingSame(h, fuel, left, fallback, e, s, d, t, at);
    }
  }

  lemma GivenIs(h: Host, fuel: nat, left: Pattern, fallback: Node, v: Value, e: Env, s: Value)
    requires fuel > 0 && v != Undefined
    ensures Bind(h, fuel, AssignmentPattern(left, fallback), v, e, s) == Bind(h, fuel - 1, left, v, e, s)
  {
  }

  lemma {:induction false} MissingSame(
      h: Host, fuel: nat, left: Pattern, fallback: Node, e: Env, s: Value, d: Env, t: Value, at: set<string>)
    requires fuel > 0 && IsParametric(h) && Agree(e, d, at)
    requires PatternRefs(left) <= at && (PatternSeesThis(left) ==> Same(s, t))
    requires Refs(fallback) <= at && (SeesThis(fallback) ==> Same(s, t))
    ensures SameScope(Bind(h, fuel, AssignmentPattern(left, fallback), Undefined, e, s),
                      Bind(h, fuel, AssignmentPattern(left, fallback), Undefined, d, t), at)
    decreases fuel, 1, 1
  {
    EvalSame(h, fuel - 1, fallback, e, s, d, t);
    var o, q := Eval(h, fuel - 1, fallback, e, s), Eval(h, fuel - 1, fallback, d, t);
    BindOutcomeSame(h, fuel - 1, left, o, q, e, s, d, t, at);
  }

  lemma {:induction false} ObjectPatternSame(
      h: Host, fuel: nat, props: seq<PatternProp>, v: Value, w: Value, e: Env, s: Value, d: Env, t: Value,
      at: set<string>)
    requires fuel > 0 && IsParametric(h) && Agree(e, d, at) && Same(v, w) && PropsFit(props, at, s, t)
    ensures SameScope(Bind(h, fuel, ObjectPattern(props), v, e, s), Bind(h, fuel, ObjectPattern(props), w, d, t), at)
    decreases fuel, 1, 2
  {
    SameTruth(v, w);
    BindPropsSame(h, fuel - 1, props, [], v, w, e, s, d, t, at);
  }

  lemma {:induction false} UntakenSame(a: seq<Field>, b: seq<Field>, used: seq<string>)
    requires Same(Object(a), Object(b))
    ensures Same(Object(Untaken(a, used)), Object(Untaken(b, used)))
  {
    if a != [] {
      assert a[0].key == b[0].key && Same(a[0].value, b[0].value);
      assert Same(Object(a[1..]), Object(b[1..]));
      UntakenSame(a[1..], b[1..], used);
    }
  }

  ghost predicate PropsFit(props: seq<PatternProp>, at: set<string>, s: Value, t: Value) {
    forall i :: 0 <= i < |props| ==> PropRefs(props[i]) <= at && (PropSeesThis(props[i]) ==> Same(s, t))
  }

  lemma {:induction false} BindPropsSame(
      h: Host, fuel: nat, props: seq<PatternProp>, used: seq<string>, v: Value, w: Value, e: Env, s: Value, d: Env,
      t: Value, at: set<string>)
    requires IsParametric(h) && Agree(e, d, at) && Same(v, w)
    requires PropsFit(props, at, s, t)
    ensures SameScope(BindProps(h, fuel, props, used, v, e, s), BindProps(h, fuel, props, used, w, d, t), at)
    decreases fuel, 4, |props|
  {
    if props != [] {
      var prop, key := props[0], PropKey(h, fuel, props[0], e, s);
      FirstPropSame(h, fuel, prop, used, v, w, e, s, d, t, at);
      var a, b := BindProp(h, fuel, prop, key, used, v, e, s), BindProp(h, fuel, prop, key, used, w, d, t);
      if a.Scope? { BindPropsSame(h, fuel, props[1..], UsedWith(used, key), v, w, a.env, s, b.env, t, at); }
    }
  }

  lemma {:induction false} FirstPropSame(
      h: Host, fuel: nat, prop: PatternProp, used: seq<string>, v: Value, w: Value, e: Env, s: Value, d: Env, t: Value,
      at: set<string>)
    requires IsParametric(h) && Agree(e, d, at) && Same(v, w) && PropRefs(prop) <= at
    requires PropSeesThis(prop) ==> Same(s, t)
    ensures PropKey(h, fuel, prop, e, s) == PropKey(h, fuel, prop, d, t)
    ensures SameScope(BindProp(h, fuel, prop, PropKey(h, fuel, prop, e, s), used, v, e, s),
                      BindProp(h, fuel, prop, PropKey(h, fuel, prop, d, t), used, w, d, t), at)
    decreases fuel, 3, 1
  {
    PropKeySame(h, fuel, prop, e, s, d, t);
    BindPropSame(h, fuel, prop, PropKey(h, fuel, prop, e, s), used, v, w, e, s, d, t, at);
  }

  lemma {:induction false} PropKeySame(h: Host, fuel: nat, prop: PatternProp, e: Env, s: Value, d: Env, t: Value)
    requires IsParametric(h) && Agree(e, d, PropRefs(prop)) && (PropSeesThis(prop) ==> Same(s, t))
    ensures PropKey(h, fuel, prop, e, s) == PropKey(h, fuel, prop, d, t)
    decreases fuel, 3, 0
  {
    if prop.PatternProp? {
      PropKeyIs(h, fuel, prop, e, s);
      PropKeyIs(h, fuel, prop, d, t);
      EvalKeySame(h, fuel, prop.key, prop.computed, e, s, d, t);
    }
  }

  lemma PropKeyIs(h: Host, fuel: nat, prop: PatternProp, e: Env, s: Value)
    requires prop.PatternProp?
    ensures PropKey(h, fuel, prop, e, s) == EvalKey(h, fuel, prop.key, prop.computed, e, s)
  {
  }

  lemma {:induction false} BindPropSame(
      h: Host, fuel: nat, prop: PatternProp, key: Outcome, used: seq<string>, v: Value, w: Value, e: Env, s: Value,
      d: Env, t: Value, at: set<string>)
    requires IsParametric(h) && Agree(e, d, at) && Same(v, w) && PropRefs(prop) <= at
    requires PropSeesThis(prop) ==> Same(s, t)
    ensures SameScope(BindProp(h, fuel, prop, key, used, v, e, s), BindProp(h, fuel, prop, key, used, w, d, t), at)
    decreases fuel, 3, 0
  {
    match prop {
      case PropRest(argument) =>
        WithoutSame(v, w, used);
        BindSame(h, fuel, argument, Without(v, used), Without(w, used), e, s, d, t, at);
      case PatternProp(_, _, value) =>
        GetKeyedSame(h, v, w, key);
        BindOutcomeSame(h, fuel, value, GetKeyed(h, v, key), GetKeyed(h, w, key), e, s, d, t, at);
    }
  }

  lemma WithoutSame(v: Value, w: Value, used: seq<string>)
    requires Same(v, w)
    ensures Same(Without(v, used), Without(w, used))
  {
    if v.Object? { UntakenSame(v.fields, w.fields, used); }
  }

  lemma {:induction false} BindOutcomeSame(
      h: Host, fuel: nat, p: Pattern, o: Outcome, q: Outcome, e: Env, s: Value, d: Env, t: Value, at: set<string>)
    requires IsParametric(h) && Agree(e, d, at) && SameOutcome(o, q) && PatternRefs(p) <= at
    requires PatternSeesThis(p) ==> Same(s, t)
    ensures SameScope(BindOutcome(h, fuel, p, o, e, s), BindOutcome(h, fuel, p, q, d, t), at)
    decreases fuel, 2, 1
  {
    if o.Val? { BindSame(h, fuel, p, o.value, q.value, e, s, d, t, at); }
  }

  // ----- what the walk sees -----

  /** The free names that the walk does not see: those in the fallbacks and computed keys of
      parameter patterns, and tags. */
  ghost function Hidden(n: Node): set<string> {
    match n
    case Ident(_) => {}
    case Literal(_) => {}
    case This => {}
    case Member(o, p, computed) => Hidden(o) + (if computed then Hidden(p) else {})
    case OptionalMember(o, p, computed) => Hidden(o) + (if computed then Hidden(p) else {})
    case Fun(params, body, _) =>
      ((set i, x | 0 <= i < |params| && x in PatternRefs(params[i]) :: x) + Hidden(body)) - ParamNames(params)
    case ObjectLit(ps) => set i, x | 0 <= i < |ps| && x in HiddenIn(ps[i]) :: x
    case ArrayLit(ns) => set i, x | 0 <= i < |ns| && x in Hidden(ns[i]) :: x
    case Call(f, args) => Hidden(f) + set i, x | 0 <= i < |args| && x in Hidden(args[i]) :: x
    case Conditional(a, b, c) => Hidden(a) + Hidden(b) + Hidden(c)
    case Logical(_, a, b) => Hidden(a) + Hidden(b)
    case Jsx(tag, intrinsic, ns) =>
      (if intrinsic then {} else {tag}) + set i, x | 0 <= i < |ns| && x in Hidden(ns[i]) :: x
    case Let(y, a, b) => (Hidden(a) + Hidden(b)) - {y}
    case Operation(_, ns) => set i, x | 0 <= i < |ns| && x in Hidden(ns[i]) :: x
  }

  ghost function HiddenIn(p: Property): set<string> {
    (if p.computed then Hidden(p.key) else {}) + Hidden(p.value)
  }

  /** Bound names are left out of the collection, and nothing else is. */
  lemma {:induction false} CollectedLessBound(n: Node, bound: set<string>, x: string)
    ensures x in FreeRefs(n, bound) <==> x in FreeRefs(n, {}) && x !in bound
    decreases n
  {
    match n {
      case Ident(_) =>
      case Literal(_) =>
      case This =>
      case Member(o, p, _) => CollectedLessBound(o, bound, x); CollectedLessBound(p, bound, x);
      case OptionalMember(o, p, _) => CollectedLessBound(o, bound, x); CollectedLessBound(p, bound, x);
      case Fun(params, body, _) =>
        CollectedLessBound(body, bound + ParamNames(params), x);
        CollectedLessBound(body, {} + ParamNames(params), x);
      case ObjectLit(ps) =>
        forall i | 0 <= i < |ps|
          ensures x in PropertyRefs(ps[i], bound) <==> x in PropertyRefs(ps[i], {}) && x !in bound
        {
          CollectedLessBound(ps[i].key, bound, x);
          CollectedLessBound(ps[i].value, bound, x);
        }
      case ArrayLit(ns) => AllLessBound(n, ns, bound, x);
      case Call(f, args) => CollectedLessBound(f, bound, x); AllLessBound(n, args, bound, x);
      case Conditional(a, b, c) =>
        CollectedLessBound(a, bound, x);
        CollectedLessBound(b, bound, x);
        CollectedLessBound(c, bound, x);
      case Logical(_, a, b) => CollectedLessBound(a, bound, x); CollectedLessBound(b, bound, x);
      case Jsx(_, _, ns) => AllLessBound(n, ns, bound, x);
      case Let(_, a, b) => CollectedLessBound(a, bound, x); CollectedLessBound(b, bound, x);
      case Operation(_, ns) => AllLessBound(n, ns, bound, x);
    }
  }

  lemma {:induction false} AllLessBound(n: Node, ns: seq<Node>, bound: set<string>, x: string)
    requires HasElements(n, ns)
    ensures forall i :: 0 <= i < |ns| ==> (x in FreeRefs(ns[i], bound) <==> x in FreeRefs(ns[i], {}) && x !in bound)
    decreases n, 0
  {
    forall i | 0 <= i < |ns|
      ensures x in FreeRefs(ns[i], bound) <==> x in FreeRefs(ns[i], {}) && x !in bound
    {
      CollectedLessBound(ns[i], bound, x);
    }
  }

  /** Every name that evaluation can look up is collected, or hidden. */
  lemma {:induction false} NothingElse(n: Node, x: string)
    requires x in Refs(n)
    ensures x in FreeRefs(n, {}) || x in Hidden(n)
    decreases n
  {
    match n {
      case Ident(_) =>
      case Literal(_) =>
      case This =>
      case Member(o, p, computed) => if x in Refs(o) { NothingElse(o, x); } else { NothingElse(p, x); }
      case OptionalMember(o, p, computed) => if x in Refs(o) { NothingElse(o, x); } else { NothingElse(p, x); }
      case Fun(params, body, _) =>
        if x in Refs(body) {
          NothingElse(body, x);
          CollectedLessBound(body, {} + ParamNames(params), x);
        }
      case ObjectLit(ps) =>
        var i :| 0 <= i < |ps| && x in FieldRefs(ps[i]);
        if x in Refs(ps[i].value) { NothingElse(ps[i].value, x); } else { NothingElse(ps[i].key, x); }
        assert x in PropertyRefs(ps[i], {}) || x in HiddenIn(ps[i]);
      case ArrayLit(ns) =>
        var i :| 0 <= i < |ns| && x in Refs(ns[i]);
        NothingElse(ns[i], x);
      case Call(f, args) =>
        if x in Refs(f) {
          NothingElse(f, x);
        } else {
          var i :| 0 <= i < |args| && x in Refs(args[i]);
          NothingElse(args[i], x);
        }
      case Conditional(a, b, c) =>
        if x in Refs(a) { NothingElse(a, x); } else if x in Refs(b) { NothingElse(b, x); } else { NothingElse(c, x); }
      case Logical(_, a, b) => if x in Refs(a) { NothingElse(a, x); } else { NothingElse(b, x); }
      case Let(_, a, b) => if x in Refs(a) { NothingElse(a, x); } else { NothingElse(b, x); }
      case Jsx(tag, intrinsic, ns) =>
        if intrinsic || x != tag {
          var i :| 0 <= i < |ns| && x in Refs(ns[i]);
          NothingElse(ns[i], x);
        }
      case Operation(_, ns) =>
        var i :| 0 <= i < |ns| && x in Refs(ns[i]);
        NothingElse(ns[i], x);
    }
  }

  // ----- the check is sound -----

  /** What the loader makes of a predicate's outcome. */
  function Decision(o: Outcome): Option<bool> {
    if o.Val? then Some(Truthy(o.value)) else None
  }

  /** A predicate that uses its own `this`. */
  ghost predicate UsesThis(pred: Node) { pred.Fun? && SeesThis(pred.(arrow := true)) }

  lemma AcceptedLooksUpAllowed(pred: Node)
    requires Accepted(pred) && Hidden(pred) <= ALLOWED
    ensures Refs(pred) <= ALLOWED
  {
    forall x | x in Refs(pred)
      ensures x in ALLOWED
    {
      NothingElse(pred, x);
      CollectedLessBound(pred.body, {} + ParamNames(pred.params), x);
      CollectedLessBound(pred.body, ParamNames(pred.params), x);
    }
  }

  /** An accepted predicate that hides no name and uses no `this` gives the same value, and so
      the same decision, wherever it is evaluated: in its own module or in the manifest, for any
      receiver, in environments that agree on the allowed names. */
  lemma AcceptedIsDetermined(
      h: Host, fuel: nat, pred: Node, home: Env, self: Value, lifted: Env, self': Value, r: Value, r': Value,
      args: seq<Value>)
    requires IsParametric(h) && Accepted(pred) && Hidden(pred) <= ALLOWED && !UsesThis(pred)
    requires Agree(home, lifted, ALLOWED)
    ensures SameOutcome(Apply(h, fuel, Closure(pred, home, self), r, args),
                        Apply(h, fuel, Closure(pred, lifted, self'), r', args))
    ensures Decision(Apply(h, fuel, Closure(pred, home, self), r, args))
         == Decision(Apply(h, fuel, Closure(pred, lifted, self'), r', args))
  {
    AcceptedLooksUpAllowed(pred);
    AppliedSame(h, fuel, pred, home, self, lifted, self', r, r', args);
    var o := Apply(h, fuel, Closure(pred, home, self), r, args);
    var q := Apply(h, fuel, Closure(pred, lifted, self'), r', args);
    DecidesSame(o, q);
  }

  lemma DecidesSame(o: Outcome, q: Outcome)
    requires SameOutcome(o, q)
    ensures Decision(o) == Decision(q)
  {
    if o.Val? { SameTruth(o.value, q.value); }
  }

  /** Two calls of one function whose environments agree on what it looks up. */
  lemma AppliedSame(
      h: Host, fuel: nat, pred: Node, home: Env, self: Value, lifted: Env, self': Value, r: Value, r': Value,
      args: seq<Value>)
    requires IsParametric(h) && pred.Fun? && !UsesThis(pred) && Agree(home, lifted, Refs(pred))
    ensures SameOutcome(Apply(h, fuel, Closure(pred, home, self), r, args),
                        Apply(h, fuel, Closure(pred, lifted, self'), r', args))
  {
    forall i | 0 <= i < |args| ensures Same(args[i], args[i]) { SameRefl(args[i]); }
    if fuel > 0 {
      var s, t := if pred.arrow then self else r, if pred.arrow then self' else r';
      CodeSame(h, fuel - 1, pred, home, s, lifted, t, args, args);
    }
  }

  // ----- what it lets through -----

  lemma LooksUp(h: Host, fuel: nat, x: string, e: Env, self: Value)
    requires fuel > 0 && e.Declared? && x !in e.names && e.rest.Bound? && e.rest.name == x && e.rest.value != Uninit
    ensures Eval(h, fuel, Ident(x), e, self) == Val(e.rest.value)
  {
    assert Lookup(e, x) == Lookup(e.rest, x) == Some(e.rest.value);
  }

  lemma OneParam(p: Pattern)
    ensures ParamNames([p]) == Names(p)
    ensures (set i, x | 0 <= i < |[p]| && x in PatternRefs([p][i]) :: x) == PatternRefs(p)
  {
    forall x ensures x in ParamNames([p]) <==> x in Names(p) { assert [p][0] == p; }
    forall x
      ensures (exists i :: 0 <= i < |[p]| && x in PatternRefs([p][i])) <==> x in PatternRefs(p)
    {
      assert [p][0] == p;
    }
  }

  lemma OneProp(prop: PatternProp)
    ensures Names(ObjectPattern([prop])) == PropNames(prop) && PatternRefs(ObjectPattern([prop])) == PropRefs(prop)
  {
    forall x ensures x in Names(ObjectPattern([prop])) <==> x in PropNames(prop) { assert [prop][0] == prop; }
    forall x ensures x in PatternRefs(ObjectPattern([prop])) <==> x in PropRefs(prop) { assert [prop][0] == prop; }
  }

  /** A fallback: `(ctx = x) => ctx` is accepted for every `x`, and its value is that of `x`. */
  lemma FallbackEscapes(h: Host, x: string, v: Value, self: Value) returns (pred: Node)
    requires x != "c" && v != Uninit
    ensures Accepted(pred) && Hidden(pred) == {x}
    ensures Apply(h, 5, Closure(pred, Bound(x, v, Empty), self), Undefined, []) == Val(v)
  {
    var p := AssignmentPattern(Name("c"), Ident(x));
    pred := Fun([p], Ident("c"), true);
    OneParam(p);
    var e := Declared(ParamNames([p]), Bound(x, v, Empty));
    LooksUp(h, 3, x, e, self);
    assert Bind(h, 4, p, Undefined, e, self) == Scope(Bound("c", v, e));
    assert BindAll(h, 4, [p][1..], [], Bound("c", v, e), self) == Scope(Bound("c", v, e));
  }

  /** A computed key: `({[x]: c}) => c` is accepted for every `x`. */
  lemma KeyEscapes(h: Host, x: string, k: string, fields: seq<Field>, self: Value) returns (pred: Node)
    requires x != "c" && Field0(fields, k) != Uninit
    ensures Accepted(pred) && Hidden(pred) == {x}
    ensures Apply(h, 7, Closure(pred, Bound(x, Primitive(Str(k)), Empty), self), Undefined, [Object(fields)])
         == Val(Field0(fields, k))
  {
    var p := ObjectPattern([PatternProp(Ident(x), true, Name("c"))]);
    pred := Fun([p], Ident("c"), true);
    OneProp(p.props[0]);
    OneParam(p);
    KeyRuns(h, x, k, fields, p, self);
  }

  lemma KeyRuns(h: Host, x: string, k: string, fields: seq<Field>, p: Pattern, self: Value)
    requires x != "c" && Field0(fields, k) != Uninit && ParamNames([p]) == {"c"}
    requires p == ObjectPattern([PatternProp(Ident(x), true, Name("c"))])
    ensures Code(h, 6, Fun([p], Ident("c"), true), Bound(x, Primitive(Str(k)), Empty), self, [Object(fields)])
         == Val(Field0(fields, k))
  {
    var e := Declared({"c"}, Bound(x, Primitive(Str(k)), Empty));
    KeyBinds(h, x, k, fields, e, self);
    var e' := Bound("c", Field0(fields, k), e);
    assert BindAll(h, 6, [p][1..], [], e', self) == Scope(e');
  }

  lemma KeyBinds(h: Host, x: string, k: string, fields: seq<Field>, e: Env, self: Value)
    requires x != "c" && Field0(fields, k) != Uninit && e == Declared({"c"}, Bound(x, Primitive(Str(k)), Empty))
    ensures Bind(h, 6, ObjectPattern([PatternProp(Ident(x), true, Name("c"))]), Object(fields), e, self)
         == Scope(Bound("c", Field0(fields, k), e))
  {
    var prop, v := PatternProp(Ident(x), true, Name("c")), Object(fields);
    var e' := Bound("c", Field0(fields, k), e);
    LooksUp(h, 5, x, e, self);
    assert BindProp(h, 5, prop, Val(Primitive(Str(k))), [], v, e, self) == Scope(e');
    assert BindProps(h, 5, [prop][1..], [k], v, e', self) == Scope(e');
  }

  /** A tag: `() => <x/>.type` is accepted for every component `x`, and its value is that of `x`. */
  lemma TagEscapes(h: Host, x: string, v: Value, self: Value) returns (pred: Node)
    requires v != Uninit
    ensures Accepted(pred) && Hidden(pred) == {x}
    ensures Apply(h, 5, Closure(pred, Bound(x, v, Empty), self), Undefined, []) == Val(v)
  {
    var element := Jsx(x, false, []);
    pred := Fun([], Member(element, Ident("type"), false), true);
    assert ParamNames([]) == {} && Hidden(element) == {x} && FreeRefs(element, {}) == {};
    TagReads(h, x, v, Declared({}, Bound(x, v, Empty)), self);
  }

  lemma TagReads(h: Host, x: string, v: Value, e: Env, self: Value)
    requires v != Uninit && e == Declared({}, Bound(x, v, Empty))
    ensures Eval(h, 4, Member(Jsx(x, false, []), Ident("type"), false), e, self) == Val(v)
  {
    LooksUp(h, 2, x, e, self);
    var o := Val(Object([Field("type", v), Field("parts", Array([]))]));
    assert Eval(h, 3, Jsx(x, false, []), e, self) == o;
    assert GetKeyed(h, o.value, Val(Primitive(Str("type")))) == Val(v);
  }

  /** `this`: `() => this` is accepted, and its value is the `this` around it. */
  lemma ThisEscapes(h: Host, e: Env, self: Value) returns (pred: Node)
    ensures Accepted(pred) && Hidden(pred) == {}
    ensures Apply(h, 3, Closure(pred, e, self), Undefined, []) == Val(self)
  {
    pred := Fun([], This, true);
  }
}
