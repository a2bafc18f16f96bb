/** ui/plugins/vite-plugin-module-manifest.js:33-101: the purity check that lets a predicate be
    lifted out of its module, and what it proves about the predicate's value. */
module Purity {
  import opened Wrappers
  import opened Predicates

  const ALLOWED_GLOBALS: set<string> :=
    {"Boolean", "Array", "Object", "String", "Number", "Math", "JSON", "undefined", "NaN", "Infinity"}

  const ALLOWED: set<string> := ALLOWED_GLOBALS + {"Permissions"}

  // ----- what the walk collects -----

  /** The names that the walk collects: the identifiers it takes for references, less those
      bound. It looks at no pattern beyond the names it binds, and a tag is no identifier to it;
      a declared name is a reference like any other. */
  ghost function FreeRefs(n: Node, bound: set<string>): set<string> {
    match n
    case Ident(x) => {x} - bound
    case Literal(_) => {}
    case This => {}
    case Member(o, p, computed) => FreeRefs(o, bound) + (if computed then FreeRefs(p, bound) else {})
    case OptionalMember(o, p, _) => FreeRefs(o, bound) + FreeRefs(p, bound)
    case Fun(params, body, _) => FreeRefs(body, bound + ParamNames(params))
    case ObjectLit(ps) => set i, x | 0 <= i < |ps| && x in PropertyRefs(ps[i], bound) :: x
    case ArrayLit(ns) => set i, x | 0 <= i < |ns| && x in FreeRefs(ns[i], bound) :: x
    case Call(f, args) => FreeRefs(f, bound) + set i, x | 0 <= i < |args| && x in FreeRefs(args[i], bound) :: x
    case Conditional(a, b, c) => FreeRefs(a, bound) + FreeRefs(b, bound) + FreeRefs(c, bound)
    case Logical(_, a, b) => FreeRefs(a, bound) + FreeRefs(b, bound)
    case Jsx(_, _, ns) => set i, x | 0 <= i < |ns| && x in FreeRefs(ns[i], bound) :: x
    case Let(y, a, b) => ({y} - bound) + FreeRefs(a, bound) + FreeRefs(b, bound)
    case Operation(_, ns) => set i, x | 0 <= i < |ns| && x in FreeRefs(ns[i], bound) :: x
  }

  ghost function PropertyRefs(p: Property, bound: set<string>): set<string> {
    (if p.computed then FreeRefs(p.key, bound) else {}) + FreeRefs(p.value, bound)
  }

  /** What the check accepts. */
  ghost predicate Accepted(pred: Node) {
    pred.Fun? && FreeRefs(pred.body, ParamNames(pred.params)) <= ALLOWED
  }

  // ----- the walk as it runs -----

  class NameSet {
    var names: set<string>

    constructor (names: set<string>)
      ensures this.names == names
    {
      this.names := names;
    }

    method Add(x: string)
      modifies this
      ensures names == old(names) + {x}
    {
      names := names + {x};
    }
  }

  method CollectParamNames(p: Pattern, out: NameSet)
    modifies out
    ensures out.names == old(out.names) + Names(p)
    decreases p
  {
    match p {
      case Hole =>
      case Name(x) => out.Add(x);
      case ObjectPattern(props) =>
        for i := 0 to |props|
          invariant forall x :: x in out.names <==>
                      x in old(out.names) || exists j :: 0 <= j < i && x in PropNames(props[j])
        {
          match props[i] {
            case PatternProp(_, _, value) => CollectParamNames(value, out);
            case PropRest(argument) => CollectParamNames(argument, out);
          }
        }
      case ArrayPattern(elements) =>
        for i := 0 to |elements|
          invariant forall x :: x in out.names <==>
                      x in old(out.names) || exists j :: 0 <= j < i && x in Names(elements[j])
        {
          CollectParamNames(elements[i], out);
        }
      case AssignmentPattern(left, _) => CollectParamNames(left, out);
      case RestElement(argument) => CollectParamNames(argument, out);
    }
  }

  method CollectAllParamNames(params: seq<Pattern>, out: NameSet)
    modifies out
    ensures out.names == old(out.names) + ParamNames(params)
  {
    for i := 0 to |params|
      invariant forall x :: x in out.names <==>
                      x in old(out.names) || exists j :: 0 <= j < i && x in Names(params[j])
    {
      CollectParamNames(params[i], out);
    }
  }

  method CollectFreeRefs(n: Node, bound: set<string>, out: NameSet)
    modifies out
    ensures out.names == old(out.names) + FreeRefs(n, bound)
    decreases n, 0
  {
    match n {
      case Ident(x) => if x !in bound { out.Add(x); }
      case Literal(_) =>
      case This =>
      case Member(o, p, computed) =>
        CollectFreeRefs(o, bound, out);
        if computed { CollectFreeRefs(p, bound, out); }
      case OptionalMember(o, p, _) =>
        CollectFreeRefs(o, bound, out);
        CollectFreeRefs(p, bound, out);
      case Fun(params, body, _) =>
        var inner := new NameSet(bound);
        CollectAllParamNames(params, inner);
        CollectFreeRefs(body, inner.names, out);
      case ObjectLit(ps) =>
        for i := 0 to |ps|
          invariant forall x :: x in out.names <==>
                      x in old(out.names) || exists j :: 0 <= j < i && x in PropertyRefs(ps[j], bound)
        {
          if ps[i].computed { CollectFreeRefs(ps[i].key, bound, out); }
          CollectFreeRefs(ps[i].value, bound, out);
        }
      case ArrayLit(ns) =>
        for i := 0 to |ns|
          invariant forall x :: x in out.names <==>
                      x in old(out.names) || exists j :: 0 <= j < i && x in FreeRefs(ns[j], bound)
        {
          CollectFreeRefs(ns[i], bound, out);
        }
      case Call(f, args) =>
        CollectFreeRefs(f, bound, out);
        for i := 0 to |args|
          invariant forall x :: x in out.names <==>
                      || x in old(out.names) || x in FreeRefs(f, bound)
                      || exists j :: 0 <= j < i && x in FreeRefs(args[j], bound)
        {
          CollectFreeRefs(args[i], bound, out);
        }
      case Conditional(a, b, c) =>
        CollectFreeRefs(a, bound, out);
        CollectFreeRefs(b, bound, out);
        CollectFreeRefs(c, bound, out);
      case Logical(_, a, b) =>
        CollectFreeRefs(a, bound, out);
        CollectFreeRefs(b, bound, out);
      case Jsx(_, _, ns) =>
        for i := 0 to |ns|
          invariant forall x :: x in out.names <==>
                      x in old(out.names) || exists j :: 0 <= j < i && x in FreeRefs(ns[j], bound)
        {
          CollectFreeRefs(ns[i], bound, out);
        }
      case Let(y, a, b) =>
        if y !in bound { out.Add(y); }
        CollectFreeRefs(a, bound, out);
        CollectFreeRefs(b, bound, out);
      case Operation(_, ns) =>
        for i := 0 to |ns|
          invariant forall x :: x in out.names <==>
                      x in old(out.names) || exists j :: 0 <= j < i && x in FreeRefs(ns[j], bound)
        {
          CollectFreeRefs(ns[i], bound, out);
        }
    }
  }

  /** The check: the illegal names, in whatever order, or whether `Permissions` is used. */
  method CheckPurity(pred: Node) returns (r: Result<bool, seq<string>>)
    requires pred.Fun?
    ensures r.Ok? <==> Accepted(pred)
    ensures r.Ok? ==> (r.value <==> "Permissions" in FreeRefs(pred.body, ParamNames(pred.params)))
    ensures r.Err? ==> r.error != []
    ensures r.Err? ==> forall x :: x in r.error <==> x in FreeRefs(pred.body, ParamNames(pred.params)) - ALLOWED
  {
    var bound := new NameSet({});
    CollectAllParamNames(pred.params, bound);
    assert bound.names == ParamNames(pred.params);
    var free := new NameSet({});
    CollectFreeRefs(pred.body, bound.names, free);
    assert free.names == FreeRefs(pred.body, ParamNames(pred.params));
    var usesPermissions, illegal := false, [];
    var todo := free.names;
    while todo != {}
      invariant todo <= free.names
      invariant usesPermissions <==> "Permissions" in free.names - todo
      invariant forall x :: x in illegal <==> x in free.names - todo - ALLOWED
    {
      var name :| name in todo;
      todo := todo - {name};
      if name == "Permissions" { usesPermissions := true; }
      else if name !in ALLOWED_GLOBALS { illegal := illegal + [name]; }
    }
    assert free.names - todo == free.names;
    if illegal != [] {
      assert illegal[0] in illegal;
      return Err(illegal);
    }
    assert forall x :: x in free.names ==> x !in illegal ==> x in ALLOWED;
    r := Ok(usesPermissions);
  }
}
