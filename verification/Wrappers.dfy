/** Option and Result, and sequence helpers used across the model. */
module Wrappers {

  datatype Option<+T> = None | Some(value: T)

  datatype Result<+T, +E> = Ok(value: T) | Err(error: E)

  /** `saturating_sub` on unsigned integers. */
  function SaturatingSub(a: nat, b: nat): (r: nat)
    ensures a <= r + b && (b <= a ==> r + b == a)
  {
    if a < b then 0 else a - b
  }

  function Min(a: int, b: int): int { if a < b then a else b }
  function Max(a: int, b: int): int { if a < b then b else a }

  function Filter<T(!new)>(keep: T -> bool, s: seq<T>): (r: seq<T>)
    ensures |r| <= |s|
    ensures forall x :: x in r <==> x in s && keep(x)
  {
    if s == [] then []
    else (if keep(s[0]) then [s[0]] else []) + Filter(keep, s[1..])
  }

  lemma {:induction false} FilterConcat<T(!new)>(keep: T -> bool, a: seq<T>, b: seq<T>)
    ensures Filter(keep, a + b) == Filter(keep, a) + Filter(keep, b)
  {
    if a == [] {
      assert a + b == b;
    } else {
      assert (a + b)[1..] == a[1..] + b;
      FilterConcat(keep, a[1..], b);
    }
  }

  lemma {:induction false} FilterAll<T(!new)>(keep: T -> bool, s: seq<T>)
    requires forall x :: x in s ==> keep(x)
    ensures Filter(keep, s) == s
  {
    if s != [] {
      assert s[0] in s;
      FilterAll(keep, s[1..]);
    }
  }

  lemma {:induction false} FilterNone<T(!new)>(keep: T -> bool, s: seq<T>)
    requires forall x :: x in s ==> !keep(x)
    ensures Filter(keep, s) == []
  {
    if s != [] {
      assert s[0] in s;
      FilterNone(keep, s[1..]);
    }
  }

  function Map<T, U>(f: T -> U, s: seq<T>): (r: seq<U>)
    ensures |r| == |s| && forall i :: 0 <= i < |s| ==> r[i] == f(s[i])
  {
    seq(|s|, i requires 0 <= i < |s| => f(s[i]))
  }

  function Flatten<T>(s: seq<seq<T>>): seq<T> {
    if s == [] then [] else s[0] + Flatten(s[1..])
  }

  lemma {:induction false} FlattenSnoc<T>(s: seq<seq<T>>, x: seq<T>)
    ensures Flatten(s + [x]) == Flatten(s) + x
  {
    if s == [] {
      assert s + [x] == [x] && [x][1..] == [];
    } else {
      assert (s + [x])[1..] == s[1..] + [x];
      FlattenSnoc(s[1..], x);
    }
  }

  /** Apply `f` to the first `n` elements that satisfy `hit`. */
  function MapFirst<T(!new)>(hit: T -> bool, f: T -> T, s: seq<T>, n: nat): (r: seq<T>)
    ensures |r| == |s|
  {
    if s == [] then []
    else if n > 0 && hit(s[0]) then [f(s[0])] + MapFirst(hit, f, s[1..], n - 1)
    else [s[0]] + MapFirst(hit, f, s[1..], n)
  }

  lemma {:induction false} MapFirstAt<T(!new)>(hit: T -> bool, f: T -> T, s: seq<T>, n: nat, i: nat)
    requires i < |s|
    ensures MapFirst(hit, f, s, n)[i] == if hit(s[i]) && |Filter(hit, s[..i])| < n then f(s[i]) else s[i]
  {
    if i > 0 {
      assert s[..i] == [s[0]] + s[1..][..i - 1];
      MapFirstAt(hit, f, s[1..], if n > 0 && hit(s[0]) then n - 1 else n, i - 1);
    }
  }

  /** `b` is `a` with `f` applied to its first `n` elements. */
  ghost predicate IsMappedFirst<T>(f: T -> T, a: seq<T>, b: seq<T>, n: nat) {
    |a| == |b| && forall i :: 0 <= i < |a| ==> b[i] == if i < n then f(a[i]) else a[i]
  }

  lemma {:induction false} MapFirstHits<T(!new)>(hit: T -> bool, f: T -> T, s: seq<T>, n: nat)
    requires forall x :: hit(f(x)) == hit(x)
    ensures IsMappedFirst(f, Filter(hit, s), Filter(hit, MapFirst(hit, f, s, n)), n)
  {
    if s != [] {
      var n' := if n > 0 && hit(s[0]) then n - 1 else n;
      MapFirstHits(hit, f, s[1..], n');
      var r := MapFirst(hit, f, s, n);
      assert r[1..] == MapFirst(hit, f, s[1..], n');
    }
  }

  /** Where `f` has nothing more to do on the first hits, nothing changes. */
  lemma {:induction false} MapFirstFixed<T(!new)>(hit: T -> bool, f: T -> T, s: seq<T>, n: nat)
    requires forall i :: 0 <= i < |Filter(hit, s)| && i < n ==> f(Filter(hit, s)[i]) == Filter(hit, s)[i]
    ensures MapFirst(hit, f, s, n) == s
  {
    if s != [] {
      var n' := if n > 0 && hit(s[0]) then n - 1 else n;
      var a, b := Filter(hit, s), Filter(hit, s[1..]);
      if hit(s[0]) {
        assert a == [s[0]] + b && a[0] == s[0];
        assert n > 0 ==> f(a[0]) == a[0];
        forall i | 0 <= i < |b| && i < n'
          ensures f(b[i]) == b[i]
        {
          assert b[i] == a[i + 1];
        }
      } else {
        assert a == b;
      }
      MapFirstFixed(hit, f, s[1..], n');
    }
  }
}
