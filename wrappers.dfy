/** Small helpers shared by the model: an Option type and Python's
    slicing rules for `s[:k]` and `s[k:]` with an arbitrary integer `k`. */
module Wrappers {

  datatype Option<+T> = None | Some(value: T)

  /** The cut position Python uses for `s[:k]` / `s[k:]`: a negative `k`
      counts from the end, and the result is clamped to `0..|s|`. */
  function PyCut<T>(s: seq<T>, k: int): (c: nat)
    ensures c <= |s|
    ensures 0 <= k <= |s| ==> c == k
    ensures k > |s| ==> c == |s|
    ensures k < 0 ==> c == if |s| + k < 0 then 0 else |s| + k
  {
    if k < 0 then (if |s| + k < 0 then 0 else |s| + k)
    else if k > |s| then |s|
    else k
  }

  /** Python's `s[:k]`. */
  function PyTake<T>(s: seq<T>, k: int): seq<T>
  {
    s[..PyCut(s, k)]
  }

  /** Python's `s[k:]`. */
  function PyDrop<T>(s: seq<T>, k: int): seq<T>
  {
    s[PyCut(s, k)..]
  }

  /** `s[:k] + s[k:] == s` for every integer `k`, negative or past the end. */
  lemma TakeDropConcat<T>(s: seq<T>, k: int)
    ensures PyTake(s, k) + PyDrop(s, k) == s
  {
  }

  /** The concatenation of `f(x)` over `xs`, in order. */
  function FlatMap<A, B>(f: A -> seq<B>, xs: seq<A>): seq<B>
  {
    if xs == [] then [] else FlatMap(f, xs[..|xs| - 1]) + f(xs[|xs| - 1])
  }

  /** `FlatMap` over a concatenation is the concatenation of the parts. */
  lemma {:induction false} FlatMapAppend<A, B>(f: A -> seq<B>, xs: seq<A>, ys: seq<A>)
    ensures FlatMap(f, xs + ys) == FlatMap(f, xs) + FlatMap(f, ys)
    decreases |ys|
  {
    if ys == [] {
      assert xs + ys == xs;
    } else {
      var front := ys[..|ys| - 1];
      assert (xs + ys)[..|xs + ys| - 1] == xs + front;
      assert (xs + ys)[|xs + ys| - 1] == ys[|ys| - 1];
      FlatMapAppend(f, xs, front);
    }
  }

  function Max(a: real, b: real): real { if a >= b then a else b }
  function Min(a: real, b: real): real { if a <= b then a else b }
  function Abs(x: int): nat { if x < 0 then -x else x }
  function AbsR(x: real): real { if x < 0.0 then -x else x }

  lemma PickOne<T>(s: set<T>) returns (x: T)
    requires s != {}
    ensures x in s
  {
    x :| x in s;
  }

  lemma {:induction false} MaxExists(s: set<real>)
    requires s != {}
    ensures exists m :: m in s && forall y :: y in s ==> y <= m
  {
    var x := PickOne(s);
    if s != {x} {
      MaxExists(s - {x});
      var m :| m in s - {x} && forall y :: y in s - {x} ==> y <= m;
      var w := Max(x, m);
      forall y | y in s ensures y <= w {
        if y != x { assert y in s - {x}; }
      }
      assert w in s;
    }
  }

  lemma {:induction false} MinExists(s: set<real>)
    requires s != {}
    ensures exists m :: m in s && forall y :: y in s ==> m <= y
  {
    var x := PickOne(s);
    if s != {x} {
      MinExists(s - {x});
      var m :| m in s - {x} && forall y :: y in s - {x} ==> m <= y;
      var w := Min(x, m);
      forall y | y in s ensures w <= y {
        if y != x { assert y in s - {x}; }
      }
      assert w in s;
    }
  }

  /** Python's `max` over the keys of a non-empty dictionary. */
  function SetMax(s: set<real>): (m: real)
    requires s != {}
    ensures m in s && forall y :: y in s ==> y <= m
  {
    MaxExists(s);
    var m :| m in s && forall y :: y in s ==> y <= m; m
  }

  /** Python's `min` over the keys of a non-empty dictionary. */
  function SetMin(s: set<real>): (m: real)
    requires s != {}
    ensures m in s && forall y :: y in s ==> m <= y
  {
    MinExists(s);
    var m :| m in s && forall y :: y in s ==> m <= y; m
  }
}
