/** Concatenating the pieces that a function gives for each element of a
    sequence, in order: the shape of every `for x in xs: out.extend(...)` loop
    of the pipeline. */
module Seqs {
  import opened Wrappers

  function FlatMap<T, U>(f: T -> seq<U>, xs: seq<T>): seq<U>
    decreases |xs|
  {
    if xs == [] then [] else FlatMap(f, xs[..|xs| - 1]) + f(xs[|xs| - 1])
  }

  /** The pieces of two runs are the pieces of each, in turn. */
  lemma {:induction false} FlatMapAppend<T, U>(f: T -> seq<U>, a: seq<T>, b: seq<T>)
    ensures FlatMap(f, a + b) == FlatMap(f, a) + FlatMap(f, b)
    decreases |b|
  {
    if b == [] {
      assert a + b == a;
    } else {
      assert (a + b)[..|a + b| - 1] == a + b[..|b| - 1];
      FlatMapAppend(f, a, b[..|b| - 1]);
    }
  }

  /** One more element contributes its own pieces at the end. */
  lemma FlatMapSnoc<T, U>(f: T -> seq<U>, xs: seq<T>, x: T)
    ensures FlatMap(f, xs + [x]) == FlatMap(f, xs) + f(x)
  {
  }

  /** A value is in the result exactly when it is among the pieces of some element. */
  lemma {:induction false} FlatMapMember<T, U>(f: T -> seq<U>, xs: seq<T>, y: U)
    ensures y in FlatMap(f, xs) <==> exists i :: 0 <= i < |xs| && y in f(xs[i])
    decreases |xs|
  {
    if xs != [] {
      var init := xs[..|xs| - 1];
      FlatMapMember(f, init, y);
      if y in FlatMap(f, init) {
        var i :| 0 <= i < |init| && y in f(init[i]);
        assert xs[i] == init[i];
      }
      if exists i :: 0 <= i < |xs| && y in f(xs[i]) {
        var i :| 0 <= i < |xs| && y in f(xs[i]);
        if i < |init| {
          assert init[i] == xs[i];
        }
      }
    }
  }

  /** When no element gives more than one piece the result is no longer than the input,
      and when every element gives exactly one, the result lines up with the input. */
  lemma {:induction false} FlatMapAtMostOne<T, U>(f: T -> seq<U>, xs: seq<T>)
    requires forall i :: 0 <= i < |xs| ==> |f(xs[i])| <= 1
    ensures |FlatMap(f, xs)| <= |xs|
    ensures (forall i :: 0 <= i < |xs| ==> |f(xs[i])| == 1) ==>
      |FlatMap(f, xs)| == |xs| && forall i :: 0 <= i < |xs| ==> FlatMap(f, xs)[i] == f(xs[i])[0]
    decreases |xs|
  {
    if xs != [] {
      var init := xs[..|xs| - 1];
      assert forall i :: 0 <= i < |init| ==> init[i] == xs[i];
      FlatMapAtMostOne(f, init);
    }
  }

  /** `[x for s in ss for x in s]` */
  function Concat<T>(ss: seq<seq<T>>): seq<T>
    decreases |ss|
  {
    if ss == [] then [] else ss[0] + Concat(ss[1..])
  }

  /** Sum of the lengths of the inner sequences. */
  function TotalLength<T>(ss: seq<seq<T>>): nat
    decreases |ss|
  {
    if ss == [] then 0 else |ss[0]| + TotalLength(ss[1..])
  }

  lemma {:induction false} ConcatLength<T>(ss: seq<seq<T>>)
    ensures |Concat(ss)| == TotalLength(ss)
    decreases |ss|
  {
    if ss != [] {
      ConcatLength(ss[1..]);
    }
  }

  /** Appending one more inner sequence appends its elements. */
  lemma {:induction false} ConcatSnoc<T>(ss: seq<seq<T>>, s: seq<T>)
    ensures Concat(ss + [s]) == Concat(ss) + s
    decreases |ss|
  {
    if ss == [] {
      assert [] + [s] == [s];
      assert Concat([s][1..]) == [];
    } else {
      assert (ss + [s])[1..] == ss[1..] + [s];
      ConcatSnoc(ss[1..], s);
    }
  }

  /** Both pieces, one after the other, when neither step raised. */
  function Combine<U>(a: Option<seq<U>>, b: Option<seq<U>>): (r: Option<seq<U>>)
    ensures r.Some? <==> a.Some? && b.Some?
    ensures r.Some? ==> r.value == a.value + b.value
  {
    if a.Some? && b.Some? then Some(a.value + b.value) else None
  }

  /** `FlatMap` for a step that may raise: the loop stops at the first element
      whose step raises, and the whole result is then `None`. */
  function OptFlatMap<T, U>(f: T -> Option<seq<U>>, xs: seq<T>): Option<seq<U>>
    decreases |xs|
  {
    if xs == [] then Some([]) else Combine(OptFlatMap(f, xs[..|xs| - 1]), f(xs[|xs| - 1]))
  }

  lemma OptFlatMapSnoc<T, U>(f: T -> Option<seq<U>>, xs: seq<T>, x: T)
    ensures OptFlatMap(f, xs + [x]) == Combine(OptFlatMap(f, xs), f(x))
  {
  }

  /** The result for two runs is the results for each, in turn. */
  lemma {:induction false} OptFlatMapAppend<T, U>(f: T -> Option<seq<U>>, a: seq<T>, b: seq<T>)
    ensures OptFlatMap(f, a + b) == Combine(OptFlatMap(f, a), OptFlatMap(f, b))
    decreases |b|
  {
    if b == [] {
      assert a + b == a;
      var x := OptFlatMap(f, a);
      if x.Some? { assert x.value + [] == x.value; }
    } else {
      assert (a + b)[..|a + b| - 1] == a + b[..|b| - 1];
      OptFlatMapAppend(f, a, b[..|b| - 1]);
      var x, y, z := OptFlatMap(f, a), OptFlatMap(f, b[..|b| - 1]), f(b[|b| - 1]);
      if x.Some? && y.Some? && z.Some? {
        assert x.value + y.value + z.value == x.value + (y.value + z.value);
      }
    }
  }

  /** The whole raises exactly when the step raises on some element. */
  lemma {:induction false} OptFlatMapNone<T, U>(f: T -> Option<seq<U>>, xs: seq<T>)
    ensures OptFlatMap(f, xs).None? <==> exists i :: 0 <= i < |xs| && f(xs[i]).None?
    decreases |xs|
  {
    if xs != [] {
      var init := xs[..|xs| - 1];
      OptFlatMapNone(f, init);
      if exists i :: 0 <= i < |init| && f(init[i]).None? {
        var i :| 0 <= i < |init| && f(init[i]).None?;
        assert xs[i] == init[i];
      }
      if exists i :: 0 <= i < |xs| && f(xs[i]).None? {
        var i :| 0 <= i < |xs| && f(xs[i]).None?;
        if i < |init| { assert init[i] == xs[i]; }
      }
    }
  }
}
