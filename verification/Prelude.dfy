/** Vocabulary shared by every module: optional values and a few facts about sequences. */
module Prelude {

  datatype Option<+T> = None | Some(value: T) {
    function GetOr(default: T): T { if Some? then value else default }
  }

  /** Membership survives appending on the right. */
  lemma InPrefix<T>(s: seq<T>, t: seq<T>, x: T)
    requires x in s
    ensures x in s + t
  {
    var i :| 0 <= i < |s| && s[i] == x;
    assert (s + t)[i] == x;
  }

  ghost predicate Distinct<T>(s: seq<T>) {
    forall i, j :: 0 <= i < j < |s| ==> s[i] != s[j]
  }

  function Elements<T>(s: seq<T>): set<T> {
    set x | x in s
  }

  /** A duplicate-free sequence has as many positions as elements. */
  lemma {:induction false} DistinctSize<T>(s: seq<T>)
    requires Distinct(s)
    ensures |Elements(s)| == |s|
  {
    if s == [] {
      assert Elements(s) == {};
    } else {
      var init, last := s[..|s| - 1], s[|s| - 1];
      DistinctSize(init);
      assert last !in init;
      assert s == init + [last];
      assert Elements(s) == Elements(init) + {last};
    }
  }

  /** Pigeonhole: a finite set cannot properly contain an equally large one. */
  lemma EqualBySize<T>(a: set<T>, b: set<T>)
    requires a <= b && |a| == |b|
    ensures a == b
  {
    var rest := b - a;
    assert b == a + rest;
    assert |b| == |a| + |rest|;
  }

  // ----- selecting from a sequence -----

  /** `result` is what `f` makes of the entries of `all` on which it is defined, each once and in order;
      `at` are their positions. */
  ghost predicate Selects<S, T>(result: seq<T>, all: seq<S>, f: S -> Option<T>, at: seq<nat>) {
    && |at| == |result|
    && (forall k :: 0 <= k < |at| ==> at[k] < |all| && f(all[at[k]]) == Some(result[k]))
    && (forall j, k :: 0 <= j < k < |at| ==> at[j] < at[k])
    && (forall i :: 0 <= i < |all| && f(all[i]).Some? ==> i in at)
  }

  /** One more entry is selected or not. */
  lemma SelectsSnoc<S, T>(done: seq<T>, all: seq<S>, f: S -> Option<T>, at: seq<nat>, x: S, next: seq<T>, more: seq<S>)
    returns (now: seq<nat>)
    requires Selects(done, all, f, at) && more == all + [x]
    requires next == if f(x).Some? then done + [f(x).value] else done
    ensures Selects(next, more, f, now)
  {
    now := if f(x).Some? then at + [|all|] else at;
    forall i | 0 <= i < |more| && f(more[i]).Some? ensures i in now {
      if i < |all| {
        assert f(all[i]).Some? && i in at;
        if f(x).Some? { InPrefix(at, [|all|], i); }
      } else {
        assert now[|at|] == i;
      }
    }
  }

  function ShiftedBy(at: seq<nat>, shift: nat): (r: seq<nat>)
    ensures |r| == |at| && forall k :: 0 <= k < |at| ==> r[k] == shift + at[k]
  {
    seq(|at|, k requires 0 <= k < |at| => shift + at[k])
  }

  lemma SelectsAll<S, T>(r1: seq<T>, all1: seq<S>, at1: seq<nat>, r2: seq<T>, all2: seq<S>, at2: seq<nat>,
                         f: S -> Option<T>, i: nat)
    requires Selects(r1, all1, f, at1) && Selects(r2, all2, f, at2)
    requires i < |all1 + all2| && f((all1 + all2)[i]).Some?
    ensures i in at1 + ShiftedBy(at2, |all1|)
  {
    if i < |all1| {
      InPrefix(at1, ShiftedBy(at2, |all1|), i);
    } else {
      var k :| 0 <= k < |at2| && at2[k] == i - |all1|;
      assert (at1 + ShiftedBy(at2, |all1|))[|at1| + k] == i;
    }
  }

  /** Selections from two sequences make up one from both. */
  lemma SelectsConcat<S, T>(r1: seq<T>, all1: seq<S>, at1: seq<nat>, r2: seq<T>, all2: seq<S>, at2: seq<nat>,
                            f: S -> Option<T>)
    returns (at: seq<nat>)
    requires Selects(r1, all1, f, at1) && Selects(r2, all2, f, at2)
    ensures Selects(r1 + r2, all1 + all2, f, at)
  {
    at := at1 + ShiftedBy(at2, |all1|);
    forall i | 0 <= i < |all1 + all2| && f((all1 + all2)[i]).Some? ensures i in at {
      SelectsAll(r1, all1, at1, r2, all2, at2, f, i);
    }
    forall k | 0 <= k < |at| ensures at[k] < |all1 + all2| && f((all1 + all2)[at[k]]) == Some((r1 + r2)[k]) {
      if k >= |at1| { assert f(all2[at2[k - |at1|]]) == Some(r2[k - |at1|]); }
    }
  }
}
