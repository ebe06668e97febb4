/** Counting and summing over sequences, defined element by element from the
    front so that a loop over a prefix `s[..i]` can keep them as invariants. */
module Seqs {
  import opened Wrappers

  /** Number of elements of `s` that satisfy `p`. */
  function Count<T>(s: seq<T>, p: T -> bool): nat
  {
    if |s| == 0 then 0 else Count(s[..|s| - 1], p) + (if p(s[|s| - 1]) then 1 else 0)
  }

  /** Sum of `f` over the elements of `s`. */
  function Sum<T>(s: seq<T>, f: T -> int): int
  {
    if |s| == 0 then 0 else Sum(s[..|s| - 1], f) + f(s[|s| - 1])
  }

  /** The values `f` yields, in order, for the elements where it yields one. */
  function Somes<T, U>(s: seq<T>, f: T -> Option<U>): seq<U>
  {
    if |s| == 0 then []
    else
      var init := Somes(s[..|s| - 1], f);
      match f(s[|s| - 1])
      case Some(v) => init + [v]
      case None => init
  }

  lemma {:induction false} CountAtMostLength<T>(s: seq<T>, p: T -> bool)
    ensures Count(s, p) <= |s|
  {
    if |s| > 0 {
      CountAtMostLength(s[..|s| - 1], p);
    }
  }

  /** Elements that satisfy two disjoint predicates are counted at most once between them. */
  lemma {:induction false} CountDisjoint<T>(s: seq<T>, p: T -> bool, q: T -> bool)
    requires forall x :: p(x) ==> !q(x)
    ensures Count(s, p) + Count(s, q) <= |s|
  {
    if |s| > 0 {
      CountDisjoint(s[..|s| - 1], p, q);
    }
  }

  lemma {:induction false} SumAppend<T>(a: seq<T>, b: seq<T>, f: T -> int)
    ensures Sum(a + b, f) == Sum(a, f) + Sum(b, f)
    decreases |b|
  {
    if |b| > 0 {
      assert (a + b)[..|a + b| - 1] == a + b[..|b| - 1];
      SumAppend(a, b[..|b| - 1], f);
    } else {
      assert a + b == a;
    }
  }

  /** If every term lies in [lo, hi], the sum lies in [lo * |s|, hi * |s|]. */
  lemma {:induction false} SumBetween<T>(s: seq<T>, f: T -> int, lo: int, hi: int)
    requires forall x :: x in s ==> lo <= f(x) <= hi
    ensures lo * |s| <= Sum(s, f) <= hi * |s|
  {
    if |s| > 0 {
      var init := s[..|s| - 1];
      forall x | x in init ensures lo <= f(x) <= hi {
        var i :| 0 <= i < |init| && init[i] == x;
        assert s[i] == x;
      }
      SumBetween(init, f, lo, hi);
      assert s[|s| - 1] in s;
      MulSucc(lo, |init|);
      MulSucc(hi, |init|);
    }
  }

  lemma MulSucc(a: int, n: int)
    ensures a * (n + 1) == a * n + a
  {
  }

  /** Every element either contributes a value to `Somes` or is counted by `p`
      when `p` holds exactly where `f` yields nothing. */
  lemma {:induction false} SomesPartition<T, U>(s: seq<T>, f: T -> Option<U>, p: T -> bool)
    requires forall x :: p(x) <==> f(x).None?
    ensures Count(s, p) + |Somes(s, f)| == |s|
  {
    if |s| > 0 {
      SomesPartition(s[..|s| - 1], f, p);
    }
  }
}
