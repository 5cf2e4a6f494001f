/** Order-preserving filtering, the model of JavaScript's `Array.prototype.filter`. */
module Sequences {
  function Filter<T(!new)>(s: seq<T>, p: T -> bool): (r: seq<T>)
    ensures |r| <= |s|
    ensures forall x {:trigger x in r} :: x in r <==> x in s && p(x)
  {
    if s == [] then [] else Filter(s[..|s| - 1], p) + (if p(s[|s| - 1]) then [s[|s| - 1]] else [])
  }

  /** `s.filter(p).length`: how many elements pass. */
  function CountOf<T(!new)>(s: seq<T>, p: T -> bool): (n: nat)
    ensures n <= |s|
    ensures n == 0 <==> forall i :: 0 <= i < |s| ==> !p(s[i])
  {
    var r := Filter(s, p);
    assert forall i :: 0 <= i < |s| && p(s[i]) ==> s[i] in r;
    assert r != [] ==> r[0] in r;
    |r|
  }

  /** Filtering keeps relative order: it distributes over concatenation. */
  lemma {:induction false} FilterConcat<T(!new)>(a: seq<T>, b: seq<T>, p: T -> bool)
    ensures Filter(a + b, p) == Filter(a, p) + Filter(b, p)
  {
    if b == [] {
      assert a + b == a;
    } else {
      var front := b[..|b| - 1];
      var last := b[|b| - 1];
      var tail := if p(last) then [last] else [];
      FilterConcat(a, front, p);
      assert (a + b)[..|a + b| - 1] == a + front;
      assert (a + b)[|a + b| - 1] == last;
      calc {
        Filter(a + b, p);
        Filter(a + front, p) + tail;
        (Filter(a, p) + Filter(front, p)) + tail;
        Filter(a, p) + (Filter(front, p) + tail);
      }
    }
  }

  /** A filter that rejects nothing returns its input. */
  lemma {:induction false} FilterKeepsAll<T(!new)>(s: seq<T>, p: T -> bool)
    requires forall i :: 0 <= i < |s| ==> p(s[i])
    ensures Filter(s, p) == s
  {
    if s != [] {
      FilterKeepsAll(s[..|s| - 1], p);
    }
  }

  /** The conjunction of two element tests. */
  function Both<T>(p: T -> bool, q: T -> bool): T -> bool
  {
    x => p(x) && q(x)
  }

  /** Two filters in a row keep what both predicates accept, in the same order. */
  lemma {:induction false} FilterTwice<T(!new)>(s: seq<T>, p: T -> bool, q: T -> bool)
    ensures Filter(Filter(s, p), q) == Filter(s, Both(p, q))
  {
    if s != [] {
      var front := s[..|s| - 1];
      var last := s[|s| - 1];
      FilterTwice(front, p, q);
      FilterConcat(Filter(front, p), if p(last) then [last] else [], q);
      assert Filter(if p(last) then [last] else [], q) == if p(last) && q(last) then [last] else [];
    }
  }

  /** Filters by predicates that agree on every element agree. */
  lemma {:induction false} FilterSamePredicate<T(!new)>(s: seq<T>, p: T -> bool, q: T -> bool)
    requires forall x :: p(x) == q(x)
    ensures Filter(s, p) == Filter(s, q)
  {
    if s != [] {
      FilterSamePredicate(s[..|s| - 1], p, q);
    }
  }

  /** A relation that holds between every earlier and later element survives filtering. */
  lemma {:induction false} FilterKeepsPairwise<T(!new)>(s: seq<T>, p: T -> bool, rel: (T, T) -> bool)
    requires forall i, j :: 0 <= i < j < |s| ==> rel(s[i], s[j])
    ensures forall i, j :: 0 <= i < j < |Filter(s, p)| ==> rel(Filter(s, p)[i], Filter(s, p)[j])
  {
    if s != [] {
      var front := s[..|s| - 1];
      var last := s[|s| - 1];
      FilterKeepsPairwise(front, p, rel);
      var f := Filter(front, p);
      if p(last) {
        forall i | 0 <= i < |f|
          ensures rel(f[i], last)
        {
          assert f[i] in f;
          assert f[i] in front;
          var j :| 0 <= j < |front| && front[j] == f[i];
          assert s[j] == f[i];
        }
        var r := f + [last];
        assert Filter(s, p) == r;
        forall i, j | 0 <= i < j < |r|
          ensures rel(r[i], r[j])
        {
          if j < |f| {
            assert r[i] == f[i] && r[j] == f[j];
            assert rel(f[i], f[j]);
          } else {
            assert r[i] == f[i] && r[j] == last;
          }
        }
      } else {
        assert Filter(s, p) == f + [];
      }
    }
  }
}
