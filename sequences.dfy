/** Order-preserving selection from a sequence, and the size of the set of a
    sequence without repetitions. */
module Sequences {

  /** The elements of `xs` whose flag in `keep` is set, in their order. */
  function Select<T>(xs: seq<T>, keep: seq<bool>): (r: seq<T>)
    requires |keep| == |xs|
    ensures |r| <= |xs|
    decreases |xs|
  {
    if xs == [] then []
    else (if keep[0] then [xs[0]] else []) + Select(xs[1..], keep[1..])
  }

  /** A non-empty sequence is its prefix followed by its last element. */
  lemma SplitLast<T>(xs: seq<T>)
    requires xs != []
    ensures xs == xs[..|xs| - 1] + [xs[|xs| - 1]]
  {
  }

  /** Concatenation regrouped; a separate lemma keeps the extensional step
      out of large proof contexts. */
  lemma AppendAssoc<T>(a: seq<T>, b: seq<T>, c: seq<T>)
    ensures a + (b + c) == a + b + c
  {
  }

  lemma Snoc2<T>(t: seq<T>, a: T, b: T)
    ensures t + [a] + [b] == t + [a, b]
  {
  }

  lemma Snoc3<T>(t: seq<T>, a: T, b: T, c: T)
    ensures t + [a] + [b] + [c] == t + [a, b, c]
  {
  }

  /** Selecting from a sequence grown at its end. */
  lemma {:induction false} SelectSnoc<T>(xs: seq<T>, keep: seq<bool>, x: T, k: bool)
    requires |keep| == |xs|
    ensures Select(xs + [x], keep + [k]) == Select(xs, keep) + (if k then [x] else [])
    decreases |xs|
  {
    if xs == [] {
      assert Select([x], [k]) == (if k then [x] else []) + Select([], []);
    } else {
      assert (xs + [x])[1..] == xs[1..] + [x];
      assert (keep + [k])[1..] == keep[1..] + [k];
      SelectSnoc(xs[1..], keep[1..], x, k);
    }
  }

  /** Everything selected was flagged, and everything flagged is selected. */
  lemma {:induction false} SelectMembers<T>(xs: seq<T>, keep: seq<bool>)
    requires |keep| == |xs|
    ensures forall y :: y in Select(xs, keep) <==> exists i :: 0 <= i < |xs| && keep[i] && xs[i] == y
    decreases |xs|
  {
    if xs != [] {
      SelectMembers(xs[1..], keep[1..]);
      forall y
        ensures y in Select(xs, keep) <==> exists i :: 0 <= i < |xs| && keep[i] && xs[i] == y
      {
        if y in Select(xs[1..], keep[1..]) {
          var i :| 0 <= i < |xs[1..]| && keep[1..][i] && xs[1..][i] == y;
          assert keep[i + 1] && xs[i + 1] == y;
        }
        if exists i :: 0 <= i < |xs| && keep[i] && xs[i] == y {
          var i :| 0 <= i < |xs| && keep[i] && xs[i] == y;
          if i > 0 {
            assert keep[1..][i - 1] && xs[1..][i - 1] == y;
          }
        }
      }
    }
  }

  /** Selecting with every flag set keeps everything; with none, nothing. */
  lemma {:induction false} SelectAllOrNone<T>(xs: seq<T>, keep: seq<bool>)
    requires |keep| == |xs|
    ensures (forall i :: 0 <= i < |xs| ==> keep[i]) ==> Select(xs, keep) == xs
    ensures (forall i :: 0 <= i < |xs| ==> !keep[i]) ==> Select(xs, keep) == []
    decreases |xs|
  {
    if xs != [] {
      SelectAllOrNone(xs[1..], keep[1..]);
      assert forall i :: 0 <= i < |xs| - 1 ==> keep[1..][i] == keep[i + 1];
      if forall i :: 0 <= i < |xs| ==> keep[i] {
        assert [xs[0]] + xs[1..] == xs;
      }
    }
  }

  predicate Distinct<T(==)>(xs: seq<T>) {
    forall i, j :: 0 <= i < j < |xs| ==> xs[i] != xs[j]
  }

  function SetOf<T>(xs: seq<T>): set<T> {
    set x | x in xs
  }

  /** A sequence without repetitions has as many distinct elements as it is long. */
  lemma {:induction false} DistinctCardinality<T>(xs: seq<T>)
    requires Distinct(xs)
    ensures |SetOf(xs)| == |xs|
    decreases |xs|
  {
    if xs != [] {
      var init, last := xs[..|xs| - 1], xs[|xs| - 1];
      DistinctCardinality(init);
      assert SetOf(xs) == SetOf(init) + {last};
      assert last !in SetOf(init);
    }
  }
}
