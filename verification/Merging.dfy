/** Two sequences merged into one, each kept in its own order. */
module Merging {
  /** `whole` is `a` and `b` merged. */
  ghost predicate Merged<T>(whole: seq<T>, a: seq<T>, b: seq<T>)
    decreases |whole|, 1
  {
    if whole == [] then a == [] && b == []
    else EndsWith(whole, a, b) || EndsWith(whole, b, a)
  }

  /** The last of `whole` is the last of `a`, and what comes before is merged. */
  ghost predicate EndsWith<T>(whole: seq<T>, a: seq<T>, b: seq<T>)
    requires whole != []
    decreases |whole|, 0
  {
    var n, k := |whole| - 1, |a| - 1;
    a != [] && a[k] == whole[n] && Merged(whole[..n], a[..k], b)
  }

  lemma {:induction false} MergedSwap<T>(whole: seq<T>, a: seq<T>, b: seq<T>)
    requires Merged(whole, a, b)
    ensures Merged(whole, b, a)
  {
    if whole != [] {
      var n := |whole| - 1;
      if EndsWith(whole, a, b) {
        MergedSwap(whole[..n], a[..|a| - 1], b);
      } else {
        MergedSwap(whole[..n], b[..|b| - 1], a);
      }
    }
  }

  /** One more at the end of the first. */
  lemma MergedAppend<T>(whole: seq<T>, a: seq<T>, b: seq<T>, t: T)
    requires Merged(whole, a, b)
    ensures Merged(whole + [t], a + [t], b) && Merged(whole + [t], a, b + [t])
  {
    var more := whole + [t];
    assert more[..|more| - 1] == whole;
    assert (a + [t])[..|a|] == a;
    assert (b + [t])[..|b|] == b;
    MergedSwap(whole, a, b);
    assert EndsWith(more, a + [t], b);
    MergedSwap(more, b + [t], a) by {
      assert EndsWith(more, b + [t], a);
    }
  }

  lemma {:induction false} MergedConcat<T>(whole: seq<T>, a: seq<T>, b: seq<T>, more: seq<T>)
    requires Merged(whole, a, b)
    ensures Merged(whole + more, a + more, b)
    decreases |more|
  {
    if more == [] {
      assert whole + more == whole && a + more == a;
    } else {
      var n := |more| - 1;
      MergedConcat(whole, a, b, more[..n]);
      MergedAppend(whole + more[..n], a + more[..n], b, more[n]);
      assert whole + more == whole + more[..n] + [more[n]] && a + more == a + more[..n] + [more[n]];
    }
  }

  /** With nothing merged in, the two are equal. */
  lemma {:induction false} MergedWithNone<T>(whole: seq<T>, a: seq<T>)
    ensures Merged(whole, a, []) <==> whole == a
    decreases |whole|
  {
    if whole != [] {
      var n := |whole| - 1;
      if a != [] {
        MergedWithNone(whole[..n], a[..|a| - 1]);
        assert whole == whole[..n] + [whole[n]] && a == a[..|a| - 1] + [a[|a| - 1]];
        assert whole == a ==> EndsWith(whole, a, []);
      }
    }
  }

  /** Nothing appears or disappears in merging. */
  lemma {:induction false} MergedCounts<T>(whole: seq<T>, a: seq<T>, b: seq<T>)
    requires Merged(whole, a, b)
    ensures multiset(whole) == multiset(a) + multiset(b) && |whole| == |a| + |b|
  {
    if whole != [] {
      var n := |whole| - 1;
      assert whole == whole[..n] + [whole[n]];
      if EndsWith(whole, a, b) {
        assert a == a[..|a| - 1] + [a[|a| - 1]];
        MergedCounts(whole[..n], a[..|a| - 1], b);
      } else {
        assert b == b[..|b| - 1] + [b[|b| - 1]];
        MergedCounts(whole[..n], a, b[..|b| - 1]) by {
          MergedSwap(whole[..n], b[..|b| - 1], a);
        }
      }
    }
  }
}
