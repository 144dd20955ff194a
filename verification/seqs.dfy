/**
 * Sequence operations that mirror the Rust iterator adaptors the forecast
 * code chains together (`filter`, `take`, `rev`), with the facts the
 * selection proofs need about them.
 */
module Seqs {
  import opened Primitives

  /** `iter().filter(p)`, collected: the elements satisfying `p`, in order. */
  function Filter<T>(p: T -> bool, s: seq<T>): (r: seq<T>)
    ensures |r| <= |s|
    ensures forall i :: 0 <= i < |r| ==> p(r[i]) && r[i] in s
    ensures forall j :: 0 <= j < |s| && p(s[j]) ==> s[j] in r
    decreases |s|
  {
    if |s| == 0 then []
    else
      var init := s[..|s| - 1];
      assert s == init + [s[|s| - 1]];
      Filter(p, init) + (if p(s[|s| - 1]) then [s[|s| - 1]] else [])
  }

  /** `iter().take(n)`, collected. */
  function Take<T>(s: seq<T>, n: nat): (r: seq<T>)
    ensures |r| == Min(n, |s|)
    ensures r <= s
  {
    s[..Min(n, |s|)]
  }

  /** `iter().rev()`, collected. */
  function Reverse<T>(s: seq<T>): (r: seq<T>)
    ensures |r| == |s|
    ensures forall i :: 0 <= i < |s| ==> r[i] == s[|s| - 1 - i]
    decreases |s|
  {
    if |s| == 0 then [] else [s[|s| - 1]] + Reverse(s[..|s| - 1])
  }

  /** The last `min(n, |s|)` elements of `s`, in their original order. */
  function LastN<T>(s: seq<T>, n: nat): (r: seq<T>)
    ensures |r| == Min(n, |s|)
    ensures forall i :: 0 <= i < |r| ==> r[i] == s[|s| - |r| + i]
  {
    s[|s| - Min(n, |s|)..]
  }

  /** `a` sits inside `b` at the strictly increasing positions `idx`. */
  ghost predicate Embeds<T>(a: seq<T>, b: seq<T>, idx: seq<int>) {
    && |idx| == |a|
    && (forall i :: 0 <= i < |idx| ==> 0 <= idx[i] < |b| && a[i] == b[idx[i]])
    && (forall i, j :: 0 <= i < j < |idx| ==> idx[i] < idx[j])
  }

  /**
   * `r` consists of exactly the elements of `s` that satisfy `p`, in the
   * order they have in `s`: position `j` of `s` is used iff `p(s[j])`.
   */
  ghost predicate Selects<T>(r: seq<T>, s: seq<T>, idx: seq<int>, p: T -> bool) {
    && Embeds(r, s, idx)
    && (forall j :: 0 <= j < |s| ==> (p(s[j]) <==> j in idx))
  }

  lemma FilterAppend<T>(p: T -> bool, s: seq<T>, x: T)
    ensures Filter(p, s + [x]) == Filter(p, s) + (if p(x) then [x] else [])
  {
    assert (s + [x])[..|s|] == s;
  }

  lemma {:induction false} FilterOfAllSatisfying<T>(p: T -> bool, s: seq<T>)
    requires forall i :: 0 <= i < |s| ==> p(s[i])
    ensures Filter(p, s) == s
    decreases |s|
  {
    if |s| > 0 {
      var init := s[..|s| - 1];
      assert forall i :: 0 <= i < |init| ==> p(init[i]) by {
        forall i | 0 <= i < |init| ensures p(init[i]) { assert init[i] == s[i]; }
      }
      FilterOfAllSatisfying(p, init);
      assert p(s[|s| - 1]);
      assert s == init + [s[|s| - 1]];
    }
  }

  lemma {:induction false} FilterOfNoneSatisfying<T>(p: T -> bool, s: seq<T>)
    requires forall i :: 0 <= i < |s| ==> !p(s[i])
    ensures Filter(p, s) == []
    decreases |s|
  {
    if |s| > 0 {
      var init := s[..|s| - 1];
      assert forall i :: 0 <= i < |init| ==> !p(init[i]) by {
        forall i | 0 <= i < |init| ensures !p(init[i]) { assert init[i] == s[i]; }
      }
      FilterOfNoneSatisfying(p, init);
    }
  }

  /** An embedding survives appending one element to the host, and to both sides. */
  lemma EmbedsSnoc<T>(a: seq<T>, b: seq<T>, idx: seq<int>, x: T)
    requires Embeds(a, b, idx)
    ensures Embeds(a, b + [x], idx)
    ensures Embeds(a + [x], b + [x], idx + [|b|])
  {
  }

  /** A filter keeps exactly the satisfying positions, in input order. */
  lemma {:induction false} FilterSelects<T>(p: T -> bool, s: seq<T>) returns (idx: seq<int>)
    ensures Selects(Filter(p, s), s, idx, p)
    decreases |s|
  {
    if |s| == 0 {
      idx := [];
    } else {
      var n := |s| - 1;
      var init := s[..n];
      var x := s[n];
      assert s == init + [x];
      var idx0 := FilterSelects(p, init);
      FilterAppend(p, init, x);
      EmbedsSnoc(Filter(p, init), init, idx0, x);
      if p(x) {
        idx := idx0 + [n];
      } else {
        idx := idx0;
      }
      forall j | 0 <= j < n
        ensures p(s[j]) <==> j in idx
      {
        assert s[j] == init[j];
        assert j in idx <==> j in idx0;
      }
      assert p(s[n]) <==> n in idx by {
        assert forall i :: 0 <= i < |idx0| ==> idx0[i] < n;
      }
    }
  }

  /** The prefix of an embedding embeds the prefix. */
  lemma EmbedsPrefix<T>(a: seq<T>, b: seq<T>, idx: seq<int>, k: nat)
    requires Embeds(a, b, idx)
    requires k <= |a|
    ensures Embeds(a[..k], b, idx[..k])
  {
  }

  /** `rev().take(n).rev()` yields the last `min(n, |s|)` elements in original order. */
  lemma RevTakeRev<T>(s: seq<T>, n: nat)
    ensures Reverse(Take(Reverse(s), n)) == LastN(s, n)
  {
    var k := Min(n, |s|);
    var t := Take(Reverse(s), n);
    var r := Reverse(t);
    var l := LastN(s, n);
    forall i | 0 <= i < k
      ensures r[i] == l[i]
    {
      calc {
        r[i];
        t[k - 1 - i];
        Reverse(s)[k - 1 - i];
        s[|s| - k + i];
      }
    }
  }
}
