/** Rearrangements of sequences given by their index maps. */
module Permutations {

  ghost predicate IsPermutation(p: seq<nat>, n: nat) {
    && |p| == n
    && (forall i :: 0 <= i < n ==> p[i] < n)
    && (forall i, j :: 0 <= i < j < n ==> p[i] != p[j])
  }

  /** `t` rearranged by `p` is `s`. */
  ghost predicate Rearranges<T>(p: seq<nat>, s: seq<T>, t: seq<T>) {
    && |s| == |t|
    && IsPermutation(p, |t|)
    && forall i :: 0 <= i < |s| ==> s[i] == t[p[i]]
  }

  function Without<T>(s: seq<T>, k: nat): (r: seq<T>)
    requires k < |s|
    ensures |r| == |s| - 1
    ensures forall i :: 0 <= i < |r| ==> r[i] == s[if i < k then i else i + 1]
    ensures multiset(s) == multiset(r) + multiset{s[k]}
  {
    assert s == s[..k] + [s[k]] + s[k + 1..];
    s[..k] + s[k + 1..]
  }

  lemma {:induction false} WithoutSameElements<T>(s: seq<T>, t: seq<T>, k: nat)
    requires s != [] && k < |t| && t[k] == s[0]
    requires multiset(s) == multiset(t)
    ensures multiset(s[1..]) == multiset(Without(t, k))
  {
    assert s == [s[0]] + s[1..];
    assert multiset(s[1..]) == multiset(s) - multiset{s[0]};
  }

  /** A rearrangement of the rest of `t` without position `k`, as one of all of `t`. */
  function Opened(q: seq<nat>, k: nat): (p: seq<nat>) {
    [k] + seq(|q|, i requires 0 <= i < |q| => if q[i] < k then q[i] else q[i] + 1)
  }

  lemma {:induction false} OpenedRearranges<T>(q: seq<nat>, s: seq<T>, t: seq<T>, k: nat)
    requires s != [] && k < |t| && t[k] == s[0]
    requires Rearranges(q, s[1..], Without(t, k))
    ensures Rearranges(Opened(q, k), s, t)
  {
    var p := Opened(q, k);
    forall i | 0 <= i < |s| ensures p[i] < |t| && s[i] == t[p[i]] {
      if i > 0 { assert s[i] == s[1..][i - 1]; }
    }
  }

  /** Sequences with the same elements, counted, are rearrangements of each other. */
  lemma {:induction false} SameElementsRearrange<T>(s: seq<T>, t: seq<T>) returns (p: seq<nat>)
    requires multiset(s) == multiset(t)
    ensures Rearranges(p, s, t)
  {
    assert |s| == |multiset(s)| == |multiset(t)| == |t|;
    if s == [] {
      p := [];
    } else {
      assert s[0] in multiset(t);
      var k :| 0 <= k < |t| && t[k] == s[0];
      WithoutSameElements(s, t, k);
      var q := SameElementsRearrange(s[1..], Without(t, k));
      OpenedRearranges(q, s, t, k);
      p := Opened(q, k);
    }
  }

  /** A rearrangement keeps every element as often as it was there. */
  lemma {:induction false} RearrangedSameElements<T>(p: seq<nat>, s: seq<T>, t: seq<T>)
    requires Rearranges(p, s, t)
    ensures multiset(s) == multiset(t)
    decreases |s|
  {
    if s == [] {
      assert t == [];
    } else {
      var k := p[0];
      var t' := Without(t, k);
      var q := seq(|p| - 1, i requires 0 <= i < |p| - 1 => if p[i + 1] < k then p[i + 1] else p[i + 1] - 1);
      forall i | 0 <= i < |q| ensures q[i] < |t'| && s[1..][i] == t'[q[i]] {
        assert p[i + 1] != p[0];
      }
      forall i, j | 0 <= i < j < |q| ensures q[i] != q[j] {
        assert p[i + 1] != p[j + 1] && p[i + 1] != k && p[j + 1] != k;
      }
      RearrangedSameElements(q, s[1..], t');
      assert s == [s[0]] + s[1..];
    }
  }
}
