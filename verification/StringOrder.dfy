/** The order Rust puts on strings, and the stable sort the schema canonicaliser
    applies to ranked entries. Strings are sequences of Unicode scalar values;
    comparing them scalar by scalar orders them as comparing UTF-8 bytes does. */
module StringOrder {

  predicate LexLe(a: string, b: string) {
    if a == [] then true
    else if b == [] then false
    else a[0] < b[0] || (a[0] == b[0] && LexLe(a[1..], b[1..]))
  }

  lemma {:induction false} LexTotal(a: string, b: string)
    ensures LexLe(a, b) || LexLe(b, a)
  {
    if a != [] && b != [] && a[0] == b[0] {
      LexTotal(a[1..], b[1..]);
    }
  }

  lemma {:induction false} LexAntisymmetric(a: string, b: string)
    requires LexLe(a, b) && LexLe(b, a)
    ensures a == b
  {
    if a != [] {
      LexAntisymmetric(a[1..], b[1..]);
      assert a == [a[0]] + a[1..] && b == [b[0]] + b[1..];
    }
  }

  lemma {:induction false} LexTransitive(a: string, b: string, c: string)
    requires LexLe(a, b) && LexLe(b, c)
    ensures LexLe(a, c)
  {
    if a != [] && a[0] == b[0] == c[0] {
      LexTransitive(a[1..], b[1..], c[1..]);
    }
  }

  /** An entry with its sort key and the text that breaks ties between equal keys. */
  datatype Ranked<T> = Ranked(key: string, tie: string, val: T)

  predicate RankLe<T>(a: Ranked<T>, b: Ranked<T>) {
    if a.key == b.key then LexLe(a.tie, b.tie) else LexLe(a.key, b.key)
  }

  lemma {:induction false} RankTotal<T>(a: Ranked<T>, b: Ranked<T>)
    ensures RankLe(a, b) || RankLe(b, a)
  {
    LexTotal(a.key, b.key);
    LexTotal(a.tie, b.tie);
  }

  lemma {:induction false} RankTransitive<T>(a: Ranked<T>, b: Ranked<T>, c: Ranked<T>)
    requires RankLe(a, b) && RankLe(b, c)
    ensures RankLe(a, c)
  {
    if a.key == b.key == c.key {
      LexTransitive(a.tie, b.tie, c.tie);
    } else if a.key == c.key {
      LexAntisymmetric(a.key, b.key);
    } else if a.key != b.key && b.key != c.key {
      LexTransitive(a.key, b.key, c.key);
    }
  }

  lemma {:induction false} RankAntisymmetric<T>(a: Ranked<T>, b: Ranked<T>)
    requires RankLe(a, b) && RankLe(b, a)
    ensures a.key == b.key && a.tie == b.tie
  {
    if a.key == b.key {
      LexAntisymmetric(a.tie, b.tie);
    } else {
      LexAntisymmetric(a.key, b.key);
    }
  }

  ghost predicate Sorted<T>(s: seq<Ranked<T>>) {
    forall i, j :: 0 <= i < j < |s| ==> RankLe(s[i], s[j])
  }

  function Insert<T>(x: Ranked<T>, s: seq<Ranked<T>>): (r: seq<Ranked<T>>)
    ensures multiset(r) == multiset{x} + multiset(s)
  {
    if s == [] then [x]
    else if RankLe(x, s[0]) then [x] + s
    else
      assert s == [s[0]] + s[1..];
      [s[0]] + Insert(x, s[1..])
  }

  /** The stable sort by rank. */
  function Sort<T>(s: seq<Ranked<T>>): (r: seq<Ranked<T>>)
    ensures multiset(r) == multiset(s)
  {
    if s == [] then [] else
      assert s == [s[0]] + s[1..];
      Insert(s[0], Sort(s[1..]))
  }

  lemma {:induction false} InsertSorted<T>(x: Ranked<T>, s: seq<Ranked<T>>)
    requires Sorted(s)
    ensures Sorted(Insert(x, s))
  {
    if s == [] {
    } else if RankLe(x, s[0]) {
      forall i | 0 <= i < |s| ensures RankLe(x, s[i]) {
        if i > 0 { RankTransitive(x, s[0], s[i]); }
      }
    } else {
      InsertSorted(x, s[1..]);
      var r := Insert(x, s[1..]);
      forall j | 0 <= j < |r| ensures RankLe(s[0], r[j]) {
        assert r[j] in multiset(r);
        if r[j] == x { RankTotal(x, s[0]); } else { assert r[j] in s[1..]; }
      }
    }
  }

  lemma {:induction false} SortSorted<T>(s: seq<Ranked<T>>)
    ensures Sorted(Sort(s))
  {
    if s != [] {
      SortSorted(s[1..]);
      InsertSorted(s[0], Sort(s[1..]));
    }
  }

  /** Entries that tie on both key and text are the same entry. */
  ghost predicate Decisive<T>(s: seq<Ranked<T>>) {
    forall i, j :: 0 <= i < |s| && 0 <= j < |s| && s[i].key == s[j].key && s[i].tie == s[j].tie ==> s[i] == s[j]
  }

  lemma {:induction false} SortedHeadsAgree<T>(s: seq<Ranked<T>>, t: seq<Ranked<T>>)
    requires Sorted(s) && Sorted(t) && Decisive(s) && s != [] && t != []
    requires s[0] in t && t[0] in s
    ensures s[0] == t[0]
  {
    var i :| 0 <= i < |t| && t[i] == s[0];
    var j :| 0 <= j < |s| && s[j] == t[0];
    if i > 0 && j > 0 {
      RankAntisymmetric(s[0], t[0]);
    }
  }

  lemma {:induction false} TailElements<T>(s: seq<T>)
    requires s != []
    ensures multiset(s[1..]) == multiset(s) - multiset{s[0]}
  {
    assert s == [s[0]] + s[1..];
  }

  lemma {:induction false} SortedUnique<T>(s: seq<Ranked<T>>, t: seq<Ranked<T>>)
    requires Sorted(s) && Sorted(t) && Decisive(s)
    requires multiset(s) == multiset(t)
    ensures s == t
  {
    assert |s| == |multiset(s)| == |multiset(t)| == |t|;
    if s != [] {
      assert s[0] in multiset(t) && t[0] in multiset(s);
      SortedHeadsAgree(s, t);
      TailElements(s);
      TailElements(t);
      SortedUnique(s[1..], t[1..]);
      assert s == [s[0]] + s[1..] && t == [t[0]] + t[1..];
    }
  }

  /** Sorting depends on the entries only, not on the order they came in. */
  lemma {:induction false} SortIgnoresOrder<T>(s: seq<Ranked<T>>, t: seq<Ranked<T>>)
    requires multiset(s) == multiset(t) && Decisive(s)
    ensures Sort(s) == Sort(t)
  {
    SortSorted(s);
    SortSorted(t);
    var r := Sort(s);
    forall i, j | 0 <= i < |r| && 0 <= j < |r| && r[i].key == r[j].key && r[i].tie == r[j].tie ensures r[i] == r[j] {
      assert r[i] in multiset(r) && r[j] in multiset(r);
      assert r[i] in s && r[j] in s;
    }
    SortedUnique(r, Sort(t));
  }
}
