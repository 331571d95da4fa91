/** The canonical form the schema fixtures are compared in: object members sorted by
    key, and arrays sorted when every item has a sort key. */
module SchemaFixtures {
  import opened Basics
  import opened JsonText
  import opened StringOrder
  import opened Permutations

  function Lookup(ms: seq<Member>, key: string): (r: Option<Json>)
    ensures r.Some? ==> Member(key, r.value) in ms
  {
    if ms == [] then None
    else if ms[0].key == key then Some(ms[0].val)
    else Lookup(ms[1..], key)
  }

  function SortKey(item: Json): (r: Option<string>) {
    match item
    case Null => Some("null")
    case Bool(b) => Some(if b then "b:true" else "b:false")
    case Number(t) => Some("n:" + t)
    case String(s) => Some("s:" + s)
    case Object(ms) =>
      var reference := Lookup(ms, "$ref");
      var title := Lookup(ms, "title");
      if reference.Some? && reference.value.String? then Some("ref:" + reference.value.s)
      else if title.Some? && title.value.String? then Some("title:" + title.value.s)
      else None
    case Array(_) => None
  }

  predicate AllKeyed(items: seq<Json>) {
    forall i :: 0 <= i < |items| ==> SortKey(items[i]).Some?
  }

  /** The rank of an array item: its sort key, then its compact text. */
  function ItemRank(item: Json): (r: Ranked<Json>)
    requires SortKey(item).Some?
  {
    Ranked(SortKey(item).value, Print(item), item)
  }

  function ItemRanks(items: seq<Json>): (r: seq<Ranked<Json>>)
    requires AllKeyed(items)
    ensures |r| == |items| && forall i :: 0 <= i < |r| ==> r[i] == ItemRank(items[i])
  {
    seq(|items|, i requires 0 <= i < |items| => ItemRank(items[i]))
  }

  function MemberRanks(ms: seq<Member>): (r: seq<Ranked<Json>>)
    ensures |r| == |ms| && forall i :: 0 <= i < |r| ==> r[i] == Ranked(ms[i].key, "", ms[i].val)
  {
    seq(|ms|, i requires 0 <= i < |ms| => Ranked(ms[i].key, "", ms[i].val))
  }

  function Values(rs: seq<Ranked<Json>>): (r: seq<Json>)
    ensures |r| == |rs| && forall i :: 0 <= i < |r| ==> r[i] == rs[i].val
  {
    seq(|rs|, i requires 0 <= i < |rs| => rs[i].val)
  }

  function Members(rs: seq<Ranked<Json>>): (r: seq<Member>)
    ensures |r| == |rs| && forall i :: 0 <= i < |r| ==> r[i] == Member(rs[i].key, rs[i].val)
  {
    seq(|rs|, i requires 0 <= i < |rs| => Member(rs[i].key, rs[i].val))
  }

  function SortItems(items: seq<Json>): (r: seq<Json>) {
    if AllKeyed(items) then Values(Sort(ItemRanks(items))) else items
  }

  function SortMembers(ms: seq<Member>): (r: seq<Member>) {
    Members(Sort(MemberRanks(ms)))
  }

  function Canonical(v: Json): (r: Json) {
    match v
    case Array(items) =>
      Array(SortItems(seq(|items|, i requires 0 <= i < |items| => Canonical(items[i]))))
    case Object(ms) =>
      Object(SortMembers(seq(|ms|, i requires 0 <= i < |ms| => Member(ms[i].key, Canonical(ms[i].val)))))
    case _ => v
  }

  function CanonicalItems(items: seq<Json>): (r: seq<Json>)
    ensures |r| == |items| && forall i :: 0 <= i < |r| ==> r[i] == Canonical(items[i])
  {
    seq(|items|, i requires 0 <= i < |items| => Canonical(items[i]))
  }

  function CanonicalMembers(ms: seq<Member>): (r: seq<Member>)
    ensures |r| == |ms| && forall i :: 0 <= i < |r| ==> r[i] == Member(ms[i].key, Canonical(ms[i].val))
  {
    seq(|ms|, i requires 0 <= i < |ms| => Member(ms[i].key, Canonical(ms[i].val)))
  }

  lemma {:induction false} CanonicalUnfolds(v: Json)
    ensures v.Array? ==> Canonical(v) == Array(SortItems(CanonicalItems(v.items)))
    ensures v.Object? ==> Canonical(v) == Object(SortMembers(CanonicalMembers(v.members)))
  {
    match v
    case Array(items) =>
      assert CanonicalItems(items) == seq(|items|, i requires 0 <= i < |items| => Canonical(items[i]));
    case Object(ms) =>
      assert CanonicalMembers(ms) == seq(|ms|, i requires 0 <= i < |ms| => Member(ms[i].key, Canonical(ms[i].val)));
    case _ =>
  }

  // ----- the equivalence the canonical form is meant to decide

  /** `a` and `b` differ, at every depth, only by the order of object members and by the
      order of arrays whose items all have a sort key. */
  ghost predicate Equivalent(a: Json, b: Json)
    decreases a
  {
    match a
    case Array(xs) =>
      && b.Array? && |xs| == |b.items|
      && (if AllKeyed(xs)
          then exists p: seq<nat> :: IsPermutation(p, |xs|) && forall i :: 0 <= i < |xs| ==>
              Equivalent(xs[i], b.items[p[i]])
          else forall i :: 0 <= i < |xs| ==> Equivalent(xs[i], b.items[i]))
    case Object(ms) =>
      && b.Object? && |ms| == |b.members|
      && exists p: seq<nat> :: IsPermutation(p, |ms|) &&
           forall i :: 0 <= i < |ms| ==> ms[i].key == b.members[p[i]].key && Equivalent(ms[i].val, b.members[p[i]].val)
    case _ => a == b
  }

  // ----- sort keys survive canonicalisation

  lemma {:induction false} LookupFinds(ms: seq<Member>, i: nat)
    requires i < |ms| && DistinctKeys(ms)
    ensures Lookup(ms, ms[i].key) == Some(ms[i].val)
  {
    if i > 0 {
      LookupFinds(ms[1..], i - 1);
    }
  }

  lemma {:induction false} LookupRearranged(p: seq<nat>, ms: seq<Member>, ns: seq<Member>, key: string)
    requires DistinctKeys(ms) && DistinctKeys(ns) && Rearranges(p, ms, ns)
    ensures Lookup(ms, key) == Lookup(ns, key)
  {
    if i :| 0 <= i < |ms| && ms[i].key == key {
      LookupFinds(ms, i);
      LookupFinds(ns, p[i]);
    } else {
      RearrangedSameElements(p, ms, ns);
      forall j | 0 <= j < |ns| ensures ns[j].key != key {
        assert ns[j] in multiset(ms);
      }
    }
  }

  lemma {:induction false} LookupCanonical(ms: seq<Member>, key: string)
    ensures Lookup(ms, key).None? ==> Lookup(CanonicalMembers(ms), key).None?
    ensures Lookup(ms, key).Some? ==> Lookup(CanonicalMembers(ms), key) == Some(Canonical(Lookup(ms, key).value))
  {
    if ms != [] && ms[0].key != key {
      LookupCanonical(ms[1..], key);
      assert CanonicalMembers(ms)[1..] == CanonicalMembers(ms[1..]);
    }
  }

  lemma {:induction false} SortMembersRearranges(ms: seq<Member>) returns (p: seq<nat>)
    ensures Rearranges(p, SortMembers(ms), ms)
  {
    p := SameElementsRearrange(Sort(MemberRanks(ms)), MemberRanks(ms));
  }

  lemma {:induction false} SortItemsRearranges(items: seq<Json>) returns (p: seq<nat>)
    ensures Rearranges(p, SortItems(items), items)
  {
    if AllKeyed(items) {
      p := SameElementsRearrange(Sort(ItemRanks(items)), ItemRanks(items));
    } else {
      p := seq(|items|, i => i);
    }
  }

  lemma {:induction false} RearrangedDistinctKeys(p: seq<nat>, ms: seq<Member>, ns: seq<Member>)
    requires DistinctKeys(ns) && Rearranges(p, ms, ns)
    ensures DistinctKeys(ms)
  {
    forall i, j | 0 <= i < j < |ms| ensures ms[i].key != ms[j].key {
      assert p[i] != p[j];
    }
  }

  lemma {:induction false} LookupSorted(ms: seq<Member>, key: string)
    requires DistinctKeys(ms)
    ensures Lookup(SortMembers(ms), key) == Lookup(ms, key)
  {
    var p := SortMembersRearranges(ms);
    RearrangedDistinctKeys(p, SortMembers(ms), ms);
    LookupRearranged(p, SortMembers(ms), ms, key);
  }

  lemma {:induction false} CanonicalKeepsSortKey(v: Json)
    requires Valid(v)
    ensures SortKey(Canonical(v)) == SortKey(v)
  {
    CanonicalUnfolds(v);
    if v.Object? {
      LookupSorted(CanonicalMembers(v.members), "$ref");
      LookupSorted(CanonicalMembers(v.members), "title");
      LookupCanonical(v.members, "$ref");
      LookupCanonical(v.members, "title");
    }
  }

  lemma {:induction false} CanonicalKeepsAllKeyed(items: seq<Json>)
    requires Valid(Array(items))
    ensures AllKeyed(CanonicalItems(items)) <==> AllKeyed(items)
  {
    forall i | 0 <= i < |items| ensures SortKey(CanonicalItems(items)[i]) == SortKey(items[i]) {
      CanonicalKeepsSortKey(items[i]);
    }
    assert AllKeyed(CanonicalItems(items)) ==> forall i :: 0 <= i < |items| ==> SortKey(CanonicalItems(items)[i]).Some?;
  }

  lemma {:induction false} CanonicalValid(v: Json)
    requires Valid(v)
    ensures Valid(Canonical(v))
  {
    CanonicalUnfolds(v);
    match v
    case Array(items) =>
      var cs := CanonicalItems(items);
      forall i | 0 <= i < |cs| ensures Valid(cs[i]) { CanonicalValid(items[i]); }
      var p := SortItemsRearranges(cs);
    case Object(ms) =>
      var cs := CanonicalMembers(ms);
      forall i | 0 <= i < |cs| ensures Valid(cs[i].val) { CanonicalValid(ms[i].val); }
      var p := SortMembersRearranges(cs);
      RearrangedDistinctKeys(p, SortMembers(cs), cs);
    case _ =>
  }

  // ----- canonical forms are equal exactly when the values are equivalent

  lemma {:induction false} ItemRanksDecisive(items: seq<Json>)
    requires AllKeyed(items) && forall i :: 0 <= i < |items| ==> Valid(items[i])
    ensures Decisive(ItemRanks(items))
  {
    var rs := ItemRanks(items);
    forall i, j | 0 <= i < |rs| && 0 <= j < |rs| && rs[i].key == rs[j].key && rs[i].tie == rs[j].tie
      ensures rs[i] == rs[j]
    {
      PrintInjective(items[i], items[j]);
    }
  }

  lemma {:induction false} CanonicalItemsDecisive(items: seq<Json>)
    requires Valid(Array(items)) && AllKeyed(CanonicalItems(items))
    ensures Decisive(ItemRanks(CanonicalItems(items)))
  {
    var cs := CanonicalItems(items);
    forall i | 0 <= i < |cs| ensures Valid(cs[i]) { CanonicalValid(items[i]); }
    ItemRanksDecisive(cs);
  }

  /** Rearranged keyed arrays sort to the same array. */
  lemma {:induction false} RearrangedItemsSortAlike(p: seq<nat>, xs: seq<Json>, ys: seq<Json>)
    requires Rearranges(p, xs, ys) && AllKeyed(xs) && AllKeyed(ys) && Decisive(ItemRanks(xs))
    ensures SortItems(xs) == SortItems(ys)
  {
    assert Rearranges(p, ItemRanks(xs), ItemRanks(ys));
    RearrangedSameElements(p, ItemRanks(xs), ItemRanks(ys));
    SortIgnoresOrder(ItemRanks(xs), ItemRanks(ys));
  }

  lemma {:induction false} RearrangedMembersSortAlike(p: seq<nat>, ms: seq<Member>, ns: seq<Member>)
    requires Rearranges(p, ms, ns) && DistinctKeys(ms)
    ensures SortMembers(ms) == SortMembers(ns)
  {
    assert Rearranges(p, MemberRanks(ms), MemberRanks(ns));
    RearrangedSameElements(p, MemberRanks(ms), MemberRanks(ns));
    SortIgnoresOrder(MemberRanks(ms), MemberRanks(ns));
  }

  lemma {:induction false} RearrangedAllKeyed(p: seq<nat>, xs: seq<Json>, ys: seq<Json>)
    requires Rearranges(p, xs, ys)
    ensures AllKeyed(xs) <==> AllKeyed(ys)
  {
    RearrangedSameElements(p, xs, ys);
    forall i | 0 <= i < |ys| ensures ys[i] in xs { assert ys[i] in multiset(xs); }
  }

  lemma {:induction false} RearrangedCanonicalItems(p: seq<nat>, xs: seq<Json>, ys: seq<Json>)
    requires Valid(Array(xs)) && AllKeyed(xs) && Rearranges(p, CanonicalItems(xs), CanonicalItems(ys))
    ensures SortItems(CanonicalItems(xs)) == SortItems(CanonicalItems(ys))
  {
    CanonicalKeepsAllKeyed(xs);
    RearrangedAllKeyed(p, CanonicalItems(xs), CanonicalItems(ys));
    CanonicalItemsDecisive(xs);
    RearrangedItemsSortAlike(p, CanonicalItems(xs), CanonicalItems(ys));
  }

  lemma {:induction false} EquivalentItemsSortAlike(xs: seq<Json>, ys: seq<Json>)
    requires Valid(Array(xs)) && Equivalent(Array(xs), Array(ys))
    requires forall i, j :: 0 <= i < |xs| && 0 <= j < |ys| && Equivalent(xs[i], ys[j]) ==>
             Canonical(xs[i]) == Canonical(ys[j])
    ensures SortItems(CanonicalItems(xs)) == SortItems(CanonicalItems(ys))
  {
    if AllKeyed(xs) {
      var p :| IsPermutation(p, |xs|) && forall i :: 0 <= i < |xs| ==> Equivalent(xs[i], Array(ys).items[p[i]]);
      RearrangedCanonicalItems(p, xs, ys);
    } else {
      assert CanonicalItems(xs) == CanonicalItems(ys);
    }
  }

  lemma {:induction false} EquivalentMembersSortAlike(ms: seq<Member>, ns: seq<Member>)
    requires Valid(Object(ms)) && Equivalent(Object(ms), Object(ns))
    requires forall i, j :: 0 <= i < |ms| && 0 <= j < |ns| && Equivalent(ms[i].val, ns[j].val) ==>
             Canonical(ms[i].val) == Canonical(ns[j].val)
    ensures SortMembers(CanonicalMembers(ms)) == SortMembers(CanonicalMembers(ns))
  {
    var b := Object(ns);
    var p :| IsPermutation(p, |ms|) &&
      forall i :: 0 <= i < |ms| ==> ms[i].key == b.members[p[i]].key && Equivalent(ms[i].val, b.members[p[i]].val);
    RearrangedMembersSortAlike(p, CanonicalMembers(ms), CanonicalMembers(ns));
  }

  lemma {:induction false} EquivalentSameCanonical(a: Json, b: Json)
    requires Valid(a) && Valid(b) && Equivalent(a, b)
    ensures Canonical(a) == Canonical(b)
    decreases a
  {
    CanonicalUnfolds(a);
    CanonicalUnfolds(b);
    match a
    case Array(xs) =>
      forall i, j | 0 <= i < |xs| && 0 <= j < |b.items| && Equivalent(xs[i], b.items[j])
        ensures Canonical(xs[i]) == Canonical(b.items[j])
      {
        EquivalentSameCanonical(xs[i], b.items[j]);
      }
      EquivalentItemsSortAlike(xs, b.items);
    case Object(ms) =>
      forall i, j | 0 <= i < |ms| && 0 <= j < |b.members| && Equivalent(ms[i].val, b.members[j].val)
        ensures Canonical(ms[i].val) == Canonical(b.members[j].val)
      {
        EquivalentSameCanonical(ms[i].val, b.members[j].val);
      }
      EquivalentMembersSortAlike(ms, b.members);
    case _ =>
  }

  /** Keyed arrays that sort to the same array are rearrangements of each other. */
  lemma {:induction false} SortAlikeRearranged(xs: seq<Json>, ys: seq<Json>) returns (p: seq<nat>)
    requires AllKeyed(xs) && AllKeyed(ys) && SortItems(xs) == SortItems(ys)
    ensures Rearranges(p, xs, ys)
  {
    var q := SortItemsRearranges(xs);
    var r := SortItemsRearranges(ys);
    RearrangedSameElements(q, SortItems(xs), xs);
    RearrangedSameElements(r, SortItems(ys), ys);
    p := SameElementsRearrange(xs, ys);
  }

  lemma {:induction false} SortAlikeMembersRearranged(ms: seq<Member>, ns: seq<Member>) returns (p: seq<nat>)
    requires SortMembers(ms) == SortMembers(ns)
    ensures Rearranges(p, ms, ns)
  {
    var q := SortMembersRearranges(ms);
    var r := SortMembersRearranges(ns);
    RearrangedSameElements(q, SortMembers(ms), ms);
    RearrangedSameElements(r, SortMembers(ns), ns);
    p := SameElementsRearrange(ms, ns);
  }

  lemma {:induction false} SortItemsKeepsAllKeyed(items: seq<Json>)
    ensures AllKeyed(SortItems(items)) <==> AllKeyed(items)
  {
    var p := SortItemsRearranges(items);
    RearrangedAllKeyed(p, SortItems(items), items);
  }

  lemma {:induction false} SameCanonicalEquivalent(a: Json, b: Json)
    requires Valid(a) && Valid(b) && Canonical(a) == Canonical(b)
    ensures Equivalent(a, b)
    decreases a
  {
    CanonicalUnfolds(a);
    CanonicalUnfolds(b);
    match a
    case Array(xs) =>
      var cx, cy := CanonicalItems(xs), CanonicalItems(b.items);
      SortItemsKeepsAllKeyed(cx);
      SortItemsKeepsAllKeyed(cy);
      CanonicalKeepsAllKeyed(xs);
      if AllKeyed(xs) {
        var p := SortAlikeRearranged(cx, cy);
        forall i | 0 <= i < |xs| ensures Equivalent(xs[i], b.items[p[i]]) {
          assert cx[i] == cy[p[i]];
          SameCanonicalEquivalent(xs[i], b.items[p[i]]);
        }
        assert IsPermutation(p, |xs|);
      } else {
        assert cx == cy;
        forall i | 0 <= i < |xs| ensures Equivalent(xs[i], b.items[i]) {
          assert cx[i] == cy[i];
          SameCanonicalEquivalent(xs[i], b.items[i]);
        }
      }
    case Object(ms) =>
      var cm, cn := CanonicalMembers(ms), CanonicalMembers(b.members);
      var p := SortAlikeMembersRearranged(cm, cn);
      forall i | 0 <= i < |ms| ensures ms[i].key == b.members[p[i]].key && Equivalent(ms[i].val, b.members[p[i]].val) {
        assert cm[i] == cn[p[i]];
        SameCanonicalEquivalent(ms[i].val, b.members[p[i]].val);
      }
      assert IsPermutation(p, |ms|);
    case _ =>
  }

  /** The canonical form decides the equivalence: equal canonical forms, equivalent values,
      and the other way round. */
  lemma {:induction false} CanonicalDecidesEquivalence(a: Json, b: Json)
    requires Valid(a) && Valid(b)
    ensures Canonical(a) == Canonical(b) <==> Equivalent(a, b)
  {
    if Canonical(a) == Canonical(b) {
      SameCanonicalEquivalent(a, b);
    }
    if Equivalent(a, b) {
      EquivalentSameCanonical(a, b);
    }
  }

  /** Members ascend by key and keyed arrays by sort key, then text, at every depth. */
  ghost predicate NormalForm(v: Json) {
    match v
    case Array(items) =>
      (AllKeyed(items) ==> Sorted(ItemRanks(items))) && forall i :: 0 <= i < |items| ==> NormalForm(items[i])
    case Object(ms) =>
      Sorted(MemberRanks(ms)) && forall i :: 0 <= i < |ms| ==> NormalForm(ms[i].val)
    case _ => true
  }

  lemma {:induction false} CanonicalNormalForm(v: Json)
    requires Valid(v)
    ensures NormalForm(Canonical(v))
  {
    CanonicalUnfolds(v);
    match v
    case Array(items) =>
      var cs := CanonicalItems(items);
      var p := SortItemsRearranges(cs);
      forall i | 0 <= i < |cs| ensures NormalForm(SortItems(cs)[i]) { CanonicalNormalForm(items[p[i]]); }
      SortItemsKeepsAllKeyed(cs);
      if AllKeyed(cs) { SortedItemsAscend(cs); }
    case Object(ms) =>
      var cs := CanonicalMembers(ms);
      var p := SortMembersRearranges(cs);
      forall i | 0 <= i < |cs| ensures NormalForm(SortMembers(cs)[i].val) { CanonicalNormalForm(ms[p[i]].val); }
      SortedMembersAscend(cs);
    case _ =>
  }

  lemma {:induction false} SortedItemsAscend(items: seq<Json>)
    requires AllKeyed(items) && AllKeyed(SortItems(items))
    ensures Sorted(ItemRanks(SortItems(items)))
  {
    var rs := Sort(ItemRanks(items));
    SortSorted(ItemRanks(items));
    forall i | 0 <= i < |rs| ensures ItemRanks(SortItems(items))[i] == rs[i] {
      assert rs[i] in multiset(rs) && rs[i] in ItemRanks(items);
    }
  }

  lemma {:induction false} SortedMembersAscend(ms: seq<Member>)
    ensures Sorted(MemberRanks(SortMembers(ms)))
  {
    var rs := Sort(MemberRanks(ms));
    SortSorted(MemberRanks(ms));
    forall i | 0 <= i < |rs| ensures MemberRanks(SortMembers(ms))[i] == rs[i] {
      assert rs[i] in multiset(rs) && rs[i] in MemberRanks(ms);
    }
  }

  lemma {:induction false} NormalFormFixed(v: Json)
    requires Valid(v) && NormalForm(v)
    ensures Canonical(v) == v
  {
    CanonicalUnfolds(v);
    match v
    case Array(items) =>
      forall i | 0 <= i < |items| ensures CanonicalItems(items)[i] == items[i] { NormalFormFixed(items[i]); }
      assert CanonicalItems(items) == items;
      if AllKeyed(items) {
        CanonicalItemsDecisive(items);
        SortSorted(ItemRanks(items));
        SortedUnique(ItemRanks(items), Sort(ItemRanks(items)));
      }
    case Object(ms) =>
      forall i | 0 <= i < |ms| ensures CanonicalMembers(ms)[i] == ms[i] { NormalFormFixed(ms[i].val); }
      assert CanonicalMembers(ms) == ms;
      SortSorted(MemberRanks(ms));
      SortedUnique(MemberRanks(ms), Sort(MemberRanks(ms)));
    case _ =>
  }

  /** Canonicalising a canonical form changes nothing. */
  lemma {:induction false} CanonicalIdempotent(v: Json)
    requires Valid(v)
    ensures Canonical(Canonical(v)) == Canonical(v)
  {
    CanonicalNormalForm(v);
    CanonicalValid(v);
    NormalFormFixed(Canonical(v));
  }

  /** The canonical form is the one equivalent value in normal form. */
  lemma {:induction false} CanonicalIsTheNormalForm(v: Json, n: Json)
    requires Valid(v) && Valid(n)
    ensures n == Canonical(v) <==> NormalForm(n) && Equivalent(v, n)
  {
    CanonicalNormalForm(v);
    CanonicalDecidesEquivalence(v, n);
    if NormalForm(n) { NormalFormFixed(n); }
    if n == Canonical(v) { CanonicalIdempotent(v); }
  }

  /** A value is equivalent to its canonical form, and equivalence is an equivalence relation. */
  lemma {:induction false} EquivalenceLaws(a: Json, b: Json, c: Json)
    requires Valid(a) && Valid(b) && Valid(c)
    ensures Equivalent(a, Canonical(a))
    ensures Equivalent(a, a)
    ensures Equivalent(a, b) ==> Equivalent(b, a)
    ensures Equivalent(a, b) && Equivalent(b, c) ==> Equivalent(a, c)
  {
    CanonicalIdempotent(a);
    CanonicalValid(a);
    CanonicalDecidesEquivalence(a, Canonical(a));
    CanonicalDecidesEquivalence(a, a);
    CanonicalDecidesEquivalence(a, b);
    CanonicalDecidesEquivalence(b, a);
    CanonicalDecidesEquivalence(b, c);
    CanonicalDecidesEquivalence(a, c);
  }

  // ----- the canonicaliser as it runs

  function CanonicalRanks(rs: seq<Ranked<Json>>): (r: seq<Ranked<Json>>)
    ensures |r| == |rs| && forall i :: 0 <= i < |r| ==> r[i] == rs[i].(val := Canonical(rs[i].val))
  {
    seq(|rs|, i requires 0 <= i < |rs| => rs[i].(val := Canonical(rs[i].val)))
  }

  lemma {:induction false} InsertThenCanonical(x: Ranked<Json>, rs: seq<Ranked<Json>>)
    ensures CanonicalRanks(Insert(x, rs)) == Insert(x.(val := Canonical(x.val)), CanonicalRanks(rs))
  {
    var y, cs := x.(val := Canonical(x.val)), CanonicalRanks(rs);
    if rs == [] {
    } else if RankLe(x, rs[0]) {
      assert RankLe(y, cs[0]);
    } else {
      assert !RankLe(y, cs[0]);
      InsertThenCanonical(x, rs[1..]);
      assert CanonicalRanks(rs[1..]) == cs[1..];
      assert Insert(x, rs) == [rs[0]] + Insert(x, rs[1..]);
    }
  }

  /** Sorting members and then canonicalising their values is canonicalising and then sorting. */
  lemma {:induction false} SortThenCanonical(rs: seq<Ranked<Json>>)
    ensures CanonicalRanks(Sort(rs)) == Sort(CanonicalRanks(rs))
  {
    if rs != [] {
      SortThenCanonical(rs[1..]);
      InsertThenCanonical(rs[0], Sort(rs[1..]));
      assert CanonicalRanks(rs[1..]) == CanonicalRanks(rs)[1..];
    }
  }

  /** Map insertion: replaces the value of a key that is there, appends one that is not. */
  function InsertMember(ms: seq<Member>, m: Member): (r: seq<Member>)
    ensures (forall i :: 0 <= i < |ms| ==> ms[i].key != m.key) ==> r == ms + [m]
  {
    if ms == [] then [m]
    else if ms[0].key == m.key then [m] + ms[1..]
    else [ms[0]] + InsertMember(ms[1..], m)
  }

  lemma {:induction false} SortedMemberRanks(ms: seq<Member>)
    requires DistinctKeys(ms)
    ensures var es := Sort(MemberRanks(ms));
            && (forall i :: 0 <= i < |es| ==> Member(es[i].key, es[i].val) in ms)
            && (forall i, j :: 0 <= i < j < |es| ==> es[i].key != es[j].key)
            && SortMembers(CanonicalMembers(ms)) == Members(CanonicalRanks(es))
  {
    var p := SortMembersRearranges(ms);
    RearrangedDistinctKeys(p, SortMembers(ms), ms);
    var es := Sort(MemberRanks(ms));
    assert forall i :: 0 <= i < |es| ==> SortMembers(ms)[i] == Member(es[i].key, es[i].val);
    SortThenCanonical(MemberRanks(ms));
    assert MemberRanks(CanonicalMembers(ms)) == CanonicalRanks(MemberRanks(ms));
  }

  /** Ranks the items one by one, giving up on the first without a sort key. */
  method SortKeyed(items: seq<Json>) returns (r: Json)
    ensures r == Array(SortItems(items))
  {
    var sortable: seq<Ranked<Json>> := [];
    for i := 0 to |items|
      invariant |sortable| == i
      invariant forall j :: 0 <= j < i ==> SortKey(items[j]).Some? && sortable[j] == ItemRank(items[j])
    {
      var key := SortKey(items[i]);
      if key.None? {
        return Array(items);
      }
      sortable := sortable + [Ranked(key.value, Print(items[i]), items[i])];
    }
    assert sortable == ItemRanks(items);
    r := Array(Values(Sort(sortable)));
  }

  method CanonicalizeAll(items: seq<Json>) returns (canonical: seq<Json>)
    requires Valid(Array(items))
    ensures canonical == CanonicalItems(items)
    decreases items, 0
  {
    canonical := [];
    for i := 0 to |items|
      invariant |canonical| == i
      invariant forall j :: 0 <= j < i ==> canonical[j] == Canonical(items[j])
    {
      var item := CanonicalizeJson(items[i]);
      canonical := canonical + [item];
    }
  }

  method CanonicalizeEntries(ms: seq<Member>, entries: seq<Ranked<Json>>) returns (sorted: seq<Member>)
    requires forall i :: 0 <= i < |ms| ==> Valid(ms[i].val)
    requires forall i :: 0 <= i < |entries| ==> Member(entries[i].key, entries[i].val) in ms
    requires forall i, j :: 0 <= i < j < |entries| ==> entries[i].key != entries[j].key
    ensures sorted == Members(CanonicalRanks(entries))
    decreases ms, 0
  {
    sorted := [];
    for i := 0 to |entries|
      invariant |sorted| == i
      invariant forall j :: 0 <= j < i ==> sorted[j] == Member(entries[j].key, Canonical(entries[j].val))
    {
      var m := Member(entries[i].key, entries[i].val);
      assert m in ms;
      var child := CanonicalizeJson(m.val);
      sorted := InsertMember(sorted, Member(m.key, child));
    }
  }

  method CanonicalizeJson(value: Json) returns (r: Json)
    requires Valid(value)
    ensures r == Canonical(value)
    decreases value, 1
  {
    CanonicalUnfolds(value);
    match value
    case Array(items) =>
      var canonical := CanonicalizeAll(items);
      r := SortKeyed(canonical);
    case Object(ms) =>
      SortedMemberRanks(ms);
      var sorted := CanonicalizeEntries(ms, Sort(MemberRanks(ms)));
      r := Object(sorted);
    case _ => r := value;
  }
}
