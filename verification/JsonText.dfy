/** JSON values as serde_json holds them, and the compact text it prints for them
    (the grammar of RFC 8259, section 2, with no insignificant whitespace). */
module JsonText {
  import opened Basics

  /** `Number` holds the token the number prints as; `Object` keeps its members in
      insertion order, as a map built with `preserve_order` does. */
  datatype Json =
    | Null
    | Bool(b: bool)
    | Number(token: string)
    | String(s: string)
    | Array(items: seq<Json>)
    | Object(members: seq<Member>)

  datatype Member = Member(key: string, val: Json)

  predicate NumberChar(c: char) {
    '0' <= c <= '9' || c == '-' || c == '+' || c == '.' || c == 'e' || c == 'E'
  }

  predicate NumberToken(t: string) {
    && t != []
    && (t[0] == '-' || '0' <= t[0] <= '9')
    && forall i :: 0 <= i < |t| ==> NumberChar(t[i])
  }

  predicate DistinctKeys(ms: seq<Member>) {
    forall i, j :: 0 <= i < j < |ms| ==> ms[i].key != ms[j].key
  }

  /** What serde_json's types guarantee: numbers print as number tokens and an object
      has no key twice. */
  predicate Valid(v: Json) {
    match v
    case Number(t) => NumberToken(t)
    case Array(items) => forall i :: 0 <= i < |items| ==> Valid(items[i])
    case Object(ms) => DistinctKeys(ms) && forall i :: 0 <= i < |ms| ==> Valid(ms[i].val)
    case _ => true
  }

  // ----- the printer

  function HexDigit(d: int): (c: char)
    requires 0 <= d < 16
    ensures c != '"'
  {
    if d < 10 then '0' + d as char else 'a' + (d - 10) as char
  }

  function Escape(c: char): (r: string)
    ensures r != [] && r[0] != '"'
  {
    if c == '"' then ['\\', '"']
    else if c == '\\' then ['\\', '\\']
    else if c == '\U{8}' then ['\\', 'b']
    else if c == '\U{C}' then ['\\', 'f']
    else if c == '\n' then ['\\', 'n']
    else if c == '\r' then ['\\', 'r']
    else if c == '\t' then ['\\', 't']
    else if c < ' ' then ['\\', 'u', '0', '0', HexDigit(c as int / 16), HexDigit(c as int % 16)]
    else [c]
  }

  /** The body of a string literal and its closing quote. */
  function Quoted(s: string): (r: string)
    ensures r != [] && (r[0] == '"' <==> s == [])
  {
    if s == [] then "\"" else Escape(s[0]) + Quoted(s[1..])
  }

  function Print(v: Json): (r: string)
    decreases v, 1
  {
    match v
    case Null => "null"
    case Bool(b) => if b then "true" else "false"
    case Number(t) => t
    case String(s) => ['"'] + Quoted(s)
    case Array(items) =>
      ['['] + (if items == [] then [']'] else Print(items[0]) + PrintItems(items[1..]))
    case Object(ms) =>
      ['{'] + (if ms == [] then ['}'] else PrintMember(ms[0]) + PrintMembers(ms[1..]))
  }

  /** The items after the first, with the closing bracket. */
  function PrintItems(items: seq<Json>): (r: string)
    ensures r != [] && r[0] == if items == [] then ']' else ','
    decreases items, 0
  {
    if items == [] then [']'] else [','] + (Print(items[0]) + PrintItems(items[1..]))
  }

  function PrintMember(m: Member): (r: string)
    ensures r != [] && r[0] == '"'
    decreases m, 0
  {
    ['"'] + (Quoted(m.key) + ([':'] + Print(m.val)))
  }

  /** The members after the first, with the closing brace. */
  function PrintMembers(ms: seq<Member>): (r: string)
    ensures r != [] && r[0] == if ms == [] then '}' else ','
    decreases ms, 0
  {
    if ms == [] then ['}'] else [','] + (PrintMember(ms[0]) + PrintMembers(ms[1..]))
  }

  // ----- the printer is unambiguous

  /** Text that can follow a value: it does not go on with a number character. */
  predicate Follows(u: string) {
    u == [] || !NumberChar(u[0])
  }

  lemma {:induction false} SameTail(p: string, u: string, q: string, v: string)
    requires p + u == q + v && |p| == |q|
    ensures p == q && u == v
  {
    assert p == (p + u)[..|p|] && q == (q + v)[..|q|];
    assert u == (p + u)[|p|..] && v == (q + v)[|q|..];
  }

  lemma {:induction false} EscapeUnambiguous(c: char, d: char, u: string, v: string)
    requires Escape(c) + u == Escape(d) + v
    ensures c == d && u == v
  {
    var e, f := Escape(c), Escape(d);
    var x, y := e + u, f + v;
    assert x[0] == e[0] && y[0] == f[0];
    if |e| > 1 && |f| > 1 {
      assert x[1] == e[1] && y[1] == f[1];
      if |e| == 6 {
        assert x[4] == e[4] && y[4] == f[4] && x[5] == e[5] && y[5] == f[5];
      }
    }
    assert c == d;
    SameTail(e, u, f, v);
  }

  lemma {:induction false} QuotedUnambiguous(s: string, t: string, u: string, v: string)
    requires Quoted(s) + u == Quoted(t) + v
    ensures s == t && u == v
  {
    assert (Quoted(s) + u)[0] == Quoted(s)[0] && (Quoted(t) + v)[0] == Quoted(t)[0];
    assert s == [] <==> t == [];
    if s == [] {
      SameTail(Quoted(s), u, Quoted(t), v);
    } else {
      Regroup(Escape(s[0]), Quoted(s[1..]), u);
      Regroup(Escape(t[0]), Quoted(t[1..]), v);
      EscapeUnambiguous(s[0], t[0], Quoted(s[1..]) + u, Quoted(t[1..]) + v);
      QuotedUnambiguous(s[1..], t[1..], u, v);
      assert s == [s[0]] + s[1..] && t == [t[0]] + t[1..];
    }
  }

  lemma {:induction false} NumberUnambiguous(s: string, t: string, u: string, v: string)
    requires forall i :: 0 <= i < |s| ==> NumberChar(s[i])
    requires forall i :: 0 <= i < |t| ==> NumberChar(t[i])
    requires Follows(u) && Follows(v) && s + u == t + v
    ensures s == t && u == v
  {
    var w := s + u;
    assert forall i :: 0 <= i < |s| ==> w[i] == s[i];
    assert forall i :: 0 <= i < |t| ==> w[i] == t[i];
    assert u != [] ==> w[|s|] == u[0];
    assert v != [] ==> w[|t|] == v[0];
    SameTail(s, u, t, v);
  }

  /** The character a value's text opens with tells which kind of value it is. */
  predicate OpensAs(v: Json, c: char) {
    match v
    case Null => c == 'n'
    case Bool(b) => c == if b then 't' else 'f'
    case Number(_) => c == '-' || '0' <= c <= '9'
    case String(_) => c == '"'
    case Array(_) => c == '['
    case Object(_) => c == '{'
  }

  lemma {:induction false} Opening(v: Json, u: string)
    requires Valid(v)
    ensures Print(v) != [] && (Print(v) + u)[0] == Print(v)[0] && OpensAs(v, Print(v)[0])
  {
  }

  /** Two values whose texts, followed by anything a value can be followed by, are the
      same text are the same value. */
  lemma {:induction false} PrintUnambiguous(a: Json, b: Json, u: string, v: string)
    requires Valid(a) && Valid(b) && Follows(u) && Follows(v)
    requires Print(a) + u == Print(b) + v
    ensures a == b && u == v
    decreases a, 2
  {
    Opening(a, u);
    Opening(b, v);
    match a
    case Null => SameTail(Print(a), u, Print(b), v);
    case Bool(_) => SameTail(Print(a), u, Print(b), v);
    case Number(s) => NumberUnambiguous(s, b.token, u, v);
    case String(s) =>
      Regroup(['"'], Quoted(s), u);
      Regroup(['"'], Quoted(b.s), v);
      SameTail(['"'], Quoted(s) + u, ['"'], Quoted(b.s) + v);
      QuotedUnambiguous(s, b.s, u, v);
    case Array(items) =>
      ArrayUnambiguous(items, b.items, u, v);
    case Object(ms) =>
      ObjectUnambiguous(ms, b.members, u, v);
  }

  lemma {:induction false} ArrayUnambiguous(xs: seq<Json>, ys: seq<Json>, u: string, v: string)
    requires Valid(Array(xs)) && Valid(Array(ys))
    requires Print(Array(xs)) + u == Print(Array(ys)) + v
    ensures xs == ys && u == v
    decreases xs, 1
  {
    var l := if xs == [] then [']'] else Print(xs[0]) + PrintItems(xs[1..]);
    var r := if ys == [] then [']'] else Print(ys[0]) + PrintItems(ys[1..]);
    Regroup(['['], l, u);
    Regroup(['['], r, v);
    SameTail(['['], l + u, ['['], r + v);
    if xs != [] { Opening(xs[0], PrintItems(xs[1..])); }
    if ys != [] { Opening(ys[0], PrintItems(ys[1..])); }
    assert (l + u)[0] == l[0] && (r + v)[0] == r[0];
    assert xs == [] <==> ys == [];
    if xs == [] {
      SameTail(l, u, r, v);
    } else {
      ItemsUnambiguous(xs, ys, u, v);
    }
  }

  lemma {:induction false} ItemsUnambiguous(xs: seq<Json>, ys: seq<Json>, u: string, v: string)
    requires xs != [] && ys != []
    requires forall i :: 0 <= i < |xs| ==> Valid(xs[i])
    requires forall i :: 0 <= i < |ys| ==> Valid(ys[i])
    requires (Print(xs[0]) + PrintItems(xs[1..])) + u == (Print(ys[0]) + PrintItems(ys[1..])) + v
    ensures xs == ys && u == v
    decreases xs, 0
  {
    var xt, yt := PrintItems(xs[1..]), PrintItems(ys[1..]);
    Regroup(Print(xs[0]), xt, u);
    Regroup(Print(ys[0]), yt, v);
    assert (xt + u)[0] == xt[0] && (yt + v)[0] == yt[0];
    PrintUnambiguous(xs[0], ys[0], xt + u, yt + v);
    assert xs == [xs[0]] + xs[1..] && ys == [ys[0]] + ys[1..];
    if xs[1..] == [] {
      SameTail(xt, u, yt, v);
    } else {
      var xr, yr := Print(xs[1]) + PrintItems(xs[1..][1..]), Print(ys[1]) + PrintItems(ys[1..][1..]);
      Regroup([','], xr, u);
      Regroup([','], yr, v);
      SameTail([','], xr + u, [','], yr + v);
      ItemsUnambiguous(xs[1..], ys[1..], u, v);
    }
  }

  lemma {:induction false} MemberUnambiguous(m: Member, n: Member, u: string, v: string)
    requires Valid(m.val) && Valid(n.val) && Follows(u) && Follows(v)
    requires PrintMember(m) + u == PrintMember(n) + v
    ensures m == n && u == v
    decreases m, 3
  {
    var l, r := [':'] + Print(m.val), [':'] + Print(n.val);
    Regroup(['"'], Quoted(m.key) + l, u);
    Regroup(['"'], Quoted(n.key) + r, v);
    SameTail(['"'], (Quoted(m.key) + l) + u, ['"'], (Quoted(n.key) + r) + v);
    Regroup(Quoted(m.key), l, u);
    Regroup(Quoted(n.key), r, v);
    QuotedUnambiguous(m.key, n.key, l + u, r + v);
    Regroup([':'], Print(m.val), u);
    Regroup([':'], Print(n.val), v);
    SameTail([':'], Print(m.val) + u, [':'], Print(n.val) + v);
    PrintUnambiguous(m.val, n.val, u, v);
  }

  lemma {:induction false} ObjectUnambiguous(ms: seq<Member>, ns: seq<Member>, u: string, v: string)
    requires Valid(Object(ms)) && Valid(Object(ns))
    requires Print(Object(ms)) + u == Print(Object(ns)) + v
    ensures ms == ns && u == v
    decreases ms, 1
  {
    var l := if ms == [] then ['}'] else PrintMember(ms[0]) + PrintMembers(ms[1..]);
    var r := if ns == [] then ['}'] else PrintMember(ns[0]) + PrintMembers(ns[1..]);
    Regroup(['{'], l, u);
    Regroup(['{'], r, v);
    SameTail(['{'], l + u, ['{'], r + v);
    assert (l + u)[0] == l[0] && (r + v)[0] == r[0];
    assert ms == [] <==> ns == [];
    if ms == [] {
      SameTail(l, u, r, v);
    } else {
      MembersUnambiguous(ms, ns, u, v);
    }
  }

  lemma {:induction false} MembersUnambiguous(ms: seq<Member>, ns: seq<Member>, u: string, v: string)
    requires ms != [] && ns != []
    requires forall i :: 0 <= i < |ms| ==> Valid(ms[i].val)
    requires forall i :: 0 <= i < |ns| ==> Valid(ns[i].val)
    requires (PrintMember(ms[0]) + PrintMembers(ms[1..])) + u == (PrintMember(ns[0]) + PrintMembers(ns[1..])) + v
    ensures ms == ns && u == v
    decreases ms, 0
  {
    var mt, nt := PrintMembers(ms[1..]), PrintMembers(ns[1..]);
    Regroup(PrintMember(ms[0]), mt, u);
    Regroup(PrintMember(ns[0]), nt, v);
    assert (mt + u)[0] == mt[0] && (nt + v)[0] == nt[0];
    MemberUnambiguous(ms[0], ns[0], mt + u, nt + v);
    assert ms == [ms[0]] + ms[1..] && ns == [ns[0]] + ns[1..];
    if ms[1..] == [] {
      SameTail(mt, u, nt, v);
    } else {
      var mr, nr := PrintMember(ms[1]) + PrintMembers(ms[1..][1..]), PrintMember(ns[1]) + PrintMembers(ns[1..][1..]);
      Regroup([','], mr, u);
      Regroup([','], nr, v);
      SameTail([','], mr + u, [','], nr + v);
      MembersUnambiguous(ms[1..], ns[1..], u, v);
    }
  }

  /** The compact text determines the value. */
  lemma {:induction false} PrintInjective(a: Json, b: Json)
    requires Valid(a) && Valid(b)
    ensures Print(a) == Print(b) <==> a == b
  {
    if Print(a) == Print(b) {
      assert Print(a) + [] == Print(b) + [];
      PrintUnambiguous(a, b, [], []);
    }
  }
}
