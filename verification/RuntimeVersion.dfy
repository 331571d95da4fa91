/** Release versions of the runtime: the normalised package form, the release form and
    the release tag. */
module RuntimeVersion {

  // ----- strings

  /** The characters Python's `str.strip` removes. */
  predicate IsSpace(c: char) {
    var n := c as int;
    9 <= n <= 13 || 28 <= n <= 32 || n == 0x85 || n == 0xA0 || n == 0x1680 || 0x2000 <= n <= 0x200A ||
    n == 0x2028 || n == 0x2029 || n == 0x202F || n == 0x205F || n == 0x3000
  }

  predicate IsDigit(c: char) {
    '0' <= c <= '9'
  }

  function StripStart(s: string): (r: string)
    ensures |r| <= |s|
    ensures r == s || (s != [] && IsSpace(s[0]))
    ensures r != [] ==> s[|s| - |r|..] == r
  {
    if s != [] && IsSpace(s[0]) then StripStart(s[1..]) else s
  }

  function StripEnd(s: string): (r: string)
    ensures r <= s
    ensures r != [] ==> !IsSpace(r[|r| - 1])
    ensures s == [] || !IsSpace(s[|s| - 1]) ==> r == s
  {
    if s != [] && IsSpace(s[|s| - 1]) then StripEnd(s[..|s| - 1]) else s
  }

  function Strip(s: string): (r: string) {
    StripEnd(StripStart(s))
  }

  predicate EndsWith(s: string, t: string) {
    |t| <= |s| && s[|s| - |t|..] == t
  }

  /** Where the digits at the end of `s` start. */
  function DigitsAt(s: string): (k: nat)
    ensures k <= |s|
    ensures forall i :: k <= i < |s| ==> IsDigit(s[i])
    ensures k > 0 ==> !IsDigit(s[k - 1])
  {
    if s != [] && IsDigit(s[|s| - 1]) then DigitsAt(s[..|s| - 1]) else |s|
  }

  predicate AllDigits(s: string) {
    forall i :: 0 <= i < |s| ==> IsDigit(s[i])
  }

  lemma {:induction false} DigitsOf(stem: string, digits: string)
    requires AllDigits(digits) && (stem == [] || !IsDigit(stem[|stem| - 1]))
    ensures DigitsAt(stem + digits) == |stem|
    ensures (stem + digits)[..|stem|] == stem && (stem + digits)[|stem|..] == digits
  {
    var s := stem + digits;
    var k := DigitsAt(s);
    assert forall i :: 0 <= i < |stem| ==> s[i] == stem[i];
    assert forall i :: |stem| <= i < |s| ==> s[i] == digits[i - |stem|];
  }

  // ----- the three pre-release spellings

  /** A pre-release stage: its dashed name, e.g. `-alpha`, and its package suffix, e.g. `a`. */
  datatype Stage = Alpha | Beta | Rc

  function Dashed(g: Stage): (r: string)
    ensures |r| >= 3 && r[0] == '-'
    ensures forall i :: 0 <= i < |r| ==> !IsDigit(r[i]) && r[i] != '.' && !IsSpace(r[i])
  {
    match g case Alpha => "-alpha" case Beta => "-beta" case Rc => "-rc"
  }

  function Suffix(g: Stage): (r: string)
    ensures 1 <= |r| < |Dashed(g)|
    ensures forall i :: 0 <= i < |r| ==> !IsDigit(r[i]) && r[i] != '.' && r[i] != '-' && !IsSpace(r[i])
  {
    match g case Alpha => "a" case Beta => "b" case Rc => "rc"
  }

  /** `stem` ends in the dashed stage name, with or without a dot. */
  predicate HasDashed(g: Stage, stem: string) {
    EndsWith(stem, Dashed(g)) || EndsWith(stem, Dashed(g) + ['.'])
  }

  /** The stem with its dashed stage name, if it ends in one, replaced by the suffix. */
  function Shortened(g: Stage, stem: string): (r: string)
    ensures HasDashed(g, stem) ==> |r| < |stem| && EndsWith(r, Suffix(g))
    ensures !HasDashed(g, stem) ==> r == stem
  {
    if EndsWith(stem, Dashed(g)) then stem[..|stem| - |Dashed(g)|] + Suffix(g)
    else if EndsWith(stem, Dashed(g) + ['.']) then stem[..|stem| - |Dashed(g)| - 1] + Suffix(g)
    else stem
  }

  /** `version` ends in the dashed stage name, an optional dot, and digits. */
  predicate DashedSuffix(g: Stage, version: string) {
    DigitsAt(version) < |version| && HasDashed(g, version[..DigitsAt(version)])
  }

  /** The substitution of the dashed spelling by the package suffix; the anchored pattern
      can match in one place only. */
  function Substitute(g: Stage, version: string): (r: string) {
    var k := DigitsAt(version);
    if k == |version| then version else Shortened(g, version[..k]) + version[k..]
  }

  function SubstituteAll(version: string): (r: string) {
    Substitute(Rc, Substitute(Beta, Substitute(Alpha, version)))
  }

  const TAG_PREFIX := "rust-v"

  predicate HasPrefix(s: string) {
    TAG_PREFIX <= s || "v" <= s
  }

  function WithoutPrefix(s: string): (r: string)
    ensures HasPrefix(s) ==> |r| < |s|
    ensures !HasPrefix(s) ==> r == s
    ensures r != [] ==> r[|r| - 1] == s[|s| - 1]
  {
    if TAG_PREFIX <= s then s[6..] else if "v" <= s then s[1..] else s
  }

  function NormalizedPackageVersion(version: string): (r: string) {
    SubstituteAll(WithoutPrefix(Strip(version)))
  }

  /** `[0-9]+(\.[0-9]+)*` */
  predicate DottedDigits(s: string) {
    && s != [] && IsDigit(s[0]) && IsDigit(s[|s| - 1])
    && (forall i :: 0 <= i < |s| ==> IsDigit(s[i]) || s[i] == '.')
    && (forall i :: 0 < i < |s| ==> IsDigit(s[i - 1]) || IsDigit(s[i]))
  }

  /** `version` is dotted digits, the suffix of the stage, and digits. */
  predicate IsPrerelease(g: Stage, version: string) {
    var k := DigitsAt(version);
    k < |version| && EndsWith(version[..k], Suffix(g)) && DottedDigits(version[..k - |Suffix(g)|])
  }

  function StageOf(version: string): (r: (bool, Stage))
    ensures r.0 ==> IsPrerelease(r.1, version)
    ensures !r.0 ==> forall g :: !IsPrerelease(g, version)
  {
    if IsPrerelease(Alpha, version) then (true, Alpha)
    else if IsPrerelease(Beta, version) then (true, Beta)
    else if IsPrerelease(Rc, version) then (true, Rc)
    else (false, Rc)
  }

  /** The release spelling of a pre-release in stage `g`. */
  function Spelled(g: Stage, version: string): (r: string)
    requires IsPrerelease(g, version)
  {
    var k := DigitsAt(version);
    (version[..k - |Suffix(g)|] + (Dashed(g) + ['.'])) + version[k..]
  }

  function ReleaseForm(normalized: string): (r: string) {
    var (found, g) := StageOf(normalized);
    if found then Spelled(g, normalized) else normalized
  }

  function CodexReleaseVersion(version: string): (r: string) {
    ReleaseForm(NormalizedPackageVersion(version))
  }

  function ReleaseTag(version: string): (r: string) {
    TAG_PREFIX + CodexReleaseVersion(version)
  }

  // ----- substitution

  predicate NoTrailingDigit(stem: string) {
    stem == [] || !IsDigit(stem[|stem| - 1])
  }

  lemma {:induction false} EndsWithLetters(s: string, t: string)
    ensures EndsWith(s, t) ==> forall i :: 0 <= i < |t| ==> s[|s| - |t| + i] == t[i]
  {
    if EndsWith(s, t) {
      forall i | 0 <= i < |t| ensures s[|s| - |t| + i] == t[i] {
        assert s[|s| - |t|..][i] == t[i];
      }
    }
  }

  lemma {:induction false} ShortenedEnds(g: Stage, stem: string)
    requires NoTrailingDigit(stem)
    ensures NoTrailingDigit(Shortened(g, stem))
  {
    EndsWithLetters(Shortened(g, stem), Suffix(g));
  }

  lemma {:induction false} SubstituteParts(g: Stage, stem: string, digits: string)
    requires NoTrailingDigit(stem) && AllDigits(digits) && digits != []
    ensures Substitute(g, stem + digits) == Shortened(g, stem) + digits
    ensures DashedSuffix(g, stem + digits) <==> HasDashed(g, stem)
  {
    DigitsOf(stem, digits);
  }

  function ShortenedAll(stem: string): string {
    Shortened(Rc, Shortened(Beta, Shortened(Alpha, stem)))
  }

  lemma {:induction false} SubstituteAllParts(stem: string, digits: string)
    requires NoTrailingDigit(stem) && AllDigits(digits) && digits != []
    ensures SubstituteAll(stem + digits) == ShortenedAll(stem) + digits
  {
    SubstituteParts(Alpha, stem, digits);
    var a := Shortened(Alpha, stem);
    ShortenedEnds(Alpha, stem);
    SubstituteParts(Beta, a, digits);
    ShortenedEnds(Beta, a);
    SubstituteParts(Rc, Shortened(Beta, a), digits);
  }

  /** Versions the substitutions leave alone. */
  predicate Undashed(version: string) {
    forall g :: !DashedSuffix(g, version)
  }

  lemma {:induction false} SubstituteAllFixed(version: string)
    ensures SubstituteAll(version) == version <==> Undashed(version)
  {
    var k := DigitsAt(version);
    if k < |version| {
      var stem, digits := version[..k], version[k..];
      assert version == stem + digits;
      SubstituteAllParts(stem, digits);
      var a := Shortened(Alpha, stem);
      var b := Shortened(Beta, a);
      assert |ShortenedAll(stem)| <= |b| <= |a| <= |stem|;
      if SubstituteAll(version) == version {
        assert |ShortenedAll(stem)| == |stem|;
        forall g ensures !DashedSuffix(g, version) { match g case Alpha => case Beta => case Rc => }
      } else {
        assert HasDashed(Alpha, stem) || HasDashed(Beta, stem) || HasDashed(Rc, stem);
        if HasDashed(Alpha, stem) { assert DashedSuffix(Alpha, version); }
        if HasDashed(Beta, stem) { assert DashedSuffix(Beta, version); }
        if HasDashed(Rc, stem) { assert DashedSuffix(Rc, version); }
      }
    }
  }

  lemma {:induction false} NoDash(stem: string)
    requires forall i :: 0 <= i < |stem| ==> stem[i] != '-'
    ensures forall g :: !HasDashed(g, stem)
  {
    forall g ensures !HasDashed(g, stem) {
      EndsWithLetters(stem, Dashed(g));
      EndsWithLetters(stem, Dashed(g) + ['.']);
      assert Dashed(g)[0] == '-' && (Dashed(g) + ['.'])[0] == '-';
    }
  }

  lemma {:induction false} NoDashUndashed(version: string)
    requires forall i :: 0 <= i < |version| ==> version[i] != '-'
    ensures Undashed(version)
  {
    NoDash(version[..DigitsAt(version)]);
  }

  /** The last letter but one tells the stage names apart. */
  function Mark(g: Stage): (c: char)
    ensures c == Dashed(g)[|Dashed(g)| - 2]
  {
    match g case Alpha => 'h' case Beta => 't' case Rc => 'r'
  }

  lemma {:induction false} DotEnds(base: string, g: Stage, h: Stage)
    ensures !EndsWith(base + (Dashed(g) + ['.']), Dashed(h))
  {
    var stem := base + (Dashed(g) + ['.']);
    EndsWithLetters(stem, Dashed(h));
    assert stem[|stem| - 1] == '.';
    assert Dashed(h)[|Dashed(h)| - 1] != '.';
  }

  lemma {:induction false} DottedStage(g: Stage, h: Stage, base: string)
    ensures HasDashed(h, base + (Dashed(g) + ['.'])) <==> g == h
  {
    var name := Dashed(g) + ['.'];
    var stem := base + name;
    DotEnds(base, g, h);
    if g == h {
      assert stem[|base|..] == name;
    } else {
      var other := Dashed(h) + ['.'];
      EndsWithLetters(stem, other);
      assert other[|other| - 3] == Mark(h);
      assert stem[|stem| - 3] == name[|name| - 3] == Mark(g);
    }
  }

  lemma {:induction false} ShortenedSpelled(g: Stage, base: string)
    ensures Shortened(g, base + (Dashed(g) + ['.'])) == base + Suffix(g)
  {
    var name := Dashed(g) + ['.'];
    var stem := base + name;
    DottedStage(g, g, base);
    DotEnds(base, g, g);
    assert stem[..|stem| - |name|] == base;
  }

  lemma {:induction false} ShortenedAllSpelled(g: Stage, base: string)
    requires forall i :: 0 <= i < |base| ==> base[i] != '-'
    ensures ShortenedAll(base + (Dashed(g) + ['.'])) == base + Suffix(g)
  {
    ShortenedSpelled(g, base);
    DottedStage(g, Alpha, base);
    DottedStage(g, Beta, base);
    DottedStage(g, Rc, base);
    NoDash(base + Suffix(g));
  }

  lemma {:induction false} PrereleaseParts(g: Stage, n: string) returns (base: string, digits: string)
    requires IsPrerelease(g, n)
    ensures n == (base + Suffix(g)) + digits && digits != [] && AllDigits(digits)
    ensures forall i :: 0 <= i < |base| ==> base[i] != '-'
    ensures Spelled(g, n) == (base + (Dashed(g) + ['.'])) + digits
  {
    var k := DigitsAt(n);
    base, digits := n[..k - |Suffix(g)|], n[k..];
    assert n[..k] == base + Suffix(g);
    assert DottedDigits(base);
  }

  lemma {:induction false} PrereleaseUndashed(g: Stage, n: string)
    requires IsPrerelease(g, n)
    ensures Undashed(n)
  {
    var base, digits := PrereleaseParts(g, n);
    NoDash(base + Suffix(g));
    forall h ensures !DashedSuffix(h, n) {
      SubstituteParts(h, base + Suffix(g), digits);
    }
  }

  lemma {:induction false} SubstituteAllSpelled(g: Stage, n: string)
    requires IsPrerelease(g, n)
    ensures SubstituteAll(Spelled(g, n)) == n
  {
    var base, digits := PrereleaseParts(g, n);
    ShortenedAllSpelled(g, base);
    SubstituteAllParts(base + (Dashed(g) + ['.']), digits);
  }

  // ----- normalised versions

  predicate NoTrailingSpace(s: string) {
    s == [] || !IsSpace(s[|s| - 1])
  }

  lemma {:induction false} SubstituteKeepsEnd(g: Stage, s: string)
    requires NoTrailingSpace(s)
    ensures NoTrailingSpace(Substitute(g, s))
  {
  }

  lemma {:induction false} SubstituteAllKeepsEnd(s: string)
    requires NoTrailingSpace(s)
    ensures NoTrailingSpace(SubstituteAll(s))
  {
    SubstituteKeepsEnd(Alpha, s);
    SubstituteKeepsEnd(Beta, Substitute(Alpha, s));
    SubstituteKeepsEnd(Rc, Substitute(Beta, Substitute(Alpha, s)));
  }

  lemma {:induction false} StrippedNoTrailingSpace(version: string)
    ensures NoTrailingSpace(WithoutPrefix(Strip(version)))
  {
    var s := StripStart(version);
    assert NoTrailingSpace(StripEnd(s));
  }

  lemma {:induction false} NormalizedNoTrailingSpace(version: string)
    ensures NoTrailingSpace(NormalizedPackageVersion(version))
  {
    StrippedNoTrailingSpace(version);
    SubstituteAllKeepsEnd(WithoutPrefix(Strip(version)));
  }

  lemma {:induction false} StripFixed(s: string)
    requires s != [] ==> !IsSpace(s[0])
    requires NoTrailingSpace(s)
    ensures Strip(s) == s
  {
    assert StripStart(s) == s;
  }

  lemma {:induction false} WithoutTagPrefix(s: string)
    ensures WithoutPrefix(TAG_PREFIX + s) == s
  {
    assert (TAG_PREFIX + s)[..|TAG_PREFIX|] == TAG_PREFIX;
    assert (TAG_PREFIX + s)[|TAG_PREFIX|..] == s;
  }

  lemma {:induction false} NormalizedTag(s: string)
    requires NoTrailingSpace(s)
    ensures NormalizedPackageVersion(TAG_PREFIX + s) == SubstituteAll(s)
  {
    var tag := TAG_PREFIX + s;
    assert tag[0] == TAG_PREFIX[0] == 'r';
    assert tag[|tag| - 1] == if s == [] then TAG_PREFIX[5] else s[|s| - 1];
    StripFixed(tag);
    WithoutTagPrefix(s);
  }

  lemma {:induction false} SpelledTag(g: Stage, n: string)
    requires IsPrerelease(g, n)
    ensures NormalizedPackageVersion(TAG_PREFIX + Spelled(g, n)) == n
  {
    var base, digits := PrereleaseParts(g, n);
    var r := Spelled(g, n);
    assert r[|r| - 1] == digits[|digits| - 1];
    NormalizedTag(r);
    SubstituteAllSpelled(g, n);
  }

  // ----- when a substitution leaves another to make

  /** What a stage's suffix makes its dashed name from: `-alph` and `-`; nothing for beta,
      whose suffix does not end its name. */
  function Head(g: Stage): (r: string)
    requires !g.Beta?
    ensures r + Suffix(g) == Dashed(g)
  {
    if g.Alpha? then "-alph" else "-"
  }

  /** What stands before the dashed stage name. */
  function BaseOf(g: Stage, stem: string): (r: string)
    requires HasDashed(g, stem)
    ensures Shortened(g, stem) == r + Suffix(g)
  {
    if EndsWith(stem, Dashed(g)) then stem[..|stem| - |Dashed(g)|] else stem[..|stem| - |Dashed(g)| - 1]
  }

  /** The dashed name stands behind the start of itself, as in `-alph-alpha` and `--rc`. */
  predicate Doubled(g: Stage, stem: string)
    requires !g.Beta?
  {
    HasDashed(g, stem) && EndsWith(BaseOf(g, stem), Head(g))
  }

  /** `version` ends in `-alph-alpha` or `--rc`, an optional dot, and digits. */
  predicate Redashes(version: string) {
    var k := DigitsAt(version);
    k < |version| && (Doubled(Alpha, version[..k]) || Doubled(Rc, version[..k]))
  }

  lemma {:induction false} SameEnding(base: string, head: string, tail: string)
    ensures EndsWith(base + tail, head + tail) <==> EndsWith(base, head)
  {
    var s, t := base + tail, head + tail;
    if |t| <= |s| {
      assert s[|s| - |t|..] == base[|base| - |head|..] + tail;
      assert t[..|head|] == head && (base[|base| - |head|..] + tail)[..|head|] == base[|base| - |head|..];
    }
  }

  lemma {:induction false} LetterFromEnd(s: string, t: string, k: nat)
    requires EndsWith(s, t) && 0 < k <= |t|
    ensures s[|s| - k] == t[|t| - k]
  {
    assert s[|s| - |t|..][|t| - k] == t[|t| - k];
  }

  lemma {:induction false} PlainMark(g: Stage, stem: string)
    requires EndsWith(stem, Dashed(g))
    ensures |stem| >= 3 && stem[|stem| - 1] != '.' && stem[|stem| - 2] == Mark(g)
  {
    LetterFromEnd(stem, Dashed(g), 1);
    LetterFromEnd(stem, Dashed(g), 2);
  }

  lemma {:induction false} DottedMark(g: Stage, stem: string)
    requires EndsWith(stem, Dashed(g) + ['.'])
    ensures |stem| >= 3 && stem[|stem| - 1] == '.' && stem[|stem| - 3] == Mark(g)
  {
    var dotted := Dashed(g) + ['.'];
    LetterFromEnd(stem, dotted, 1);
    LetterFromEnd(stem, dotted, 3);
    assert dotted[|dotted| - 3] == Dashed(g)[|Dashed(g)| - 2];
  }

  /** Where the letter stands that tells the stage of a stem. */
  lemma {:induction false} MarkOf(g: Stage, stem: string)
    requires HasDashed(g, stem)
    ensures |stem| >= 3
    ensures stem[|stem| - 1] == '.' ==> stem[|stem| - 3] == Mark(g)
    ensures stem[|stem| - 1] != '.' ==> stem[|stem| - 2] == Mark(g)
  {
    if EndsWith(stem, Dashed(g)) {
      PlainMark(g, stem);
    } else {
      DottedMark(g, stem);
    }
  }

  /** A stem ends in at most one of the dashed names. */
  lemma {:induction false} OneStage(g: Stage, h: Stage, stem: string)
    requires HasDashed(g, stem) && HasDashed(h, stem)
    ensures g == h
  {
    MarkOf(g, stem);
    MarkOf(h, stem);
  }

  lemma {:induction false} EndsLike(g: Stage, s: string)
    requires HasDashed(g, s) && s[|s| - 1] != '.'
    ensures EndsWith(s, Dashed(g)) && s[|s| - 1] == Dashed(g)[|Dashed(g)| - 1]
  {
    EndsWithLetters(s, Dashed(g) + ['.']);
    var dotted := Dashed(g) + ['.'];
    assert dotted[|dotted| - 1] == '.';
    EndsWithLetters(s, Dashed(g));
  }

  /** After a substitution a dashed name may stand there again only as these. */
  lemma {:induction false} NewStage(g: Stage, h: Stage, base: string)
    requires HasDashed(h, base + Suffix(g))
    ensures (g.Alpha? && !h.Rc?) || (g.Rc? && h.Rc?)
    ensures !g.Beta? && g == h ==> EndsWith(base, Head(g))
    ensures h.Beta? ==> EndsWith(base, "-bet")
  {
    var s := base + Suffix(g);
    assert s[|s| - 1] == Suffix(g)[|Suffix(g)| - 1];
    EndsLike(h, s);
    if !g.Beta? && g == h { SameEnding(base, Head(g), Suffix(g)); }
    if g.Alpha? && h.Beta? {
      assert "-bet" + Suffix(g) == Dashed(h);
      SameEnding(base, "-bet", Suffix(g));
    }
  }

  lemma {:induction false} DoubledComesBack(g: Stage, base: string)
    requires !g.Beta? && EndsWith(base, Head(g))
    ensures HasDashed(g, base + Suffix(g))
  {
    SameEnding(base, Head(g), Suffix(g));
  }

  lemma {:induction false} AlphaRedashes(stem: string, h: Stage)
    requires HasDashed(Alpha, stem)
    ensures Doubled(Alpha, stem) ==> HasDashed(Alpha, ShortenedAll(stem))
    ensures HasDashed(h, ShortenedAll(stem)) ==> Doubled(Alpha, stem)
  {
    var base := BaseOf(Alpha, stem);
    var a := base + Suffix(Alpha);
    if HasDashed(Rc, a) { NewStage(Alpha, Rc, base); }
    if HasDashed(Beta, a) {
      NewStage(Alpha, Beta, base);
      AlphaThenBeta(base, h);
      if Doubled(Alpha, stem) { NotBoth(base); }
    } else {
      assert ShortenedAll(stem) == a;
      if Doubled(Alpha, stem) { DoubledComesBack(Alpha, base); }
      if HasDashed(h, a) { NewStage(Alpha, h, base); }
    }
  }

  lemma {:induction false} NotBoth(base: string)
    ensures !(EndsWith(base, "-bet") && EndsWith(base, Head(Alpha)))
  {
    if EndsWith(base, "-bet") { LetterFromEnd(base, "-bet", 1); }
    if EndsWith(base, Head(Alpha)) { LetterFromEnd(base, Head(Alpha), 1); }
  }

  /** `-bet-alpha` becomes `-beta` and then `b`, and stays. */
  lemma {:induction false} AlphaThenBeta(base: string, h: Stage)
    requires HasDashed(Beta, base + Suffix(Alpha))
    ensures var b := Shortened(Beta, base + Suffix(Alpha)); !HasDashed(h, b) && Shortened(Rc, b) == b
  {
    var c := BaseOf(Beta, base + Suffix(Alpha));
    if HasDashed(h, c + Suffix(Beta)) { NewStage(Beta, h, c); }
    if HasDashed(Rc, c + Suffix(Beta)) { NewStage(Beta, Rc, c); }
  }

  lemma {:induction false} RcRedashes(stem: string, h: Stage)
    requires HasDashed(Rc, stem)
    ensures Doubled(Rc, stem) ==> HasDashed(Rc, ShortenedAll(stem))
    ensures HasDashed(h, ShortenedAll(stem)) ==> Doubled(Rc, stem)
  {
    if HasDashed(Alpha, stem) { OneStage(Alpha, Rc, stem); }
    if HasDashed(Beta, stem) { OneStage(Beta, Rc, stem); }
    var base := BaseOf(Rc, stem);
    assert ShortenedAll(stem) == base + Suffix(Rc);
    if Doubled(Rc, stem) { DoubledComesBack(Rc, base); }
    if HasDashed(h, base + Suffix(Rc)) { NewStage(Rc, h, base); }
  }

  lemma {:induction false} BetaStays(stem: string, h: Stage)
    requires HasDashed(Beta, stem)
    ensures !HasDashed(h, ShortenedAll(stem))
  {
    if HasDashed(Alpha, stem) { OneStage(Alpha, Beta, stem); }
    var base := BaseOf(Beta, stem);
    var b := base + Suffix(Beta);
    if HasDashed(Rc, b) { NewStage(Beta, Rc, base); }
    assert ShortenedAll(stem) == b;
    if HasDashed(h, b) { NewStage(Beta, h, base); }
  }

  lemma {:induction false} StemRedashes(stem: string, h: Stage)
    ensures Doubled(Alpha, stem) ==> HasDashed(Alpha, ShortenedAll(stem))
    ensures Doubled(Rc, stem) ==> HasDashed(Rc, ShortenedAll(stem))
    ensures HasDashed(h, ShortenedAll(stem)) ==> Doubled(Alpha, stem) || Doubled(Rc, stem)
  {
    if HasDashed(Alpha, stem) {
      AlphaRedashes(stem, h);
      if HasDashed(Rc, stem) { OneStage(Alpha, Rc, stem); }
    } else if HasDashed(Rc, stem) {
      RcRedashes(stem, h);
    } else if HasDashed(Beta, stem) {
      BetaStays(stem, h);
    }
  }

  /** The substitutions leave a dashed ending behind exactly on such versions. */
  lemma {:induction false} UndashedUnlessRedashed(t: string)
    ensures Undashed(SubstituteAll(t)) <==> !Redashes(t)
  {
    var k := DigitsAt(t);
    if k < |t| {
      var stem, digits := t[..k], t[k..];
      assert t == stem + digits;
      SubstituteAllParts(stem, digits);
      ShortenedAllNoDigit(stem);
      forall g ensures DashedSuffix(g, SubstituteAll(t)) <==> HasDashed(g, ShortenedAll(stem)) {
        SubstituteParts(g, ShortenedAll(stem), digits);
      }
      forall g ensures HasDashed(g, ShortenedAll(stem)) ==> Redashes(t) { StemRedashes(stem, g); }
      StemRedashes(stem, Beta);
      if Doubled(Alpha, stem) { assert DashedSuffix(Alpha, SubstituteAll(t)); }
      if Doubled(Rc, stem) { assert DashedSuffix(Rc, SubstituteAll(t)); }
    } else {
      assert SubstituteAll(t) == t;
    }
  }

  lemma {:induction false} RoundTripIfUndashed(version: string)
    ensures NormalizedPackageVersion(ReleaseTag(version)) == NormalizedPackageVersion(version) <==>
            Undashed(NormalizedPackageVersion(version))
  {
    var n := NormalizedPackageVersion(version);
    NormalizedNoTrailingSpace(version);
    var (found, g) := StageOf(n);
    if found {
      PrereleaseUndashed(g, n);
      SpelledTag(g, n);
    } else {
      NormalizedTag(n);
      SubstituteAllFixed(n);
    }
  }

  /** Normalising a version's release tag gives its normalised form back exactly when the
      version, stripped and without its prefix, does not end in `-alph-alpha` or `--rc`, an
      optional dot, and digits: the endings that leave a dashed pre-release behind. */
  lemma {:induction false} TagRoundTrip(version: string)
    ensures NormalizedPackageVersion(ReleaseTag(version)) == NormalizedPackageVersion(version) <==>
            !Redashes(WithoutPrefix(Strip(version)))
  {
    RoundTripIfUndashed(version);
    UndashedUnlessRedashed(WithoutPrefix(Strip(version)));
  }

  /** Dotted digits with an optional stage suffix and number: PEP 440's releases and
      pre-releases. */
  predicate PackageVersion(n: string) {
    DottedDigits(n) || exists g :: IsPrerelease(g, n)
  }

  /** In that grammar the round trip always holds, and the release form is a fixed point. */
  lemma {:induction false} PackageVersionRoundTrip(version: string)
    requires PackageVersion(NormalizedPackageVersion(version))
    ensures NormalizedPackageVersion(ReleaseTag(version)) == NormalizedPackageVersion(version)
    ensures CodexReleaseVersion(CodexReleaseVersion(version)) == CodexReleaseVersion(version)
  {
    var n := NormalizedPackageVersion(version);
    if DottedDigits(n) {
      DottedBare(n);
    } else {
      var g :| IsPrerelease(g, n);
      PrereleaseBare(g, n);
    }
    RoundTripIfUndashed(version);
    ReleaseFixedPoint(version);
  }

  lemma {:induction false} DottedBare(n: string)
    requires DottedDigits(n)
    ensures Bare(n)
  {
    NoDashUndashed(n);
    assert TAG_PREFIX[0] == 'r' && "v"[0] == 'v';
  }

  // ----- the release form

  /** A normalised version that normalising leaves alone. */
  predicate Bare(n: string) {
    && (n == [] || !IsSpace(n[0]))
    && !HasPrefix(n)
    && Undashed(n)
  }

  lemma {:induction false} NormalizedBare(n: string)
    requires NoTrailingSpace(n)
    ensures Bare(n) ==> NormalizedPackageVersion(n) == n
    ensures !Bare(n) ==> |NormalizedPackageVersion(n)| < |n|
  {
    var t := WithoutPrefix(Strip(n));
    SubstituteAllFixed(t);
    SubstituteAllNoLonger(t);
    if n != [] && IsSpace(n[0]) {
      StripStartShortens(n);
    } else {
      StripFixed(n);
    }
  }

  lemma {:induction false} StripStartShortens(n: string)
    requires n != [] && IsSpace(n[0])
    ensures |Strip(n)| < |n|
  {
    assert |StripStart(n[1..])| <= |n[1..]|;
  }

  lemma {:induction false} SubstituteAllNoLonger(t: string)
    ensures |SubstituteAll(t)| <= |t|
    ensures !Undashed(t) ==> |SubstituteAll(t)| < |t|
  {
    var k := DigitsAt(t);
    if k < |t| {
      var stem, digits := t[..k], t[k..];
      assert t == stem + digits;
      SubstituteAllParts(stem, digits);
      var a := Shortened(Alpha, stem);
      var b := Shortened(Beta, a);
      assert |ShortenedAll(stem)| <= |b| <= |a| <= |stem|;
      if !Undashed(t) {
        var g :| DashedSuffix(g, t);
        assert HasDashed(g, stem);
        assert |ShortenedAll(stem)| < |stem| by { match g case Alpha => case Beta => case Rc => }
      }
    }
  }

  /** No normalised version ends in a dotted dashed spelling: a substitution leaves a letter
      before the number, and without one there is no dashed ending at all. */
  lemma {:induction false} NormalizedNotDotted(version: string, g: Stage, base: string, digits: string)
    requires AllDigits(digits) && digits != []
    ensures NormalizedPackageVersion(version) != (base + (Dashed(g) + ['.'])) + digits
  {
    SubstitutedNotDotted(WithoutPrefix(Strip(version)), g, base + (Dashed(g) + ['.']), digits, base);
  }

  lemma {:induction false} SubstitutedNotDotted(t: string, g: Stage, dotted: string, digits: string, base: string)
    requires dotted == base + (Dashed(g) + ['.']) && AllDigits(digits) && digits != []
    ensures SubstituteAll(t) != dotted + digits
  {
    var k := DigitsAt(t);
    if k < |t| {
      assert t == t[..k] + t[k..];
      PartsNotDotted(t[..k], t[k..], g, dotted, digits, base);
    } else {
      assert dotted[|dotted| - 1] == '.';
      DigitsOf(dotted, digits);
    }
  }

  lemma {:induction false} PartsNotDotted(stem: string, number: string, g: Stage, dotted: string, digits: string,
                                          base: string)
    requires NoTrailingDigit(stem) && AllDigits(number) && number != []
    requires dotted == base + (Dashed(g) + ['.']) && AllDigits(digits)
    ensures SubstituteAll(stem + number) != dotted + digits
  {
    assert dotted[|dotted| - 1] == '.';
    SubstituteAllParts(stem, number);
    StemNotDotted(stem, g, base);
    ShortenedAllNoDigit(stem);
    if ShortenedAll(stem) + number == dotted + digits { PartsUnique(ShortenedAll(stem), number, dotted, digits); }
  }

  lemma {:induction false} ShortenedAllNoDigit(stem: string)
    requires NoTrailingDigit(stem)
    ensures NoTrailingDigit(ShortenedAll(stem))
  {
    ShortenedEnds(Alpha, stem);
    ShortenedEnds(Beta, Shortened(Alpha, stem));
    ShortenedEnds(Rc, Shortened(Beta, Shortened(Alpha, stem)));
  }

  lemma {:induction false} PartsUnique(x: string, d: string, y: string, e: string)
    requires NoTrailingDigit(x) && NoTrailingDigit(y) && AllDigits(d) && AllDigits(e) && x + d == y + e
    ensures x == y && d == e
  {
    DigitsOf(x, d);
    DigitsOf(y, e);
  }

  lemma {:induction false} StemNotDotted(stem: string, g: Stage, base: string)
    requires NoTrailingDigit(stem)
    ensures ShortenedAll(stem) != base + (Dashed(g) + ['.'])
  {
    var dotted := base + (Dashed(g) + ['.']);
    assert dotted[|dotted| - 1] == '.';
    DottedStage(g, g, base);
    if ShortenedAll(stem) == stem {
      StemFixed(stem, g);
    } else {
      ShortenedAllEnds(stem);
    }
  }

  lemma {:induction false} StemFixed(stem: string, g: Stage)
    requires ShortenedAll(stem) == stem
    ensures !HasDashed(g, stem)
  {
    var a := Shortened(Alpha, stem);
    var b := Shortened(Beta, a);
    assert |ShortenedAll(stem)| <= |b| <= |a| <= |stem|;
    match g case Alpha => case Beta => case Rc =>
  }

  lemma {:induction false} ShortenedAllEnds(stem: string)
    requires NoTrailingDigit(stem) && ShortenedAll(stem) != stem
    ensures var r := ShortenedAll(stem); r != [] && r[|r| - 1] != '.' && NoTrailingDigit(r)
  {
    var a := Shortened(Alpha, stem);
    var b := Shortened(Beta, a);
    ShortenedEnds(Alpha, stem);
    ShortenedEnds(Beta, a);
    ShortenedEnds(Rc, b);
    EndsWithLetters(a, Suffix(Alpha));
    EndsWithLetters(b, Suffix(Beta));
    EndsWithLetters(ShortenedAll(stem), Suffix(Rc));
  }

  lemma {:induction false} PrereleaseBare(g: Stage, n: string)
    requires IsPrerelease(g, n)
    ensures Bare(n)
  {
    PrereleaseUndashed(g, n);
    assert IsDigit(n[0]) by { assert n[..DigitsAt(n) - |Suffix(g)|][0] == n[0]; }
    assert TAG_PREFIX[0] == 'r' && "v"[0] == 'v';
  }

  lemma {:induction false} NormalizedPlain(r: string)
    requires r != [] && IsDigit(r[0]) && IsDigit(r[|r| - 1])
    ensures NormalizedPackageVersion(r) == SubstituteAll(r)
  {
    StripFixed(r);
    assert TAG_PREFIX[0] == 'r' && "v"[0] == 'v';
    assert WithoutPrefix(r) == r;
  }

  lemma {:induction false} SpelledNormalizes(g: Stage, n: string)
    requires IsPrerelease(g, n)
    ensures NormalizedPackageVersion(Spelled(g, n)) == n
    ensures IsDigit(Spelled(g, n)[0])
  {
    var base, digits := PrereleaseParts(g, n);
    var r := Spelled(g, n);
    assert IsDigit(r[0]) by { assert r[0] == n[..DigitsAt(n) - |Suffix(g)|][0]; }
    assert r[|r| - 1] == digits[|digits| - 1];
    NormalizedPlain(r);
    SubstituteAllSpelled(g, n);
  }

  /** The release form of a version is its own release form exactly when the normalised
      version is bare: no leading space, no prefix left to strip, no dashed ending. */
  lemma {:induction false} ReleaseFixedPoint(version: string)
    ensures CodexReleaseVersion(CodexReleaseVersion(version)) == CodexReleaseVersion(version) <==>
            Bare(NormalizedPackageVersion(version))
  {
    var n := NormalizedPackageVersion(version);
    var (found, g) := StageOf(n);
    NormalizedNoTrailingSpace(version);
    if found {
      PrereleaseBare(g, n);
      SpelledNormalizes(g, n);
    } else {
      NormalizedBare(n);
      var m := NormalizedPackageVersion(n);
      var (found', h) := StageOf(m);
      if found' {
        var base, digits := PrereleaseParts(h, m);
        NormalizedNotDotted(version, h, base, digits);
      }
    }
  }

  /** Outside the grammar the round trip can fail: `1--rc1` normalises to `1-rc1`, whose tag
      normalises to `1rc1`. */
  lemma {:induction false} RoundTripCanFail(version: string)
    requires version == (['1', '-'] + Dashed(Rc)) + ['1']
    ensures NormalizedPackageVersion(ReleaseTag(version)) != NormalizedPackageVersion(version)
  {
    DashedRcNormalizes(version);
    StillDashed();
    RoundTripIfUndashed(version);
  }

  /** And so can the fixed point: `vv1` is released as `v1`, which is released as `1`, and so
      for every version without a dash that has a second `v` behind the first. */
  lemma {:induction false} ReleaseCanShift(rest: string)
    requires rest != [] && rest[0] == 'v' && NoTrailingSpace(rest) && forall i :: 0 <= i < |rest| ==> rest[i] != '-'
    ensures CodexReleaseVersion(CodexReleaseVersion(['v'] + rest)) != CodexReleaseVersion(['v'] + rest)
  {
    NormalizesToPrefixed(rest);
    OneLetterPrefix(rest);
    ReleaseFixedPoint(['v'] + rest);
  }

  lemma {:induction false} OneLetterPrefix(s: string)
    requires s != [] && s[0] == 'v'
    ensures HasPrefix(s) && WithoutPrefix(s) == s[1..]
  {
    assert TAG_PREFIX[0] == 'r';
  }

  lemma {:induction false} NormalizesToPrefixed(rest: string)
    requires rest != [] && NoTrailingSpace(rest) && forall i :: 0 <= i < |rest| ==> rest[i] != '-'
    ensures NormalizedPackageVersion(['v'] + rest) == rest
  {
    PrefixTaken(rest);
    NoDashUndashed(rest);
    SubstituteAllFixed(rest);
  }

  lemma {:induction false} PrefixTaken(rest: string)
    requires rest != [] && NoTrailingSpace(rest)
    ensures WithoutPrefix(Strip(['v'] + rest)) == rest
  {
    var version := ['v'] + rest;
    assert version[0] == 'v' && version[|version| - 1] == rest[|rest| - 1];
    StripFixed(version);
    OneLetterPrefix(version);
    assert version[1..] == rest;
  }

  lemma {:induction false} DashedRcNormalizes(version: string)
    requires version == (['1', '-'] + Dashed(Rc)) + ['1']
    ensures NormalizedPackageVersion(version) == (['1', '-'] + Suffix(Rc)) + ['1']
  {
    var stem := ['1', '-'] + Dashed(Rc);
    assert stem[0] == '1' && stem[|stem| - 1] == Dashed(Rc)[|Dashed(Rc)| - 1];
    NormalizedParts(stem, ['1']);
    DashThenRc(['1', '-']);
  }

  lemma {:induction false} NormalizedParts(stem: string, digits: string)
    requires stem != [] && IsDigit(stem[0]) && NoTrailingDigit(stem) && digits != [] && AllDigits(digits)
    ensures NormalizedPackageVersion(stem + digits) == ShortenedAll(stem) + digits
  {
    var v := stem + digits;
    assert v[0] == stem[0] && v[|v| - 1] == digits[|digits| - 1];
    NormalizedPlain(v);
    SubstituteAllParts(stem, digits);
  }

  lemma {:induction false} StillDashed()
    ensures DashedSuffix(Rc, (['1', '-'] + Suffix(Rc)) + ['1'])
  {
    assert ['1', '-'] + Suffix(Rc) == ['1'] + Dashed(Rc);
    EndsInDashed(['1'], Rc);
    SubstituteParts(Rc, ['1'] + Dashed(Rc), ['1']);
  }

  lemma {:induction false} EndsInDashed(base: string, g: Stage)
    ensures HasDashed(g, base + Dashed(g)) && EndsWith(base + Dashed(g), Dashed(g)) &&
            (base + Dashed(g))[..|base|] == base
  {
    assert (base + Dashed(g))[|base|..] == Dashed(g);
  }

  lemma {:induction false} DashThenRc(base: string)
    ensures ShortenedAll(base + Dashed(Rc)) == base + Suffix(Rc)
  {
    var stem := base + Dashed(Rc);
    assert stem[|stem| - 1] == 'c';
    EndsWithLetters(stem, Dashed(Alpha));
    EndsWithLetters(stem, Dashed(Alpha) + ['.']);
    EndsWithLetters(stem, Dashed(Beta));
    EndsWithLetters(stem, Dashed(Beta) + ['.']);
    assert Dashed(Alpha)[5] == 'a' && (Dashed(Alpha) + ['.'])[6] == '.' && Dashed(Beta)[4] == 'a' &&
        (Dashed(Beta) + ['.'])[5] == '.';
    EndsInDashed(base, Rc);
  }
}
