/** The lint wrapper's argument rewriting: parse the command line, then rebuild it with
    the defaults it lacks. */
module WrapperArgs {

  datatype ParsedWrapperArgs = ParsedWrapperArgs(
    lintArgs: seq<string>,
    cargoArgs: seq<string>,
    hasManifestPath: bool,
    hasPackageSelection: bool,
    hasNoDeps: bool,
    hasLibrarySelection: bool,
    hasCargoTargetSelection: bool,
    hasFix: bool)

  const EMPTY := ParsedWrapperArgs([], [], false, false, false, false, false, false)

  // ----- the vocabulary

  const SEPARATOR := "--"
  const MANIFEST_PATH := "--manifest-path"
  const WORKSPACE := "--workspace"
  const NO_DEPS := "--no-deps"
  const ALL_TARGETS := "--all-targets"

  /** What a lint argument is when it is not the value of the one before it. */
  datatype Flag =
    | ManifestPathFlag
    | ManifestPathGiven
    | PackageFlag
    | PackageGiven
    | FixFlag
    | NoDepsFlag
    | LibraryFlag
    | LibraryGiven
    | OtherArg

  function FlagOf(arg: string): Flag {
    if arg == "--manifest-path" then ManifestPathFlag
    else if "--manifest-path=" <= arg then ManifestPathGiven
    else if arg == "-p" || arg == "--package" then PackageFlag
    else if "--package=" <= arg then PackageGiven
    else if arg == "--fix" then FixFlag
    else if arg == "--workspace" then PackageGiven
    else if arg == "--no-deps" then NoDepsFlag
    else if arg == "--lib" || arg == "--lib-path" then LibraryFlag
    else if "--lib=" <= arg || "--lib-path=" <= arg then LibraryGiven
    else OtherArg
  }

  predicate SelectsTarget(arg: string) {
    || arg in {"--all-targets", "--lib", "--bins", "--tests", "--examples", "--benches", "--doc"}
    || arg in {"--bin", "--test", "--example", "--bench"}
    || "--bin=" <= arg || "--test=" <= arg || "--example=" <= arg || "--bench=" <= arg
  }

  /** The parser needs only these two readings of an argument. */
  datatype Vocabulary = Vocabulary(flagOf: string -> Flag, selectsTarget: string -> bool)

  const CARGO := Vocabulary(FlagOf, SelectsTarget)

  /** The defaults mean what they are there to say. */
  ghost predicate Speaks(v: Vocabulary) {
    && v.flagOf(MANIFEST_PATH) == ManifestPathFlag
    && v.flagOf(WORKSPACE) == PackageGiven
    && v.flagOf(NO_DEPS) == NoDepsFlag
    && v.selectsTarget(ALL_TARGETS)
  }

  lemma {:induction false} CargoSpeaks()
    ensures Speaks(CARGO)
  {
  }

  // ----- parsing

  datatype Want = Nothing | ManifestPath | PackageSelection | LibrarySelection

  /** Nothing but lint flags differ. */
  predicate OnlyFlags(p: ParsedWrapperArgs, q: ParsedWrapperArgs) {
    q.lintArgs == p.lintArgs && q.cargoArgs == p.cargoArgs && q.hasCargoTargetSelection == p.hasCargoTargetSelection
  }

  function TakeValue(p: ParsedWrapperArgs, want: Want): (q: ParsedWrapperArgs)
    ensures OnlyFlags(p, q)
  {
    match want
    case Nothing => p
    case ManifestPath => p.(hasManifestPath := true)
    case PackageSelection => p.(hasPackageSelection := true)
    case LibrarySelection => p.(hasLibrarySelection := true)
  }

  function TakeFlag(p: ParsedWrapperArgs, flag: Flag): (q: ParsedWrapperArgs)
    ensures OnlyFlags(p, q)
  {
    match flag
    case ManifestPathGiven => p.(hasManifestPath := true)
    case PackageGiven => p.(hasPackageSelection := true)
    case FixFlag => p.(hasFix := true)
    case NoDepsFlag => p.(hasNoDeps := true)
    case LibraryGiven => p.(hasLibrarySelection := true)
    case _ => p
  }

  function Wants(flag: Flag): Want {
    match flag
    case ManifestPathFlag => ManifestPath
    case PackageFlag => PackageSelection
    case LibraryFlag => LibrarySelection
    case _ => Nothing
  }

  /** How far the lint arguments have been read, and the value the next one would be. */
  datatype Reading = Reading(parsed: ParsedWrapperArgs, want: Want)

  function TakeLint(v: Vocabulary, r: Reading, arg: string): Reading {
    var p := r.parsed.(lintArgs := r.parsed.lintArgs + [arg]);
    if r.want != Nothing then Reading(TakeValue(p, r.want), Nothing)
    else Reading(TakeFlag(p, v.flagOf(arg)), Wants(v.flagOf(arg)))
  }

  function ParseLint(v: Vocabulary, r: Reading, args: seq<string>): Reading
    decreases |args|
  {
    if args == [] then r else ParseLint(v, TakeLint(v, r, args[0]), args[1..])
  }

  function SeparatorAt(argv: seq<string>): (k: nat)
    ensures k <= |argv| && SEPARATOR !in argv[..k] && (k < |argv| ==> argv[k] == SEPARATOR)
  {
    if argv == [] || argv[0] == SEPARATOR then 0
    else
      var k := SeparatorAt(argv[1..]);
      assert argv[..k + 1] == [argv[0]] + argv[1..][..k];
      k + 1
  }

  predicate AnySelects(v: Vocabulary, args: seq<string>) {
    exists i :: 0 <= i < |args| && v.selectsTarget(args[i])
  }

  const START := Reading(EMPTY, Nothing)

  function WithCargo(v: Vocabulary, p: ParsedWrapperArgs, cargo: seq<string>): ParsedWrapperArgs {
    p.(cargoArgs := cargo, hasCargoTargetSelection := AnySelects(v, cargo))
  }

  /** Parsing splits at the first separator: what is before it is read as lint arguments,
      what is after it is kept for cargo. */
  function Parse(v: Vocabulary, argv: seq<string>): ParsedWrapperArgs {
    var k := SeparatorAt(argv);
    WithCargo(v, ParseLint(v, START, argv[..k]).parsed, if k < |argv| then argv[k + 1..] else [])
  }

  method ReadLintArg(parsed0: ParsedWrapperArgs, want0: Want, arg: string)
      returns (parsed: ParsedWrapperArgs, want: Want)
    ensures Reading(parsed, want) == TakeLint(CARGO, Reading(parsed0, want0), arg)
  {
    parsed, want := parsed0.(lintArgs := parsed0.lintArgs + [arg]), want0;
    if want != Nothing {
      if want == ManifestPath {
        parsed := parsed.(hasManifestPath := true);
      } else if want == PackageSelection {
        parsed := parsed.(hasPackageSelection := true);
      } else if want == LibrarySelection {
        parsed := parsed.(hasLibrarySelection := true);
      }
      want := Nothing;
      return;
    }
    if arg == "--manifest-path" {
      want := ManifestPath;
    } else if "--manifest-path=" <= arg {
      parsed := parsed.(hasManifestPath := true);
    } else if arg == "-p" || arg == "--package" {
      want := PackageSelection;
    } else if "--package=" <= arg {
      parsed := parsed.(hasPackageSelection := true);
    } else if arg == "--fix" {
      parsed := parsed.(hasFix := true);
    } else if arg == "--workspace" {
      parsed := parsed.(hasPackageSelection := true);
    } else if arg == "--no-deps" {
      parsed := parsed.(hasNoDeps := true);
    } else if arg == "--lib" || arg == "--lib-path" {
      want := LibrarySelection;
    } else if "--lib=" <= arg || "--lib-path=" <= arg {
      parsed := parsed.(hasLibrarySelection := true);
    }
  }

  method ReadCargoArg(parsed0: ParsedWrapperArgs, arg: string) returns (parsed: ParsedWrapperArgs)
    requires parsed0.hasCargoTargetSelection == AnySelects(CARGO, parsed0.cargoArgs)
    ensures parsed == WithCargo(CARGO, parsed0, parsed0.cargoArgs + [arg])
  {
    GrownSelection(CARGO, parsed0.cargoArgs, arg);
    parsed := parsed0.(cargoArgs := parsed0.cargoArgs + [arg]);
    if arg in {"--all-targets", "--lib", "--bins", "--tests", "--examples", "--benches", "--doc"}
       || arg in {"--bin", "--test", "--example", "--bench"}
    {
      parsed := parsed.(hasCargoTargetSelection := true);
    } else if "--bin=" <= arg || "--test=" <= arg || "--example=" <= arg || "--bench=" <= arg {
      parsed := parsed.(hasCargoTargetSelection := true);
    }
  }

  method ParseWrapperArgs(argv: seq<string>) returns (parsed: ParsedWrapperArgs)
    ensures parsed == Parse(CARGO, argv)
  {
    ghost var k := SeparatorAt(argv);
    ghost var lint := ParseLint(CARGO, START, argv[..k]).parsed;
    LintLeavesCargo(CARGO, START, argv[..k]);
    parsed := EMPTY;
    var afterSeparator := false;
    var want := Nothing;
    assert argv[0..k] == argv[..k];
    for i := 0 to |argv|
      invariant afterSeparator <==> i > k
      invariant !afterSeparator ==> lint == ParseLint(CARGO, Reading(parsed, want), argv[i..k]).parsed
      invariant afterSeparator ==> parsed == WithCargo(CARGO, lint, argv[k + 1..i])
    {
      var arg := argv[i];
      if afterSeparator {
        assert argv[k + 1..i + 1] == argv[k + 1..i] + [arg];
        parsed := ReadCargoArg(parsed, arg);
      } else if arg == SEPARATOR {
        assert i == k by { assert forall j :: 0 <= j < k ==> argv[j] == argv[..k][j]; }
        assert argv[k + 1..i + 1] == [] && argv[i..k] == [];
        afterSeparator := true;
      } else {
        assert argv[i..k][1..] == argv[i + 1..k];
        parsed, want := ReadLintArg(parsed, want, arg);
      }
    }
    assert k < |argv| ==> argv[k + 1..|argv|] == argv[k + 1..];
  }

  lemma {:induction false} GrownSelection(v: Vocabulary, args: seq<string>, arg: string)
    ensures AnySelects(v, args + [arg]) <==> AnySelects(v, args) || v.selectsTarget(arg)
  {
    if i :| 0 <= i < |args| && v.selectsTarget(args[i]) { assert v.selectsTarget((args + [arg])[i]); }
    if v.selectsTarget(arg) { assert v.selectsTarget((args + [arg])[|args|]); }
  }

  lemma {:induction false} TakeLintLeaves(v: Vocabulary, r: Reading, arg: string)
    ensures var p, q := r.parsed, TakeLint(v, r, arg).parsed;
            OnlyFlags(p.(lintArgs := p.lintArgs + [arg]), q)
  {
    var p := r.parsed.(lintArgs := r.parsed.lintArgs + [arg]);
    assert OnlyFlags(p, TakeValue(p, r.want));
    assert OnlyFlags(p, TakeFlag(p, v.flagOf(arg)));
  }

  lemma {:induction false} LintLeavesCargo(v: Vocabulary, r: Reading, args: seq<string>)
    ensures var q := ParseLint(v, r, args).parsed;
            q.cargoArgs == r.parsed.cargoArgs && q.hasCargoTargetSelection == r.parsed.hasCargoTargetSelection
    decreases |args|
  {
    if args != [] {
      TakeLintLeaves(v, r, args[0]);
      LintLeavesCargo(v, TakeLint(v, r, args[0]), args[1..]);
    }
  }

  // ----- rebuilding

  /** What is put before the lint arguments. */
  function Defaults(p: ParsedWrapperArgs, manifestPath: string): seq<string> {
    (if p.hasManifestPath then [] else [MANIFEST_PATH, manifestPath]) +
    (if p.hasPackageSelection || p.hasManifestPath then [] else [WORKSPACE]) +
    (if p.hasNoDeps then [] else [NO_DEPS])
  }

  function CargoArgs(p: ParsedWrapperArgs): seq<string> {
    if p.hasFix || p.hasCargoTargetSelection then p.cargoArgs else p.cargoArgs + [ALL_TARGETS]
  }

  function Joined(lint: seq<string>, cargo: seq<string>): seq<string> {
    if cargo == [] then lint else lint + ([SEPARATOR] + cargo)
  }

  function Build(p: ParsedWrapperArgs, manifestPath: string): seq<string> {
    Joined(Defaults(p, manifestPath) + p.lintArgs, CargoArgs(p))
  }

  method BuildFinalArgs(parsed: ParsedWrapperArgs, manifestPath: string) returns (finalArgs: seq<string>)
    ensures finalArgs == Build(parsed, manifestPath)
  {
    finalArgs := [];
    var cargoArgs := parsed.cargoArgs;
    if !parsed.hasManifestPath {
      finalArgs := finalArgs + [MANIFEST_PATH, manifestPath];
    }
    if !parsed.hasPackageSelection && !parsed.hasManifestPath {
      finalArgs := finalArgs + [WORKSPACE];
    }
    if !parsed.hasNoDeps {
      finalArgs := finalArgs + [NO_DEPS];
    }
    if !parsed.hasFix && !parsed.hasCargoTargetSelection {
      cargoArgs := cargoArgs + [ALL_TARGETS];
    }
    finalArgs := finalArgs + parsed.lintArgs;
    if cargoArgs != [] {
      finalArgs := finalArgs + ([SEPARATOR] + cargoArgs);
    }
  }

  function Rewrite(v: Vocabulary, argv: seq<string>, manifestPath: string): seq<string> {
    Build(Parse(v, argv), manifestPath)
  }

  // ----- parsing a rebuilt command line

  /** `q` read after the flags and lint arguments of `p`. */
  function After(p: ParsedWrapperArgs, q: ParsedWrapperArgs): ParsedWrapperArgs {
    q.(lintArgs := p.lintArgs + q.lintArgs,
       hasManifestPath := p.hasManifestPath || q.hasManifestPath,
       hasPackageSelection := p.hasPackageSelection || q.hasPackageSelection,
       hasNoDeps := p.hasNoDeps || q.hasNoDeps,
       hasLibrarySelection := p.hasLibrarySelection || q.hasLibrarySelection,
       hasFix := p.hasFix || q.hasFix)
  }

  lemma {:induction false} TakeLintAfter(v: Vocabulary, p: ParsedWrapperArgs, r: Reading, arg: string)
    ensures TakeLint(v, Reading(After(p, r.parsed), r.want), arg) ==
            Reading(After(p, TakeLint(v, r, arg).parsed), TakeLint(v, r, arg).want)
  {
    var q := r.parsed.(lintArgs := r.parsed.lintArgs + [arg]);
    assert (p.lintArgs + r.parsed.lintArgs) + [arg] == p.lintArgs + q.lintArgs;
    TakeValueAfter(p, q, r.want);
    TakeFlagAfter(p, q, v.flagOf(arg));
  }

  lemma {:induction false} TakeValueAfter(p: ParsedWrapperArgs, q: ParsedWrapperArgs, want: Want)
    ensures TakeValue(After(p, q), want) == After(p, TakeValue(q, want))
  {
  }

  lemma {:induction false} TakeFlagAfter(p: ParsedWrapperArgs, q: ParsedWrapperArgs, flag: Flag)
    ensures TakeFlag(After(p, q), flag) == After(p, TakeFlag(q, flag))
  {
  }

  /** Flags only accumulate, so what was parsed before does not change what a run of lint
      arguments contributes. */
  lemma {:induction false} ParseLintAfter(v: Vocabulary, p: ParsedWrapperArgs, r: Reading, args: seq<string>)
    ensures ParseLint(v, Reading(After(p, r.parsed), r.want), args).parsed == After(p, ParseLint(v, r, args).parsed)
    decreases |args|
  {
    if args != [] {
      TakeLintAfter(v, p, r, args[0]);
      ParseLintAfter(v, p, TakeLint(v, r, args[0]), args[1..]);
    }
  }

  lemma {:induction false} ParseLintAppend(v: Vocabulary, r: Reading, a: seq<string>, b: seq<string>)
    ensures ParseLint(v, r, a + b) == ParseLint(v, ParseLint(v, r, a), b)
    decreases |a|
  {
    if a == [] {
      assert a + b == b;
    } else {
      assert (a + b)[1..] == a[1..] + b;
      ParseLintAppend(v, TakeLint(v, r, a[0]), a[1..], b);
    }
  }

  lemma {:induction false} ParseLintKeepsArgs(v: Vocabulary, r: Reading, args: seq<string>)
    ensures ParseLint(v, r, args).parsed.lintArgs == r.parsed.lintArgs + args
    decreases |args|
  {
    if args == [] {
      assert r.parsed.lintArgs + args == r.parsed.lintArgs;
    } else {
      var s := TakeLint(v, r, args[0]);
      TakeLintLeaves(v, r, args[0]);
      ParseLintKeepsArgs(v, s, args[1..]);
      assert (r.parsed.lintArgs + [args[0]]) + args[1..] == r.parsed.lintArgs + args;
    }
  }

  lemma {:induction false} SeparatorOfJoined(lint: seq<string>, cargo: seq<string>)
    requires SEPARATOR !in lint
    ensures SeparatorAt(Joined(lint, cargo)) == |lint|
    ensures Joined(lint, cargo)[..|lint|] == lint
    ensures cargo != [] ==> Joined(lint, cargo)[|lint| + 1..] == cargo
  {
    var argv := Joined(lint, cargo);
    if lint == [] {
      if cargo != [] { assert argv[0] == SEPARATOR; }
    } else {
      SeparatorOfJoined(lint[1..], cargo);
      assert argv[1..] == Joined(lint[1..], cargo);
      assert argv[0] == lint[0];
    }
  }

  /** A command line put together from lint and cargo arguments parses back into them. */
  lemma {:induction false} ParseJoined(v: Vocabulary, lint: seq<string>, cargo: seq<string>)
    requires SEPARATOR !in lint
    ensures Parse(v, Joined(lint, cargo)) == WithCargo(v, ParseLint(v, START, lint).parsed, cargo)
  {
    SeparatorOfJoined(lint, cargo);
  }

  lemma {:induction false} ParsedHasNoSeparator(v: Vocabulary, argv: seq<string>)
    ensures Parse(v, argv).lintArgs == argv[..SeparatorAt(argv)]
  {
    ParseLintKeepsArgs(v, START, argv[..SeparatorAt(argv)]);
  }

  lemma {:induction false} ParseOne(v: Vocabulary, r: Reading, arg: string)
    ensures ParseLint(v, r, [arg]) == TakeLint(v, r, arg)
  {
    assert [arg][1..] == [];
  }

  lemma {:induction false} ParseTwo(v: Vocabulary, r: Reading, a: string, b: string)
    ensures ParseLint(v, r, [a, b]) == TakeLint(v, TakeLint(v, r, a), b)
  {
    assert [a, b][1..] == [b];
    ParseOne(v, TakeLint(v, r, a), b);
  }

  /** What the defaults set when they are parsed. */
  predicate SetsDefaults(d: Reading, p: ParsedWrapperArgs) {
    && d.want == Nothing
    && d.parsed.hasManifestPath == !p.hasManifestPath
    && d.parsed.hasPackageSelection == !(p.hasPackageSelection || p.hasManifestPath)
    && d.parsed.hasNoDeps == !p.hasNoDeps
    && !d.parsed.hasFix && !d.parsed.hasLibrarySelection
  }

  lemma {:induction false} ParseDefaults(v: Vocabulary, p: ParsedWrapperArgs, manifestPath: string)
    requires Speaks(v)
    ensures SetsDefaults(ParseLint(v, START, Defaults(p, manifestPath)), p)
  {
    var a := if p.hasManifestPath then [] else [MANIFEST_PATH, manifestPath];
    var b := if p.hasPackageSelection || p.hasManifestPath then [] else [WORKSPACE];
    var c := if p.hasNoDeps then [] else [NO_DEPS];
    var ra := ParseLint(v, START, a);
    var rb := ParseLint(v, ra, b);
    ParseLintAppend(v, START, a + b, c);
    ParseLintAppend(v, START, a, b);
    ParseTwo(v, START, MANIFEST_PATH, manifestPath);
    ParseOne(v, ra, WORKSPACE);
    ParseOne(v, rb, NO_DEPS);
  }

  lemma {:induction false} DefaultsHaveNoSeparator(p: ParsedWrapperArgs, manifestPath: string)
    requires manifestPath != SEPARATOR || p.hasManifestPath
    ensures SEPARATOR !in Defaults(p, manifestPath)
  {
    assert MANIFEST_PATH[2] == 'm' && WORKSPACE[2] == 'w' && NO_DEPS[2] == 'n';
    assert |SEPARATOR| == 2 && |MANIFEST_PATH| > 2 && |WORKSPACE| > 2 && |NO_DEPS| > 2;
  }

  /** The rebuilt command line, parsed. */
  lemma {:induction false} ParseRewritten(v: Vocabulary, argv: seq<string>, manifestPath: string)
    requires Speaks(v) && (manifestPath != SEPARATOR || Parse(v, argv).hasManifestPath)
    ensures var p, q := Parse(v, argv), Parse(v, Rewrite(v, argv, manifestPath));
            && q.lintArgs == Defaults(p, manifestPath) + p.lintArgs
            && q.cargoArgs == CargoArgs(p)
            && q.hasManifestPath && q.hasNoDeps && q.hasFix == p.hasFix
            && q.hasCargoTargetSelection == AnySelects(v, CargoArgs(p))
  {
    var p := Parse(v, argv);
    var lint, d := argv[..SeparatorAt(argv)], Defaults(p, manifestPath);
    ParsedHasNoSeparator(v, argv);
    DefaultsHaveNoSeparator(p, manifestPath);
    ParseJoined(v, d + lint, CargoArgs(p));
    ParseLintKeepsArgs(v, START, d + lint);
    ParseAfterDefaults(v, p, manifestPath, lint);
  }

  lemma {:induction false} ParseAfterDefaults(v: Vocabulary, p: ParsedWrapperArgs, manifestPath: string,
                                              lint: seq<string>)
    requires Speaks(v)
    ensures var q, l := ParseLint(v, START, Defaults(p, manifestPath) + lint).parsed, ParseLint(v, START, lint).parsed;
            && q.hasManifestPath == (!p.hasManifestPath || l.hasManifestPath)
            && q.hasNoDeps == (!p.hasNoDeps || l.hasNoDeps)
            && q.hasFix == l.hasFix
  {
    var d := Defaults(p, manifestPath);
    ParseLintAppend(v, START, d, lint);
    ParseDefaults(v, p, manifestPath);
    var pre := ParseLint(v, START, d);
    LintLeavesCargo(v, START, d);
    assert After(pre.parsed, EMPTY) == pre.parsed;
    ParseLintAfter(v, pre.parsed, START, lint);
  }

  /** Rewriting again changes nothing, unless the first pass writes the separator as the
      manifest path. */
  lemma {:induction false} RewriteIdempotentWhen(v: Vocabulary, argv: seq<string>, manifestPath: string)
    requires Speaks(v) && (manifestPath != SEPARATOR || Parse(v, argv).hasManifestPath)
    ensures Rewrite(v, Rewrite(v, argv, manifestPath), manifestPath) == Rewrite(v, argv, manifestPath)
  {
    ParseRewritten(v, argv, manifestPath);
    var p, q := Parse(v, argv), Parse(v, Rewrite(v, argv, manifestPath));
    assert Defaults(q, manifestPath) + q.lintArgs == q.lintArgs;
    if !p.hasFix && !p.hasCargoTargetSelection { GrownSelection(v, p.cargoArgs, ALL_TARGETS); }
  }

  /** With the separator for a manifest path that has to be supplied, each pass adds
      arguments. */
  lemma {:induction false} RewriteGrows(v: Vocabulary, argv: seq<string>)
    requires Speaks(v) && !Parse(v, argv).hasManifestPath
    ensures |Rewrite(v, Rewrite(v, argv, SEPARATOR), SEPARATOR)| > |Rewrite(v, argv, SEPARATOR)|
  {
    var out := Rewrite(v, argv, SEPARATOR);
    OpensWithSeparator(Parse(v, argv));
    var q := Parse(v, out);
    ParseOne(v, START, MANIFEST_PATH);
    assert out[..1] == [MANIFEST_PATH];
    assert !q.hasManifestPath && !q.hasPackageSelection && !q.hasNoDeps;
    assert |q.lintArgs| == 1 && q.cargoArgs == out[2..];
  }

  lemma {:induction false} OpensWithSeparator(p: ParsedWrapperArgs)
    requires !p.hasManifestPath
    ensures var out := Build(p, SEPARATOR); |out| >= 2 && out[0] == MANIFEST_PATH && SeparatorAt(out) == 1
  {
    var out := Build(p, SEPARATOR);
    assert MANIFEST_PATH[2] == 'm' && |SEPARATOR| == 2;
    assert out[0] == MANIFEST_PATH && out[1] == SEPARATOR;
    assert out[1..][0] == SEPARATOR;
  }

  /** Rewriting is idempotent exactly when the manifest path is not the separator or the
      command line already names a manifest path. */
  lemma {:induction false} RewriteIdempotent(argv: seq<string>, manifestPath: string)
    ensures Rewrite(CARGO, Rewrite(CARGO, argv, manifestPath), manifestPath) == Rewrite(CARGO, argv, manifestPath) <==>
            manifestPath != SEPARATOR || Parse(CARGO, argv).hasManifestPath
  {
    CargoSpeaks();
    if manifestPath != SEPARATOR || Parse(CARGO, argv).hasManifestPath {
      RewriteIdempotentWhen(CARGO, argv, manifestPath);
    } else {
      RewriteGrows(CARGO, argv);
    }
  }
}
