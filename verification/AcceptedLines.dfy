/** The scanner that counts and fingerprints accepted lines of a unified diff. */
module AcceptedLines {
  import opened Basics

  /** What the scanner asks of its surroundings: the fingerprint hash (domain, value) and
      Unicode's alphanumeric test. */
  datatype Tables = Tables(hash: (string, string) -> string, alphanumeric: char -> bool)

  datatype Fingerprint = Fingerprint(pathHash: string, lineHash: string)

  datatype Summary = Summary(added: nat, deleted: nat, fingerprints: seq<Fingerprint>)

  // ----- text

  predicate HasNewline(s: string) {
    '\n' in s
  }

  function StripCr(line: string): (r: string)
    ensures r <= line && |line| - 1 <= |r|
  {
    if line != [] && line[|line| - 1] == '\r' then line[..|line| - 1] else line
  }

  /** The lines of `text`, the first of which has already read `current`. */
  function LinesFrom(current: string, text: string): (r: seq<string>)
    decreases |text|
  {
    if text == [] then (if current == [] then [] else [current])
    else if text[0] == '\n' then [StripCr(current)] + LinesFrom([], text[1..])
    else LinesFrom(current + [text[0]], text[1..])
  }

  /** Rust's `str::lines`: lines end at `\n` or `\r\n`, the last terminator optional. */
  function Lines(text: string): (r: seq<string>) {
    LinesFrom([], text)
  }

  /** Unicode White_Space. */
  predicate IsWhitespace(c: char) {
    var n := c as int;
    9 <= n <= 13 || n == 0x20 || n == 0x85 || n == 0xA0 || n == 0x1680 || 0x2000 <= n <= 0x200A ||
    n == 0x2028 || n == 0x2029 || n == 0x202F || n == 0x205F || n == 0x3000
  }

  function TrimEnd(s: string): (r: string)
    ensures r <= s
  {
    if s != [] && IsWhitespace(s[|s| - 1]) then TrimEnd(s[..|s| - 1]) else s
  }

  function TrimStart(s: string): (r: string) {
    if s != [] && IsWhitespace(s[0]) then TrimStart(s[1..]) else s
  }

  /** Where the run of non-whitespace at the end of `s` starts. */
  function LastWordAt(s: string): (k: nat)
    ensures k <= |s|
    ensures s != [] && !IsWhitespace(s[|s| - 1]) ==> k < |s|
  {
    if s == [] || IsWhitespace(s[|s| - 1]) then |s| else LastWordAt(s[..|s| - 1])
  }

  /** The maximal runs of non-whitespace, in order. */
  function Words(s: string): (r: seq<string>)
    decreases |s|
  {
    if s == [] then []
    else if IsWhitespace(s[|s| - 1]) then Words(s[..|s| - 1])
    else Words(s[..LastWordAt(s)]) + [s[LastWordAt(s)..]]
  }

  function JoinSpace(ws: seq<string>): (r: string) {
    if ws == [] then [] else if |ws| == 1 then ws[0] else ws[0] + [' '] + JoinSpace(ws[1..])
  }

  function Utf8Length(s: string): (n: nat) {
    if s == [] then 0
    else
      var c := s[0] as int;
      (if c < 0x80 then 1 else if c < 0x800 then 2 else if c < 0x10000 then 3 else 4) + Utf8Length(s[1..])
  }

  // ----- normalisers

  function NormalizeDiffPath(path: string): (r: Option<string>) {
    var trimmed := TrimEnd(TrimStart(path));
    if trimmed == "/dev/null" then None
    else if "b/" <= trimmed then Some(trimmed[2..])
    else if "a/" <= trimmed then Some(trimmed[2..])
    else Some(trimmed)
  }

  function NormalizeEffectiveLine(t: Tables, line: string): (r: Option<string>) {
    var normalized := JoinSpace(Words(line));
    if Utf8Length(normalized) <= 3 then None
    else if !exists i :: 0 <= i < |normalized| && (t.alphanumeric(normalized[i]) || normalized[i] == '_') then None
    else Some(normalized)
  }

  function EffectivePrints(t: Tables, path: Option<string>, line: string): (r: seq<Fingerprint>) {
    var effective := NormalizeEffectiveLine(t, line);
    if path.Some? && effective.Some?
    then [Fingerprint(t.hash("path", path.value), t.hash("line", effective.value))]
    else []
  }

  // ----- the scanner

  datatype Scan = Scan(path: Option<string>, inHunk: bool, added: nat, deleted: nat, prints: seq<Fingerprint>)

  /** Tables that leave text as it is, for when only the counts matter. */
  const PLAIN := Tables((domain: string, value: string) => value, (c: char) => false)

  const START := Scan(None, false, 0, 0, [])

  function ScanLine(t: Tables, s: Scan, line: string): Scan {
    if "diff --git " <= line then s.(path := None, inHunk := false)
    else if "@@ " <= line then s.(inHunk := true)
    else if !s.inHunk && "+++ " <= line then s.(path := NormalizeDiffPath(line[4..]))
    else if !s.inHunk && "--- " <= line then s
    else if "+" <= line then s.(added := s.added + 1, prints := s.prints + EffectivePrints(t, s.path, line[1..]))
    else if "-" <= line then s.(deleted := s.deleted + 1)
    else s
  }

  function ScanLines(t: Tables, s: Scan, lines: seq<string>): Scan
    decreases |lines|
  {
    if lines == [] then s else ScanLines(t, ScanLine(t, s, lines[0]), lines[1..])
  }

  function Tally(s: Scan): Summary {
    Summary(s.added, s.deleted, s.prints)
  }

  function Summarize(t: Tables, text: string): Summary {
    Tally(ScanLines(t, START, Lines(text)))
  }

  lemma {:induction false} CountsIgnoreTables(t: Tables, u: Tables, a: Scan, b: Scan, lines: seq<string>)
    requires a.(prints := b.prints) == b
    ensures ScanLines(t, a, lines).(prints := []) == ScanLines(u, b, lines).(prints := [])
    decreases |lines|
  {
    if lines != [] {
      var c, d := ScanLine(t, a, lines[0]), ScanLine(u, b, lines[0]);
      assert c.(prints := d.prints) == d;
      CountsIgnoreTables(t, u, c, d, lines[1..]);
    }
  }

  /** The counts do not depend on the hash or the character tables. */
  lemma {:induction false} SummaryCounts(t: Tables, u: Tables, text: string)
    ensures Summarize(t, text).added == Summarize(u, text).added &&
            Summarize(t, text).deleted == Summarize(u, text).deleted
  {
    CountsIgnoreTables(t, u, START, START, Lines(text));
  }

  /** The scanner as it runs, line by line over its five variables. */
  method AcceptedLineFingerprintsFromUnifiedDiff(t: Tables, unifiedDiff: string) returns (r: Summary)
    ensures r == Summarize(t, unifiedDiff)
  {
    var currentPath: Option<string> := None;
    var inHunk := false;
    var added, deleted := 0, 0;
    var prints: seq<Fingerprint> := [];
    var lines := Lines(unifiedDiff);
    for i := 0 to |lines|
      invariant ScanLines(t, START, lines) == ScanLines(t, Scan(currentPath, inHunk, added, deleted, prints),
                lines[i..])
    {
      var line := lines[i];
      assert lines[i..][1..] == lines[i + 1..] && prints + [] == prints;
      if "diff --git " <= line {
        currentPath, inHunk := None, false;
        continue;
      }
      if "@@ " <= line {
        inHunk := true;
        continue;
      }
      if !inHunk && "+++ " <= line {
        currentPath := NormalizeDiffPath(line[4..]);
        continue;
      }
      if !inHunk && "--- " <= line {
        continue;
      }
      if "+" <= line {
        added := added + 1;
        if currentPath.Some? {
          var effective := NormalizeEffectiveLine(t, line[1..]);
          if effective.Some? {
            prints := prints + [Fingerprint(t.hash("path", currentPath.value), t.hash("line", effective.value))];
          }
        }
        continue;
      }
      if "-" <= line {
        deleted := deleted + 1;
      }
    }
    r := Summary(added, deleted, prints);
  }

  // ----- diffs as git structures and prints them (POSIX diff, "Diff -u or -U Output Format")

  datatype HunkLine = Context(text: string) | Added(text: string) | Deleted(text: string) | NoNewline

  datatype Hunk = Hunk(range: string, lines: seq<HunkLine>)

  /** `target` is the path on the new side, `None` for a deleted file. */
  datatype Body = NoText | Text(oldName: string, target: Option<string>, hunks: seq<Hunk>)

  datatype FileDiff = FileDiff(title: string, extended: seq<string>, body: Body)

  /** An extended header line (index, mode, rename, similarity, binary): none of them opens
      like a header or a changed line. */
  predicate Neutral(line: string) {
    !("diff --git " <= line) && !("@@ " <= line) && !("+" <= line) && !("-" <= line)
  }

  predicate ValidHunkLine(l: HunkLine) {
    l.NoNewline? || !HasNewline(l.text)
  }

  predicate ValidHunk(h: Hunk) {
    !HasNewline(h.range) && forall i :: 0 <= i < |h.lines| ==> ValidHunkLine(h.lines[i])
  }

  predicate ValidFile(f: FileDiff) {
    && !HasNewline(f.title)
    && (forall i :: 0 <= i < |f.extended| ==> !HasNewline(f.extended[i]) && Neutral(f.extended[i]))
    && (f.body.Text? ==>
          && !HasNewline(f.body.oldName)
          && (f.body.target.Some? ==> !HasNewline(f.body.target.value))
          && forall i :: 0 <= i < |f.body.hunks| ==> ValidHunk(f.body.hunks[i]))
  }

  const NO_NEWLINE := " No newline at end of file"

  function PrintHunkLine(l: HunkLine): string {
    match l
    case Context(text) => [' '] + text
    case Added(text) => ['+'] + text
    case Deleted(text) => ['-'] + text
    case NoNewline => ['\\'] + NO_NEWLINE
  }

  function PrintHunkLines(ls: seq<HunkLine>): seq<string> {
    if ls == [] then [] else [PrintHunkLine(ls[0])] + PrintHunkLines(ls[1..])
  }

  function PrintHunks(hs: seq<Hunk>): seq<string> {
    if hs == [] then [] else ["@@ " + hs[0].range] + PrintHunkLines(hs[0].lines) + PrintHunks(hs[1..])
  }

  function PrintTarget(target: Option<string>): string {
    match target
    case None => "/dev/null"
    case Some(path) => "b/" + path
  }

  function PrintBody(b: Body): seq<string> {
    match b
    case NoText => []
    case Text(oldName, target, hunks) => ["--- " + oldName, "+++ " + PrintTarget(target)] + PrintHunks(hunks)
  }

  function PrintFile(f: FileDiff): seq<string> {
    ["diff --git " + f.title] + f.extended + PrintBody(f.body)
  }

  function PrintFiles(fs: seq<FileDiff>): seq<string> {
    if fs == [] then [] else PrintFile(fs[0]) + PrintFiles(fs[1..])
  }

  function Terminated(lines: seq<string>): string {
    if lines == [] then [] else lines[0] + (['\n'] + Terminated(lines[1..]))
  }

  function PrintDiff(fs: seq<FileDiff>): string {
    Terminated(PrintFiles(fs))
  }

  // ----- what the structure says the summary is

  function HunkLineSummary(t: Tables, path: Option<string>, l: HunkLine): Summary {
    match l
    case Added(text) => Summary(1, 0, EffectivePrints(t, path, text))
    case Deleted(_) => Summary(0, 1, [])
    case _ => Summary(0, 0, [])
  }

  function Plus(a: Summary, b: Summary): Summary {
    Summary(a.added + b.added, a.deleted + b.deleted, a.fingerprints + b.fingerprints)
  }

  const NOTHING := Summary(0, 0, [])

  function HunkLinesSummary(t: Tables, path: Option<string>, ls: seq<HunkLine>): Summary {
    if ls == [] then NOTHING else Plus(HunkLineSummary(t, path, ls[0]), HunkLinesSummary(t, path, ls[1..]))
  }

  function HunksSummary(t: Tables, path: Option<string>, hs: seq<Hunk>): Summary {
    if hs == [] then NOTHING else Plus(HunkLinesSummary(t, path, hs[0].lines), HunksSummary(t, path, hs[1..]))
  }

  /** The path a target is fingerprinted under. */
  function TargetPath(target: Option<string>): Option<string> {
    match target
    case None => None
    case Some(path) => Some(TrimEnd(path))
  }

  function BodySummary(t: Tables, b: Body): Summary {
    match b
    case NoText => NOTHING
    case Text(_, target, hunks) => HunksSummary(t, TargetPath(target), hunks)
  }

  function DiffSummary(t: Tables, fs: seq<FileDiff>): Summary {
    if fs == [] then NOTHING else Plus(BodySummary(t, fs[0].body), DiffSummary(t, fs[1..]))
  }

  // ----- lines of printed text

  lemma {:induction false} LinesRun(current: string, line: string, rest: string)
    requires !HasNewline(line)
    ensures LinesFrom(current, line + rest) == LinesFrom(current + line, rest)
    decreases |line|
  {
    if line == [] {
      assert line + rest == rest && current + line == current;
    } else {
      assert (line + rest)[0] == line[0] && (line + rest)[1..] == line[1..] + rest;
      LinesRun(current + [line[0]], line[1..], rest);
      assert current + [line[0]] + line[1..] == current + line;
    }
  }

  lemma {:induction false} LinesStep(line: string, rest: string)
    requires !HasNewline(line)
    ensures Lines(line + (['\n'] + rest)) == [StripCr(line)] + Lines(rest)
  {
    LinesRun([], line, ['\n'] + rest);
    assert [] + line == line;
    assert (['\n'] + rest)[1..] == rest;
  }

  function StripAll(lines: seq<string>): (r: seq<string>)
    ensures |r| == |lines| && forall i :: 0 <= i < |r| ==> r[i] == StripCr(lines[i])
  {
    seq(|lines|, i requires 0 <= i < |lines| => StripCr(lines[i]))
  }

  lemma {:induction false} StripAllAppend(a: seq<string>, b: seq<string>)
    ensures StripAll(a + b) == StripAll(a) + StripAll(b)
  {
  }

  lemma {:induction false} StripAllOne(x: string)
    ensures StripAll([x]) == [StripCr(x)]
  {
  }

  /** Reading printed lines back gives them without a trailing carriage return. */
  lemma {:induction false} LinesOfTerminated(lines: seq<string>, rest: string)
    requires forall i :: 0 <= i < |lines| ==> !HasNewline(lines[i])
    ensures Lines(Terminated(lines) + rest) == StripAll(lines) + Lines(rest)
  {
    if lines == [] {
      assert Terminated(lines) + rest == rest;
    } else {
      var tail := Terminated(lines[1..]) + rest;
      Regroup(lines[0], ['\n'] + Terminated(lines[1..]), rest);
      Regroup(['\n'], Terminated(lines[1..]), rest);
      LinesStep(lines[0], tail);
      LinesOfTerminated(lines[1..], rest);
      assert lines == [lines[0]] + lines[1..];
      StripAllAppend([lines[0]], lines[1..]);
      StripAllOne(lines[0]);
    }
  }

  // ----- the scanner inverts the printer

  lemma {:induction false} ScanAppend(t: Tables, s: Scan, a: seq<string>, b: seq<string>)
    ensures ScanLines(t, s, a + b) == ScanLines(t, ScanLines(t, s, a), b)
    decreases |a|
  {
    if a == [] {
      assert a + b == b;
    } else {
      assert (a + b)[1..] == a[1..] + b;
      ScanAppend(t, ScanLine(t, s, a[0]), a[1..], b);
    }
  }

  lemma {:induction false} ScanCons(t: Tables, s: Scan, line: string, rest: seq<string>)
    ensures ScanLines(t, s, [line] + rest) == ScanLines(t, ScanLine(t, s, line), rest)
  {
    assert ([line] + rest)[1..] == rest;
  }

  /** The state after counting `x` more. */
  function Counted(s: Scan, x: Summary): Scan {
    s.(added := s.added + x.added, deleted := s.deleted + x.deleted, prints := s.prints + x.fingerprints)
  }

  lemma {:induction false} CountedPlus(s: Scan, x: Summary, y: Summary)
    ensures Counted(Counted(s, x), y) == Counted(s, Plus(x, y))
    ensures Counted(s, NOTHING) == s
  {
  }

  lemma {:induction false} EffectiveIgnoresCr(t: Tables, path: Option<string>, line: string)
    ensures EffectivePrints(t, path, StripCr(line)) == EffectivePrints(t, path, line)
  {
  }

  lemma {:induction false} StripAfter(prefix: string, text: string)
    requires prefix != [] && prefix[|prefix| - 1] != '\r'
    ensures StripCr(prefix + text) == prefix + StripCr(text)
  {
  }

  lemma {:induction false} ReadsHunkHeader(t: Tables, s: Scan, range: string)
    ensures ScanLine(t, s, StripCr("@@ " + range)) == s.(inHunk := true)
  {
    StripAfter("@@ ", range);
    assert ("@@ " + StripCr(range))[..3] == "@@ ";
  }

  lemma {:induction false} ReadsFileHeader(t: Tables, s: Scan, title: string)
    ensures "diff --git " <= StripCr("diff --git " + title)
    ensures ScanLine(t, s, StripCr("diff --git " + title)) == s.(path := None, inHunk := false)
  {
    StripAfter("diff --git ", title);
  }

  lemma {:induction false} ReadsOldName(t: Tables, s: Scan, name: string)
    requires !s.inHunk
    ensures ScanLine(t, s, StripCr("--- " + name)) == s
  {
    StripAfter("--- ", name);
    assert ("--- " + StripCr(name))[0] == '-' && ("--- " + StripCr(name))[..4] == "--- ";
  }

  lemma {:induction false} ReadsNewName(t: Tables, s: Scan, target: Option<string>)
    requires !s.inHunk
    ensures ScanLine(t, s, StripCr("+++ " + PrintTarget(target))) == s.(path := TargetPath(target))
  {
    var name := PrintTarget(target);
    StripAfter("+++ ", name);
    var line := "+++ " + StripCr(name);
    assert line[0] == '+' && line[..4] == "+++ " && line[4..] == StripCr(name);
    TargetTrimmed(target);
  }

  lemma {:induction false} ReadsAdded(t: Tables, s: Scan, text: string)
    requires s.inHunk
    ensures ScanLine(t, s, StripCr(['+'] + text)) == Counted(s, HunkLineSummary(t, s.path, Added(text)))
  {
    StripAfter(['+'], text);
    var line := ['+'] + StripCr(text);
    assert line[0] == '+' && line[1..] == StripCr(text);
    EffectiveIgnoresCr(t, s.path, text);
  }

  lemma {:induction false} ReadsDeleted(t: Tables, s: Scan, text: string)
    requires s.inHunk
    ensures ScanLine(t, s, StripCr(['-'] + text)) == Counted(s, Summary(0, 1, []))
  {
    StripAfter(['-'], text);
    assert (['-'] + StripCr(text))[0] == '-';
    assert s.prints + [] == s.prints;
  }

  lemma {:induction false} ReadsOther(t: Tables, s: Scan, opening: char, text: string)
    requires s.inHunk && (opening == ' ' || opening == '\\')
    ensures ScanLine(t, s, StripCr([opening] + text)) == Counted(s, NOTHING)
  {
    StripAfter([opening], text);
    assert ([opening] + StripCr(text))[0] == opening;
    assert s.prints + [] == s.prints;
  }

  lemma {:induction false} ScanHunkLine(t: Tables, s: Scan, l: HunkLine)
    requires s.inHunk
    ensures ScanLine(t, s, StripCr(PrintHunkLine(l))) == Counted(s, HunkLineSummary(t, s.path, l))
  {
    match l
    case Context(text) => ReadsOther(t, s, ' ', text);
    case Added(text) => ReadsAdded(t, s, text);
    case Deleted(text) => ReadsDeleted(t, s, text);
    case NoNewline =>
      ReadsOther(t, s, '\\', NO_NEWLINE);
  }

  lemma {:induction false} ScanHunkLines(t: Tables, s: Scan, ls: seq<HunkLine>)
    requires s.inHunk
    ensures ScanLines(t, s, StripAll(PrintHunkLines(ls))) == Counted(s, HunkLinesSummary(t, s.path, ls))
    decreases |ls|
  {
    if ls == [] {
      CountedPlus(s, NOTHING, NOTHING);
    } else {
      ScanHunkLine(t, s, ls[0]);
      var x := HunkLineSummary(t, s.path, ls[0]);
      ScanHunkLines(t, Counted(s, x), ls[1..]);
      CountedPlus(s, x, HunkLinesSummary(t, s.path, ls[1..]));
      assert StripAll(PrintHunkLines(ls))[1..] == StripAll(PrintHunkLines(ls[1..]));
    }
  }

  lemma {:induction false} ScanHunks(t: Tables, s: Scan, hs: seq<Hunk>)
    ensures ScanLines(t, s, StripAll(PrintHunks(hs))) ==
            Counted(if hs == [] then s else s.(inHunk := true), HunksSummary(t, s.path, hs))
    decreases |hs|
  {
    if hs == [] {
      CountedPlus(s, NOTHING, NOTHING);
    } else {
      var s1, header := s.(inHunk := true), "@@ " + hs[0].range;
      var body, rest := PrintHunkLines(hs[0].lines), PrintHunks(hs[1..]);
      ReadsHunkHeader(t, s, hs[0].range);
      StripAllAppend([header] + body, rest);
      StripAllAppend([header], body);
      StripAllOne(header);
      ScanAppend(t, s, [StripCr(header)] + StripAll(body), StripAll(rest));
      ScanCons(t, s, StripCr(header), StripAll(body));
      ScanHunkLines(t, s1, hs[0].lines);
      var x := HunkLinesSummary(t, s.path, hs[0].lines);
      ScanHunks(t, Counted(s1, x), hs[1..]);
      CountedPlus(s1, x, HunksSummary(t, s.path, hs[1..]));
    }
  }

  lemma {:induction false} TrimEndStable(prefix: string, text: string)
    requires prefix != [] && !IsWhitespace(prefix[|prefix| - 1])
    ensures TrimEnd(prefix + text) == prefix + TrimEnd(text)
  {
    if text == [] {
      assert prefix + text == prefix;
    } else if IsWhitespace(text[|text| - 1]) {
      assert (prefix + text)[..|prefix + text| - 1] == prefix + text[..|text| - 1];
      TrimEndStable(prefix, text[..|text| - 1]);
    }
  }

  /** A printed `+++` line is read back as its target without the whitespace at its end. */
  lemma {:induction false} TargetTrimmed(target: Option<string>)
    ensures NormalizeDiffPath(StripCr(PrintTarget(target))) == TargetPath(target)
  {
    match target
    case None =>
    case Some(path) =>
      StripAfter("b/", path);
      TrimEndStable("b/", StripCr(path));
      assert TrimEnd(StripCr(path)) == TrimEnd(path);
      var printed := "b/" + StripCr(path);
      assert TrimStart(printed) == printed;
      assert ("b/" + TrimEnd(path))[2..] == TrimEnd(path);
      assert ("b/" + TrimEnd(path))[0] == 'b';
  }

  /** So the path read back is the target exactly when that does not end in whitespace, and
      the target of a deleted file is no path. */
  lemma {:induction false} TargetRead(path: string)
    ensures NormalizeDiffPath(StripCr(PrintTarget(Some(path)))) == Some(path) <==>
            path == [] || !IsWhitespace(path[|path| - 1])
    ensures NormalizeDiffPath(StripCr(PrintTarget(None))) == None
  {
    TargetTrimmed(Some(path));
    TargetTrimmed(None);
    assert path != [] && IsWhitespace(path[|path| - 1]) ==> |TrimEnd(path)| < |path|;
  }

  lemma {:induction false} ScanExtended(t: Tables, s: Scan, ls: seq<string>)
    requires forall i :: 0 <= i < |ls| ==> Neutral(ls[i])
    ensures ScanLines(t, s, StripAll(ls)) == s
    decreases |ls|
  {
    if ls != [] {
      assert Neutral(StripCr(ls[0]));
      ScanExtended(t, s, ls[1..]);
      assert StripAll(ls)[1..] == StripAll(ls[1..]);
    }
  }

  /** What a `diff --git` line leaves of a state. */
  function Forget(s: Scan): Scan {
    s.(path := None, inHunk := false)
  }

  lemma {:induction false} ScanBody(t: Tables, s: Scan, b: Body)
    requires s.path.None? && !s.inHunk
    ensures var r := ScanLines(t, s, StripAll(PrintBody(b)));
            Forget(r) == Counted(s, BodySummary(t, b))
  {
    match b
    case NoText => CountedPlus(s, NOTHING, NOTHING);
    case Text(oldName, target, hunks) =>
      var l1, l2, rest := "--- " + oldName, "+++ " + PrintTarget(target), PrintHunks(hunks);
      ReadsOldName(t, s, oldName);
      ReadsNewName(t, s, target);
      StripAllAppend([l1, l2], rest);
      assert StripAll([l1, l2]) == [StripCr(l1)] + [StripCr(l2)];
      ScanAppend(t, s, [StripCr(l1)] + [StripCr(l2)], StripAll(rest));
      ScanCons(t, s, StripCr(l1), [StripCr(l2)]);
      ScanHunks(t, s.(path := TargetPath(target)), hunks);
  }

  /** Between files only the counts and the fingerprints carry over. */
  lemma {:induction false} ScanFile(t: Tables, s: Scan, f: FileDiff)
    requires ValidFile(f)
    ensures Forget(ScanLines(t, s, StripAll(PrintFile(f)))) == Counted(Forget(s), BodySummary(t, f.body))
  {
    var s1, header := Forget(s), "diff --git " + f.title;
    ReadsFileHeader(t, s, f.title);
    StripAllAppend([header] + f.extended, PrintBody(f.body));
    StripAllAppend([header], f.extended);
    StripAllOne(header);
    ScanAppend(t, s, [StripCr(header)] + StripAll(f.extended), StripAll(PrintBody(f.body)));
    ScanCons(t, s, StripCr(header), StripAll(f.extended));
    ScanExtended(t, s1, f.extended);
    ScanBody(t, s1, f.body);
  }

  /** A `diff --git` line makes the scanner forget its path and hunk. */
  lemma {:induction false} ForgetsAtFile(t: Tables, s: Scan, lines: seq<string>)
    requires lines == [] || "diff --git " <= lines[0]
    ensures Forget(ScanLines(t, s, lines)) == Forget(ScanLines(t, Forget(s), lines))
  {
  }

  lemma {:induction false} ScanFiles(t: Tables, s: Scan, fs: seq<FileDiff>)
    requires forall i :: 0 <= i < |fs| ==> ValidFile(fs[i])
    ensures Forget(ScanLines(t, s, StripAll(PrintFiles(fs)))) == Counted(Forget(s), DiffSummary(t, fs))
    decreases |fs|
  {
    if fs == [] {
      CountedPlus(Forget(s), NOTHING, NOTHING);
    } else {
      var first, rest := StripAll(PrintFile(fs[0])), StripAll(PrintFiles(fs[1..]));
      StripAllAppend(PrintFile(fs[0]), PrintFiles(fs[1..]));
      ScanAppend(t, s, first, rest);
      ScanFile(t, s, fs[0]);
      FilesOpen(fs[1..]);
      var x := BodySummary(t, fs[0].body);
      ForgetsAtFile(t, ScanLines(t, s, first), rest);
      ScanFiles(t, Counted(Forget(s), x), fs[1..]);
      CountedPlus(Forget(s), x, DiffSummary(t, fs[1..]));
    }
  }

  lemma {:induction false} FilesOpen(fs: seq<FileDiff>)
    ensures var lines := StripAll(PrintFiles(fs)); lines == [] || "diff --git " <= lines[0]
  {
    if fs != [] { ReadsFileHeader(PLAIN, START, fs[0].title); }
  }

  // ----- printed lines hold no newline

  predicate Unbroken(lines: seq<string>) {
    forall i :: 0 <= i < |lines| ==> !HasNewline(lines[i])
  }

  lemma {:induction false} HunkLinesUnbroken(ls: seq<HunkLine>)
    requires forall i :: 0 <= i < |ls| ==> ValidHunkLine(ls[i])
    ensures Unbroken(PrintHunkLines(ls))
  {
    if ls != [] { HunkLinesUnbroken(ls[1..]); }
  }

  lemma {:induction false} HunksUnbroken(hs: seq<Hunk>)
    requires forall i :: 0 <= i < |hs| ==> ValidHunk(hs[i])
    ensures Unbroken(PrintHunks(hs))
  {
    if hs != [] {
      HunkLinesUnbroken(hs[0].lines);
      HunksUnbroken(hs[1..]);
    }
  }

  lemma {:induction false} FileUnbroken(f: FileDiff)
    requires ValidFile(f)
    ensures Unbroken(PrintFile(f))
  {
    if f.body.Text? { HunksUnbroken(f.body.hunks); }
  }

  lemma {:induction false} FilesUnbroken(fs: seq<FileDiff>)
    requires forall i :: 0 <= i < |fs| ==> ValidFile(fs[i])
    ensures Unbroken(PrintFiles(fs))
  {
    if fs != [] {
      FileUnbroken(fs[0]);
      FilesUnbroken(fs[1..]);
    }
  }

  /** Scanning the printed form of any structured diff gives exactly its added and deleted
      counts and the fingerprints of its effective added lines, in order, even where changed
      lines look like file headers. */
  lemma {:induction false} ScannerInvertsPrinter(t: Tables, fs: seq<FileDiff>)
    requires forall i :: 0 <= i < |fs| ==> ValidFile(fs[i])
    ensures Summarize(t, PrintDiff(fs)) == DiffSummary(t, fs)
  {
    FilesUnbroken(fs);
    LinesOfTerminated(PrintFiles(fs), []);
    assert PrintDiff(fs) + [] == PrintDiff(fs) && StripAll(PrintFiles(fs)) + [] == StripAll(PrintFiles(fs));
    ScanFiles(t, START, fs);
  }

  // ----- summaries of concatenated diffs add

  lemma {:induction false} LinesAppend(current: string, a: string, b: string)
    requires a != [] && a[|a| - 1] == '\n'
    ensures LinesFrom(current, a + b) == LinesFrom(current, a) + Lines(b)
    decreases |a|
  {
    assert (a + b)[0] == a[0] && (a + b)[1..] == a[1..] + b;
    if |a| == 1 {
      assert a[1..] == [] && [] + b == b;
    } else if a[0] == '\n' {
      LinesAppend([], a[1..], b);
    } else {
      LinesAppend(current + [a[0]], a[1..], b);
    }
  }

  function Fresh(s: Scan): Scan {
    Scan(s.path, s.inHunk, 0, 0, [])
  }

  lemma {:induction false} PlusAssociates(x: Summary, y: Summary, z: Summary)
    ensures Plus(Plus(x, y), z) == Plus(x, Plus(y, z))
    ensures Plus(x, NOTHING) == x && Plus(NOTHING, x) == x
  {
  }

  lemma {:induction false} LineCounts(t: Tables, s: Scan, line: string)
    ensures var r, z := ScanLine(t, s, line), ScanLine(t, Fresh(s), line);
            Tally(r) == Plus(Tally(s), Tally(z)) && Fresh(r) == Fresh(z)
  {
  }

  /** Scanning counts the same more from every state with the same path and hunk. */
  lemma {:induction false} ScanCounts(t: Tables, s: Scan, lines: seq<string>)
    ensures Tally(ScanLines(t, s, lines)) == Plus(Tally(s), Tally(ScanLines(t, Fresh(s), lines)))
    decreases |lines|
  {
    if lines == [] {
      PlusAssociates(Tally(s), NOTHING, NOTHING);
    } else {
      var r, z := ScanLine(t, s, lines[0]), ScanLine(t, Fresh(s), lines[0]);
      LineCounts(t, s, lines[0]);
      ScanCounts(t, r, lines[1..]);
      ScanCounts(t, z, lines[1..]);
      PlusAssociates(Tally(s), Tally(z), Tally(ScanLines(t, Fresh(r), lines[1..])));
    }
  }

  lemma {:induction false} LineSummariesAdd(t: Tables, a: seq<string>, b: seq<string>)
    requires b != [] && "diff --git " <= b[0]
    ensures Tally(ScanLines(t, START, a + b)) == Plus(Tally(ScanLines(t, START, a)), Tally(ScanLines(t, START, b)))
  {
    var s := ScanLines(t, START, a);
    ScanAppend(t, START, a, b);
    ScanCounts(t, Forget(s), b[1..]);
    assert ScanLine(t, s, b[0]) == Forget(s) && ScanLine(t, START, b[0]) == START;
  }

  /** The summary of two diffs, one after the other, is the sum of their summaries when the
      first ends its last line and the second starts a file. */
  lemma {:induction false} SummariesAdd(t: Tables, a: string, b: string)
    requires a == [] || a[|a| - 1] == '\n'
    requires "diff --git " <= b
    ensures Summarize(t, a + b) == Plus(Summarize(t, a), Summarize(t, b))
  {
    OpensFile(b);
    LinesOfBoth(a, b);
    LineSummariesAdd(t, Lines(a), Lines(b));
  }

  lemma {:induction false} LinesOfBoth(a: string, b: string)
    requires a == [] || a[|a| - 1] == '\n'
    ensures Lines(a + b) == Lines(a) + Lines(b)
  {
    if a == [] {
      assert a + b == b;
    } else {
      LinesAppend([], a, b);
    }
  }

  lemma {:induction false} OpensFile(b: string)
    requires "diff --git " <= b
    ensures Lines(b) != [] && "diff --git " <= Lines(b)[0]
  {
    var opening := "diff --git ";
    var rest := b[|opening|..];
    assert b == opening + rest && [] + opening == opening;
    LinesRun([], opening, rest);
    FirstLineKeeps(opening, opening, rest);
  }

  lemma {:induction false} FirstLineKeeps(start: string, current: string, text: string)
    requires start != [] && start[|start| - 1] != '\r' && start <= current
    ensures LinesFrom(current, text) != [] && start <= LinesFrom(current, text)[0]
    decreases |text|
  {
    if text != [] {
      if text[0] == '\n' {
        assert start <= StripCr(current);
      } else {
        FirstLineKeeps(start, current + [text[0]], text[1..]);
      }
    }
  }
}
