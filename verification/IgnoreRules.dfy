/** The layers of ignore rules: the package's file, the user-wide file and the
    built-in rules, decided level by level from the top folder down. How one
    glob matches is a parameter here; `Escape` has a small language for it. */
module IgnoreRules {
  import opened Wrappers
  import opened RulesText
  import opened RulesFile
  import opened Escape

  /** How globs read: which texts are globs at all, what each matches, and the
      built-in rules with what each matches, case ignored. */
  datatype Globs = Globs(
    valid: string -> bool,
    hits: (string, Path, bool) -> bool,
    builtIn: seq<string>,
    foldedHits: (string, Path, bool) -> bool)

  // ---- One file ----

  /** A loaded rules file: its globs' texts, each with its line number. */
  datatype RuleFile = RuleFile(contents: string, globs: seq<string>, lines: seq<(string, nat)>)

  /** The texts that make globs, each with its number, from line `number` on. */
  function Numbered(texts: seq<Option<string>>, number: nat): seq<(string, nat)> {
    if texts == [] then []
    else
      var rest := Numbered(texts[1..], number + 1);
      if texts[0].Some? then [(texts[0].value, number)] + rest else rest
  }

  function GlobsOf(lines: seq<(string, nat)>): (globs: seq<string>)
    ensures |globs| == |lines| && forall i | 0 <= i < |lines| :: globs[i] == lines[i].0
  {
    seq(|lines|, i requires 0 <= i < |lines| => lines[i].0)
  }

  /** The file `contents` makes; none when one of its lines is no glob. */
  function Parsed(globs: Globs, contents: string): Option<RuleFile> {
    var lines := Numbered(Texts(contents), 1);
    if AllValid(globs, lines) then Some(RuleFile(contents, GlobsOf(lines), lines)) else None
  }

  predicate AllValid(globs: Globs, lines: seq<(string, nat)>) {
    forall i | 0 <= i < |lines| :: globs.valid(lines[i].0)
  }

  lemma {:induction false} NumberedConcat(a: seq<Option<string>>, b: seq<Option<string>>, number: nat)
    ensures Numbered(a + b, number) == Numbered(a, number) + Numbered(b, number + |a|)
  {
    if a == [] {
      assert a + b == b;
    } else {
      assert (a + b)[1..] == a[1..] + b;
      NumberedConcat(a[1..], b, number + 1);
    }
  }

  /** The next line adds its glob, if it makes one. */
  lemma NumberedNext(texts: seq<Option<string>>, i: nat)
    requires i < |texts|
    ensures Numbered(texts[..i + 1], 1) ==
              Numbered(texts[..i], 1) + if texts[i].Some? then [(texts[i].value, i + 1)] else []
  {
    assert texts[..i + 1] == texts[..i] + [texts[i]];
    NumberedConcat(texts[..i], [texts[i]], 1);
    assert [texts[i]][1..] == [];
  }

  /** **Each line that makes a glob, with its number**, and no other, in order. */
  lemma {:induction false} NumberedMeans(texts: seq<Option<string>>, number: nat, text: string, k: nat)
    ensures (text, k) in Numbered(texts, number) <==>
              number <= k < number + |texts| && texts[k - number] == Some(text)
    ensures var lines := Numbered(texts, number);
            forall i, j | 0 <= i < j < |lines| :: number <= lines[i].1 < lines[j].1
    ensures forall i | 0 <= i < |Numbered(texts, number)| :: number <= Numbered(texts, number)[i].1
  {
    if texts != [] {
      NumberedMeans(texts[1..], number + 1, text, k);
      var rest := Numbered(texts[1..], number + 1);
      if texts[0].Some? {
        assert Numbered(texts, number) == [(texts[0].value, number)] + rest;
      }
    }
  }

  lemma NumberedPrefix(texts: seq<Option<string>>, i: nat)
    requires i <= |texts|
    ensures Numbered(texts[..i], 1) <= Numbered(texts, 1)
  {
    assert texts == texts[..i] + texts[i..];
    NumberedConcat(texts[..i], texts[i..], 1);
  }

  method ParseFile(globs: Globs, contents: string) returns (r: Option<RuleFile>)
    ensures r == Parsed(globs, contents)
  {
    var pieces := Pieces(contents);
    var lines: seq<(string, nat)> := [];
    var made: seq<string> := [];
    var i := 0;
    while i < |pieces|
      invariant 0 <= i <= |pieces|
      invariant lines == Numbered(Texts(contents)[..i], 1)
      invariant made == GlobsOf(lines) && AllValid(globs, lines)
    {
      var line := LineOf(pieces[i]);
      if i == 0 {
        line := TrimBom(line);
      }
      var text := GlobText(line);
      assert text == Texts(contents)[i];
      NumberedNext(Texts(contents), i);
      NumberedPrefix(Texts(contents), i + 1);
      if text.Some? {
        ghost var all := Numbered(Texts(contents), 1);
        assert all[|lines|] == (text.value, i + 1);
        if !globs.valid(text.value) {
          return None;
        }
        lines := lines + [(text.value, i + 1)];
        made := made + [text.value];
      }
      i := i + 1;
    }
    assert Texts(contents)[..i] == Texts(contents);
    return Some(RuleFile(contents, made, lines));
  }

  /** The last of the first `n` globs to match. */
  function LastHit(hits: (string, Path, bool) -> bool, globs: seq<string>, path: Path, dir: bool): (r: Option<nat>)
    ensures r.Some? ==> r.value < |globs| && hits(globs[r.value], path, dir)
                        && forall j | r.value < j < |globs| :: !hits(globs[j], path, dir)
    ensures r.None? ==> forall j | 0 <= j < |globs| :: !hits(globs[j], path, dir)
  {
    if globs == [] then None
    else if hits(globs[|globs| - 1], path, dir) then Some(|globs| - 1)
    else LastHit(hits, globs[..|globs| - 1], path, dir)
  }

  predicate Whitelists(text: string) {
    text != "" && text[0] == '!'
  }

  datatype Verdict = Ignore(glob: string) | Whitelist | NoMatch

  function Matched(hits: (string, Path, bool) -> bool, globs: seq<string>, path: Path, dir: bool): Verdict {
    var hit := LastHit(hits, globs, path, dir);
    if hit.None? then NoMatch
    else if Whitelists(globs[hit.value]) then Whitelist
    else Ignore(globs[hit.value])
  }

  /** The number of the last line with this text; 0 when there is none. */
  function LineNumber(lines: seq<(string, nat)>, original: string): nat {
    if lines == [] then 0
    else if lines[|lines| - 1].0 == original then lines[|lines| - 1].1
    else LineNumber(lines[..|lines| - 1], original)
  }

  /** **The line shown is the line that decided**, whatever lines repeat it. */
  lemma {:induction false} TheLineThatDecided(hits: (string, Path, bool) -> bool, lines: seq<(string, nat)>,
                                              path: Path, dir: bool)
    ensures var hit := LastHit(hits, GlobsOf(lines), path, dir);
            hit.Some? ==> LineNumber(lines, GlobsOf(lines)[hit.value]) == lines[hit.value].1
  {
    if lines != [] {
      var n := |lines| - 1;
      assert GlobsOf(lines)[..n] == GlobsOf(lines[..n]);
      TheLineThatDecided(hits, lines[..n], path, dir);
    }
  }

  // ---- The layers ----

  datatype Rules = Rules(package: Option<RuleFile>, user: Option<RuleFile>)

  datatype Source = Default | User(line: nat) | PackageFile(line: nat)

  datatype IgnoredBy = IgnoredBy(pattern: string, source: Source)

  const QUILTIGNORE: Name := ".quiltignore"

  function VerdictOf(globs: Globs, file: Option<RuleFile>, path: Path, dir: bool): Verdict {
    if file.None? then NoMatch else Matched(globs.hits, file.value.globs, path, dir)
  }

  /** The rule ignoring `path` itself, not counting its folders. */
  function LevelIgnoredBy(globs: Globs, rules: Rules, path: Path, dir: bool, tracked: bool): Option<IgnoredBy> {
    var package := VerdictOf(globs, rules.package, path, dir);
    if package.Ignore? then
      Some(IgnoredBy(package.glob, PackageFile(LineNumber(rules.package.value.lines, package.glob))))
    else if package.Whitelist? || tracked || (!dir && path == [QUILTIGNORE]) then None
    else
      var user := VerdictOf(globs, rules.user, path, dir);
      if user.Ignore? then Some(IgnoredBy(user.glob, User(LineNumber(rules.user.value.lines, user.glob))))
      else if user.Whitelist? then None
      else
        var builtIn := Matched(globs.foldedHits, globs.builtIn, path, dir);
        if builtIn.Ignore? then Some(IgnoredBy(builtIn.glob, Default)) else None
  }

  /** The first level of `path`, from level `n` on, that a rule ignores. */
  function IgnoredFrom(globs: Globs, rules: Rules, path: Path, isDir: bool, tracked: bool, n: nat): Option<IgnoredBy>
    requires n <= |path|
    decreases |path| - n
  {
    if n == |path| then None
    else
      var found := LevelIgnoredBy(globs, rules, path[..n + 1], isDir || n + 1 < |path|, tracked);
      if found.Some? then found else IgnoredFrom(globs, rules, path, isDir, tracked, n + 1)
  }

  function PathIgnoredBy(globs: Globs, rules: Rules, path: Path, isDir: bool, tracked: bool): Option<IgnoredBy> {
    IgnoredFrom(globs, rules, path, isDir, tracked, 0)
  }

  lemma PushName(path: Path, i: nat)
    requires i < |path|
    ensures path[..i] + [path[i]] == path[..i + 1]
  {
  }

  method FindIgnoredBy(globs: Globs, rules: Rules, path: Path, isDir: bool, tracked: bool)
    returns (r: Option<IgnoredBy>)
    ensures r == PathIgnoredBy(globs, rules, path, isDir, tracked)
  {
    var prefix: Path := [];
    var i := 0;
    while i < |path|
      invariant 0 <= i <= |path| && prefix == path[..i]
      invariant PathIgnoredBy(globs, rules, path, isDir, tracked) == IgnoredFrom(globs, rules, path, isDir, tracked, i)
    {
      PushName(path, i);
      prefix := prefix + [path[i]];
      var found := LevelIgnoredBy(globs, rules, prefix, isDir || i + 1 < |path|, tracked);
      if found.Some? {
        return found;
      }
      i := i + 1;
    }
    return None;
  }

  // ---- What hides a path ----

  /** The globs of the two files, which are all a verdict looks at. */
  datatype Layers = Layers(package: seq<string>, user: seq<string>)

  function FileGlobs(file: Option<RuleFile>): seq<string> {
    if file.None? then [] else file.value.globs
  }

  function LayersOf(rules: Rules): Layers {
    Layers(FileGlobs(rules.package), FileGlobs(rules.user))
  }

  predicate LevelHides(globs: Globs, layers: Layers, path: Path, dir: bool, tracked: bool) {
    var package := Matched(globs.hits, layers.package, path, dir);
    var user := Matched(globs.hits, layers.user, path, dir);
    || package.Ignore?
    || (&& package.NoMatch? && !tracked && (dir || path != [QUILTIGNORE])
        && (user.Ignore? || (user.NoMatch? && Matched(globs.foldedHits, globs.builtIn, path, dir).Ignore?)))
  }

  /** Some level of the path, a folder above it or itself, is hidden. */
  predicate Hides(globs: Globs, layers: Layers, path: Path, isDir: bool, tracked: bool) {
    exists n | 1 <= n <= |path| :: HidesLevel(globs, layers, path, isDir, tracked, n)
  }

  predicate HidesLevel(globs: Globs, layers: Layers, path: Path, isDir: bool, tracked: bool, n: nat)
    requires 1 <= n <= |path|
  {
    LevelHides(globs, layers, path[..n], isDir || n < |path|, tracked)
  }

  /** What the search level by level answers: a rule when some level is hidden,
      and then the rule of the first such level. */
  lemma {:induction false} IgnoredFromHides(globs: Globs, rules: Rules, path: Path, isDir: bool, tracked: bool, n: nat)
    requires n <= |path|
    ensures IgnoredFrom(globs, rules, path, isDir, tracked, n).None? <==>
              forall m | n < m <= |path| :: !HidesLevel(globs, LayersOf(rules), path, isDir, tracked, m)
    decreases |path| - n
  {
    if n < |path| {
      IgnoredFromHides(globs, rules, path, isDir, tracked, n + 1);
      LevelHidden(globs, rules, path, isDir, tracked, n);
    }
  }

  lemma LevelHidden(globs: Globs, rules: Rules, path: Path, isDir: bool, tracked: bool, n: nat)
    requires n < |path|
    ensures LevelIgnoredBy(globs, rules, path[..n + 1], isDir || n + 1 < |path|, tracked).Some? <==>
            HidesLevel(globs, LayersOf(rules), path, isDir, tracked, n + 1)
  {
  }

  lemma IgnoredMeansHidden(globs: Globs, rules: Rules, path: Path, isDir: bool, tracked: bool)
    ensures PathIgnoredBy(globs, rules, path, isDir, tracked).Some? <==>
            Hides(globs, LayersOf(rules), path, isDir, tracked)
  {
    IgnoredFromHides(globs, rules, path, isDir, tracked, 0);
  }

  // ---- The rule that is named ----

  /** Of the globs that match, the last. */
  predicate Decides(hits: (string, Path, bool) -> bool, globs: seq<string>, k: nat, path: Path, dir: bool) {
    k < |globs| && hits(globs[k], path, dir) && forall j | k < j < |globs| :: !hits(globs[j], path, dir)
  }

  predicate Silent(hits: (string, Path, bool) -> bool, globs: seq<string>, path: Path, dir: bool) {
    forall j | 0 <= j < |globs| :: !hits(globs[j], path, dir)
  }

  /** The glob that decides. */
  predicate DecidesAs(hits: (string, Path, bool) -> bool, globs: seq<string>, path: Path, dir: bool, glob: string) {
    exists k | 0 <= k < |globs| :: Decides(hits, globs, k, path, dir) && globs[k] == glob
  }

  lemma OneDecides(hits: (string, Path, bool) -> bool, globs: seq<string>, k: nat, path: Path, dir: bool)
    ensures Decides(hits, globs, k, path, dir) <==> LastHit(hits, globs, path, dir) == Some(k)
  {
  }

  /** **The last match decides**: a `!` glob lets the path be, any other ignores it. */
  lemma MatchedMeans(hits: (string, Path, bool) -> bool, globs: seq<string>, path: Path, dir: bool, glob: string)
    ensures Matched(hits, globs, path, dir).NoMatch? <==> Silent(hits, globs, path, dir)
    ensures Matched(hits, globs, path, dir) == Ignore(glob) <==>
              DecidesAs(hits, globs, path, dir, glob) && !("!" <= glob)
    ensures "!" <= glob && DecidesAs(hits, globs, path, dir, glob) ==> Matched(hits, globs, path, dir).Whitelist?
  {
    var hit := LastHit(hits, globs, path, dir);
    forall k | 0 <= k < |globs| ensures Decides(hits, globs, k, path, dir) <==> hit == Some(k) {
      OneDecides(hits, globs, k, path, dir);
    }
  }

  /** The file's line that decides: its text and its number. */
  predicate LineDecides(hits: (string, Path, bool) -> bool, lines: seq<(string, nat)>, path: Path, dir: bool,
                        pattern: string, line: nat)
  {
    && !("!" <= pattern)
    && exists k | 0 <= k < |lines| :: Decides(hits, GlobsOf(lines), k, path, dir) && lines[k] == (pattern, line)
  }

  lemma LineDecidesIs(hits: (string, Path, bool) -> bool, lines: seq<(string, nat)>, path: Path, dir: bool,
                      pattern: string, line: nat)
    ensures LineDecides(hits, lines, path, dir, pattern, line) <==>
            Matched(hits, GlobsOf(lines), path, dir) == Ignore(pattern) && LineNumber(lines, pattern) == line
  {
    TheLineThatDecided(hits, lines, path, dir);
    var hit := LastHit(hits, GlobsOf(lines), path, dir);
    forall k | 0 <= k < |lines| ensures Decides(hits, GlobsOf(lines), k, path, dir) <==> hit == Some(k) {
      OneDecides(hits, GlobsOf(lines), k, path, dir);
    }
    if hit.Some? {
      assert lines[hit.value] == (GlobsOf(lines)[hit.value], lines[hit.value].1);
    }
  }

  function LinesOf(file: Option<RuleFile>): seq<(string, nat)> {
    if file.None? then [] else file.value.lines
  }

  /** Neither the package's file nor being tracked settles the path, and it is not
      the rules file itself. */
  predicate LeftToUser(globs: Globs, rules: Rules, path: Path, dir: bool, tracked: bool) {
    Silent(globs.hits, GlobsOf(LinesOf(rules.package)), path, dir) && !tracked && (dir || path != [QUILTIGNORE])
  }

  /** `by` is the rule that ignores this level: the package's line that decides, or
      the user's when the package has none, or the built-in rule when neither has. */
  ghost predicate Names(globs: Globs, rules: Rules, path: Path, dir: bool, tracked: bool, rule: IgnoredBy) {
    match rule.source
    case PackageFile(line) => LineDecides(globs.hits, LinesOf(rules.package), path, dir, rule.pattern, line)
    case User(line) =>
      && LeftToUser(globs, rules, path, dir, tracked)
      && LineDecides(globs.hits, LinesOf(rules.user), path, dir, rule.pattern, line)
    case Default =>
      && LeftToUser(globs, rules, path, dir, tracked)
      && Silent(globs.hits, GlobsOf(LinesOf(rules.user)), path, dir)
      && DecidesAs(globs.foldedHits, globs.builtIn, path, dir, rule.pattern) && !("!" <= rule.pattern)
  }

  /** A file's globs are its lines' texts, as loading leaves them. */
  predicate FromLines(file: Option<RuleFile>) {
    file.Some? ==> file.value.globs == GlobsOf(file.value.lines)
  }

  lemma VerdictNames(globs: Globs, file: Option<RuleFile>, path: Path, dir: bool, pattern: string, line: nat)
    requires FromLines(file)
    ensures VerdictOf(globs, file, path, dir).NoMatch? <==> Silent(globs.hits, GlobsOf(LinesOf(file)), path, dir)
    ensures LineDecides(globs.hits, LinesOf(file), path, dir, pattern, line) <==>
            && VerdictOf(globs, file, path, dir) == Ignore(pattern)
            && LineNumber(LinesOf(file), pattern) == line
  {
    MatchedMeans(globs.hits, GlobsOf(LinesOf(file)), path, dir, pattern);
    LineDecidesIs(globs.hits, LinesOf(file), path, dir, pattern, line);
    assert file.None? ==> GlobsOf(LinesOf(file)) == [];
  }

  /** **The rule shown is the rule that decides**, with its text, its file and its
      line, in the order package, user, built-in. */
  lemma LevelNames(globs: Globs, rules: Rules, path: Path, dir: bool, tracked: bool, rule: IgnoredBy)
    requires FromLines(rules.package) && FromLines(rules.user)
    ensures LevelIgnoredBy(globs, rules, path, dir, tracked) == Some(rule) <==>
            Names(globs, rules, path, dir, tracked, rule)
  {
    var line := match rule.source case PackageFile(line) => line case User(line) => line case Default => 0;
    VerdictNames(globs, rules.package, path, dir, rule.pattern, line);
    VerdictNames(globs, rules.user, path, dir, rule.pattern, line);
    MatchedMeans(globs.foldedHits, globs.builtIn, path, dir, rule.pattern);
  }

  /** For a path it is the rule of the first hidden level. */
  lemma {:induction false} PathNames(globs: Globs, rules: Rules, path: Path, isDir: bool, tracked: bool,
                                     rule: IgnoredBy, n: nat)
    requires FromLines(rules.package) && FromLines(rules.user) && n <= |path|
    ensures IgnoredFrom(globs, rules, path, isDir, tracked, n) == Some(rule) <==>
            FirstNames(globs, rules, path, isDir, tracked, rule, n)
    decreases |path| - n
  {
    if n < |path| {
      PathNames(globs, rules, path, isDir, tracked, rule, n + 1);
      LevelNames(globs, rules, path[..n + 1], isDir || n + 1 < |path|, tracked, rule);
      LevelHidden(globs, rules, path, isDir, tracked, n);
      NamesOn(globs, rules, path, isDir, tracked, rule, n);
    }
  }

  /** The first hidden level from `n` on is the next one, or the first after it. */
  lemma NamesOn(globs: Globs, rules: Rules, path: Path, isDir: bool, tracked: bool, rule: IgnoredBy, n: nat)
    requires n < |path|
    requires Names(globs, rules, path[..n + 1], isDir || n + 1 < |path|, tracked, rule) ==>
               HidesLevel(globs, LayersOf(rules), path, isDir, tracked, n + 1)
    ensures FirstNames(globs, rules, path, isDir, tracked, rule, n) <==>
            if HidesLevel(globs, LayersOf(rules), path, isDir, tracked, n + 1) then
              Names(globs, rules, path[..n + 1], isDir || n + 1 < |path|, tracked, rule)
            else FirstNames(globs, rules, path, isDir, tracked, rule, n + 1)
  {
    var next := n + 1;
    if HidesLevel(globs, LayersOf(rules), path, isDir, tracked, n + 1) {
      if Names(globs, rules, path[..n + 1], isDir || n + 1 < |path|, tracked, rule) {
        assert NamesFirst(globs, rules, path, isDir, tracked, rule, n, next);
      }
    } else {
      NamesLater(globs, rules, path, isDir, tracked, rule, n);
    }
  }

  lemma NamesLater(globs: Globs, rules: Rules, path: Path, isDir: bool, tracked: bool, rule: IgnoredBy, n: nat)
    requires n < |path| && !HidesLevel(globs, LayersOf(rules), path, isDir, tracked, n + 1)
    requires !Names(globs, rules, path[..n + 1], isDir || n + 1 < |path|, tracked, rule)
    ensures FirstNames(globs, rules, path, isDir, tracked, rule, n) <==>
            FirstNames(globs, rules, path, isDir, tracked, rule, n + 1)
  {
    var next := n + 1;
    if FirstNames(globs, rules, path, isDir, tracked, rule, n) {
      var k :| n < k <= |path| && NamesFirst(globs, rules, path, isDir, tracked, rule, n, k);
      assert NamesFirst(globs, rules, path, isDir, tracked, rule, next, k);
    }
    if FirstNames(globs, rules, path, isDir, tracked, rule, next) {
      var k :| next < k <= |path| && NamesFirst(globs, rules, path, isDir, tracked, rule, next, k);
      assert NamesFirst(globs, rules, path, isDir, tracked, rule, n, k);
    }
  }

  ghost predicate FirstNames(globs: Globs, rules: Rules, path: Path, isDir: bool, tracked: bool, rule: IgnoredBy,
                             n: nat)
    requires n <= |path|
  {
    exists k | n < k <= |path| :: NamesFirst(globs, rules, path, isDir, tracked, rule, n, k)
  }

  /** Level `k` is ignored by that rule, and none of the levels from `n` before it
      is hidden. */
  ghost predicate NamesFirst(globs: Globs, rules: Rules, path: Path, isDir: bool, tracked: bool, rule: IgnoredBy,
                             n: nat, k: nat)
    requires n < k <= |path|
  {
    && Names(globs, rules, path[..k], isDir || k < |path|, tracked, rule)
    && forall m | n < m < k :: !HidesLevel(globs, LayersOf(rules), path, isDir, tracked, m)
  }

  /** **What a path is said to be ignored by**: in loaded rules, the rule of its
      first hidden level, and no other. */
  lemma IgnoredByNames(globs: Globs, rules: Rules, path: Path, isDir: bool, tracked: bool, rule: IgnoredBy)
    requires Loaded(globs, rules)
    ensures PathIgnoredBy(globs, rules, path, isDir, tracked) == Some(rule) <==>
            FirstNames(globs, rules, path, isDir, tracked, rule, 0)
  {
    LoadedFromLines(globs, rules);
    PathNames(globs, rules, path, isDir, tracked, rule, 0);
  }

  lemma LoadedFromLines(globs: Globs, rules: Rules)
    requires Loaded(globs, rules)
    ensures FromLines(rules.package) && FromLines(rules.user)
  {
  }

  // ---- Pruning ----

  lemma {:induction false} BelowIgnored(globs: Globs, rules: Rules, path: Path, rest: Path, isDir: bool, tracked: bool,
                                        n: nat)
    requires n <= |path| && rest != [] && IgnoredFrom(globs, rules, path, true, tracked, n).Some?
    ensures IgnoredFrom(globs, rules, path + rest, isDir, tracked, n)
         == IgnoredFrom(globs, rules, path, true, tracked, n)
    decreases |path| - n
  {
    assert (path + rest)[..n + 1] == path[..n + 1];
    if LevelIgnoredBy(globs, rules, path[..n + 1], true, tracked).None? {
      BelowIgnored(globs, rules, path, rest, isDir, tracked, n + 1);
    }
  }

  /** **An ignored folder decides for all in it**: everything below has the
      folder's own verdict. */
  lemma IgnoredFolderDecides(globs: Globs, rules: Rules, path: Path, rest: Path, isDir: bool, tracked: bool)
    requires rest != [] && PathIgnoredBy(globs, rules, path, true, tracked).Some?
    ensures PathIgnoredBy(globs, rules, path + rest, isDir, tracked) == PathIgnoredBy(globs, rules, path, true, tracked)
  {
    BelowIgnored(globs, rules, path, rest, isDir, tracked, 0);
  }

  /** **Being tracked only spares**: a path hidden though tracked is hidden by a
      package rule, and is hidden when it is not tracked as well. */
  lemma {:induction false} TrackedOnlySpares(globs: Globs, rules: Rules, path: Path, isDir: bool, n: nat)
    requires n <= |path| && IgnoredFrom(globs, rules, path, isDir, true, n).Some?
    ensures IgnoredFrom(globs, rules, path, isDir, true, n).value.source.PackageFile?
    ensures IgnoredFrom(globs, rules, path, isDir, false, n).Some?
    decreases |path| - n
  {
    if LevelIgnoredBy(globs, rules, path[..n + 1], isDir || n + 1 < |path|, true).None? {
      TrackedOnlySpares(globs, rules, path, isDir, n + 1);
    }
  }

  // ---- Adding `!` lines ----

  function FileOf(rules: Rules, scope: Scope): Option<RuleFile> {
    match scope
    case Package => rules.package
    case AllPackages => rules.user
  }

  function TextOfFile(rules: Rules, scope: Scope): string {
    if FileOf(rules, scope).None? then "" else FileOf(rules, scope).value.contents
  }

  /** The rules with `lines` at the end of `scope`'s file, in memory. */
  function WithLines(globs: Globs, rules: Rules, scope: Scope, lines: seq<string>): Option<Rules> {
    var file := Parsed(globs, Appended(TextOfFile(rules, scope), lines));
    if file.None? then None
    else Some(match scope
              case Package => rules.(package := file)
              case AllPackages => rules.(user := file))
  }

  function Added(layers: Layers, scope: Scope, lines: seq<string>): Layers {
    match scope
    case Package => layers.(package := layers.package + lines)
    case AllPackages => layers.(user := layers.user + lines)
  }

  /** Rules as they are after loading: each file is what its text parses to. */
  predicate Loaded(globs: Globs, rules: Rules) {
    && (rules.package.Some? ==> Parsed(globs, rules.package.value.contents) == rules.package)
    && (rules.user.Some? ==> Parsed(globs, rules.user.value.contents) == rules.user)
  }

  lemma {:induction false} NumberedLines(lines: seq<string>, number: nat)
    ensures GlobsOf(Numbered(AllSome(lines), number)) == lines
  {
    if lines != [] {
      NumberedLines(lines[1..], number + 1);
      assert AllSome(lines)[1..] == AllSome(lines[1..]);
      var rest := Numbered(AllSome(lines[1..]), number + 1);
      assert Numbered(AllSome(lines), number) == [(lines[0], number)] + rest;
      assert GlobsOf([(lines[0], number)] + rest) == [lines[0]] + GlobsOf(rest);
    }
  }

  /** Every line added must be a glob, and the text before it must read on as it did. */
  predicate CanAdd(globs: Globs, rules: Rules, scope: Scope, lines: seq<string>) {
    && !LastHoldsReturn(TextOfFile(rules, scope))
    && forall line <- lines :: GoodLine(line) && globs.valid(line)
  }

  lemma GlobsConcat(globs: Globs, a: seq<(string, nat)>, b: seq<(string, nat)>)
    ensures GlobsOf(a + b) == GlobsOf(a) + GlobsOf(b)
    ensures AllValid(globs, a) && AllValid(globs, b) ==> AllValid(globs, a + b)
  {
  }

  lemma LinesAreValid(globs: Globs, lines: seq<string>, number: nat)
    requires forall line <- lines :: globs.valid(line)
    ensures AllValid(globs, Numbered(AllSome(lines), number))
  {
    NumberedLines(lines, number);
    var numbered := Numbered(AllSome(lines), number);
    forall i | 0 <= i < |numbered| ensures globs.valid(numbered[i].0) {
      assert GlobsOf(numbered)[i] == lines[i];
    }
  }

  lemma ParsedAppended(globs: Globs, contents: string, lines: seq<string>)
    requires Parsed(globs, contents).Some? && !LastHoldsReturn(contents)
    requires GoodLines(lines) && forall line <- lines :: globs.valid(line)
    ensures var after := Parsed(globs, Appended(contents, lines));
            after.Some? && after.value.globs == Parsed(globs, contents).value.globs + lines
  {
    AppendedTexts(contents, lines);
    var texts := Texts(contents);
    NumberedConcat(texts, AllSome(lines), 1);
    NumberedLines(lines, 1 + |texts|);
    LinesAreValid(globs, lines, 1 + |texts|);
    GlobsConcat(globs, Numbered(texts, 1), Numbered(AllSome(lines), 1 + |texts|));
  }

  /** Adding lines adds their globs after the file's own and changes nothing else. */
  lemma WithLinesAdds(globs: Globs, rules: Rules, scope: Scope, lines: seq<string>)
    requires Loaded(globs, rules) && CanAdd(globs, rules, scope, lines)
    ensures WithLines(globs, rules, scope, lines).Some?
    ensures LayersOf(WithLines(globs, rules, scope, lines).value) == Added(LayersOf(rules), scope, lines)
  {
    assert Texts("") == [];
    ParsedAppended(globs, TextOfFile(rules, scope), lines);
  }

  predicate AllWhitelist(lines: seq<string>) {
    forall line <- lines :: Whitelists(line)
  }

  lemma {:induction false} LastHitConcat(hits: (string, Path, bool) -> bool, a: seq<string>, b: seq<string>,
                                         path: Path, dir: bool)
    ensures Matched(hits, a + b, path, dir) ==
              if Matched(hits, b, path, dir).NoMatch? then Matched(hits, a, path, dir) else Matched(hits, b, path, dir)
  {
    if b == [] {
      assert a + b == a;
    } else {
      var n := |b| - 1;
      assert (a + b)[..|a + b| - 1] == a + b[..n];
      LastHitConcat(hits, a, b[..n], path, dir);
      assert (a + b)[|a + b| - 1] == b[n];
    }
  }

  /** `!` lines that match a path hide it nowhere; those that do not leave it alone. */
  lemma AddedMatched(hits: (string, Path, bool) -> bool, own: seq<string>, lines: seq<string>, path: Path, dir: bool)
    requires AllWhitelist(lines)
    ensures Matched(hits, own + lines, path, dir) ==
              if exists line <- lines :: hits(line, path, dir) then Whitelist else Matched(hits, own, path, dir)
  {
    LastHitConcat(hits, own, lines, path, dir);
    var hit := LastHit(hits, lines, path, dir);
    if hit.Some? {
      assert lines[hit.value] in lines;
    }
  }

  /** **Added `!` lines newly hide nothing**, at any level, tracked or not. */
  lemma AddedHidesNothingNew(globs: Globs, layers: Layers, scope: Scope, lines: seq<string>,
                             path: Path, dir: bool, tracked: bool)
    requires AllWhitelist(lines)
    ensures LevelHides(globs, Added(layers, scope, lines), path, dir, tracked) ==>
              LevelHides(globs, layers, path, dir, tracked)
    ensures (forall line <- lines :: !globs.hits(line, path, dir)) ==>
              (LevelHides(globs, Added(layers, scope, lines), path, dir, tracked) <==>
               LevelHides(globs, layers, path, dir, tracked))
    ensures (exists line <- lines :: globs.hits(line, path, dir)) ==>
              (LevelHides(globs, Added(layers, scope, lines), path, dir, tracked) <==>
               scope.AllPackages? && Matched(globs.hits, layers.package, path, dir).Ignore?)
  {
    AddedMatched(globs.hits, layers.package, lines, path, dir);
    AddedMatched(globs.hits, layers.user, lines, path, dir);
  }

  // ---- Bringing a path back ----

  datatype StopError = LineBreak | BadRules

  type Stopped = Result<Option<seq<string>>, StopError>

  /** What the search does at one level: nothing, add a line, or stop. */
  datatype Level = Visible | Reopened(rules: Rules, lines: seq<string>) | Settled(answer: Stopped)

  /** One level: `current` is the rules with the `lines` found so far added. */
  function TryLevel(globs: Globs, rules: Rules, current: Rules, prefix: Path, dir: bool, tracked: bool, scope: Scope,
                    lines: seq<string>): Level
  {
    if PathIgnoredBy(globs, current, prefix, dir, tracked).None? then Visible
    else
      var line := StopLine(prefix, dir, scope);
      if line.None? then Settled(Err(LineBreak))
      else
        var longer := lines + [line.value];
        var next := WithLines(globs, rules, scope, longer);
        if next.None? then Settled(Err(BadRules))
        else if PathIgnoredBy(globs, next.value, prefix, dir, tracked).Some? then Settled(Ok(None))
        else Reopened(next.value, longer)
  }

  /** The search from level `n` on, outermost first. */
  function StopFrom(globs: Globs, rules: Rules, current: Rules, path: Path, isDir: bool, tracked: bool, scope: Scope,
                    n: nat, lines: seq<string>): Stopped
    requires n <= |path|
    decreases |path| - n
  {
    if n == |path| then Ok(Some(lines))
    else
      match TryLevel(globs, rules, current, path[..n + 1], isDir || n + 1 < |path|, tracked, scope, lines)
      case Visible => StopFrom(globs, rules, current, path, isDir, tracked, scope, n + 1, lines)
      case Reopened(next, longer) => StopFrom(globs, rules, next, path, isDir, tracked, scope, n + 1, longer)
      case Settled(answer) => answer
  }

  /** The `!` lines that bring a path back in `scope`, outermost first. */
  function StopLines(globs: Globs, rules: Rules, path: Path, isDir: bool, tracked: bool, scope: Scope): Stopped {
    StopFrom(globs, rules, rules, path, isDir, tracked, scope, 0, [])
  }

  /** No lines come back for exactly a path that is not hidden. */
  ghost predicate AnswersHidden(globs: Globs, rules: Rules, path: Path, isDir: bool, tracked: bool, scope: Scope,
                                r: Stopped)
  {
    Faithful(globs) && Loaded(globs, rules) && !LastHoldsReturn(TextOfFile(rules, scope)) ==>
      (r == Ok(Some([])) <==> !Hides(globs, LayersOf(rules), path, isDir, tracked))
  }

  lemma HiddenAnswered(globs: Globs, rules: Rules, path: Path, isDir: bool, tracked: bool, scope: Scope)
    ensures AnswersHidden(globs, rules, path, isDir, tracked, scope,
                          StopLines(globs, rules, path, isDir, tracked, scope))
  {
    if Faithful(globs) && Loaded(globs, rules) && !LastHoldsReturn(TextOfFile(rules, scope)) {
      NothingToStop(globs, rules, path, isDir, tracked, scope);
    }
  }

  method StopIgnoringLines(globs: Globs, rules: Rules, path: Path, isDir: bool, tracked: bool, scope: Scope)
    returns (r: Stopped)
    ensures r == StopLines(globs, rules, path, isDir, tracked, scope)
    ensures AnswersHidden(globs, rules, path, isDir, tracked, scope, r)
  {
    HiddenAnswered(globs, rules, path, isDir, tracked, scope);
    var lines: seq<string> := [];
    var current := rules;
    var prefix: Path := [];
    var i := 0;
    while i < |path|
      invariant 0 <= i <= |path| && prefix == path[..i]
      invariant StopLines(globs, rules, path, isDir, tracked, scope) ==
                  StopFrom(globs, rules, current, path, isDir, tracked, scope, i, lines)
    {
      PushName(path, i);
      prefix := prefix + [path[i]];
      var level := Reopen(globs, rules, current, prefix, isDir || i + 1 < |path|, tracked, scope, lines);
      match level {
        case Visible =>
        case Reopened(next, longer) => current, lines := next, longer;
        case Settled(answer) => return answer;
      }
      i := i + 1;
    }
    return Ok(Some(lines));
  }

  method Reopen(globs: Globs, rules: Rules, current: Rules, prefix: Path, dir: bool, tracked: bool, scope: Scope,
                lines: seq<string>)
    returns (level: Level)
    ensures level == TryLevel(globs, rules, current, prefix, dir, tracked, scope, lines)
    ensures level == Visible <==> PathIgnoredBy(globs, current, prefix, dir, tracked).None?
    ensures level.Reopened? ==>
              && StopLine(prefix, dir, scope).Some? && level.lines == lines + [StopLine(prefix, dir, scope).value]
              && WithLines(globs, rules, scope, level.lines) == Some(level.rules)
              && PathIgnoredBy(globs, level.rules, prefix, dir, tracked).None?
  {
    var found := FindIgnoredBy(globs, current, prefix, dir, tracked);
    if found.None? {
      return Visible;
    }
    var line := MakeStopLine(prefix, dir, scope);
    if line.None? {
      return Settled(Err(LineBreak));
    }
    var longer := lines + [line.value];
    var next := WithLines(globs, rules, scope, longer);
    if next.None? {
      return Settled(Err(BadRules));
    }
    found := FindIgnoredBy(globs, next.value, prefix, dir, tracked);
    if found.Some? {
      return Settled(Ok(None));
    }
    return Reopened(next.value, longer);
  }

  /** What a stop line is for: its path, or in the user's file its name. */
  predicate Named(path: Path, dir: bool, scope: Scope, other: Path, otherDir: bool)
    requires path != []
  {
    && (dir ==> otherDir)
    && match scope
       case Package => other == path
       case AllPackages => other != [] && other[|other| - 1] == path[|path| - 1]
  }

  /** Globs that read every stop line as the `!` line it is meant to be. */
  ghost predicate Faithful(globs: Globs) {
    forall path: Path, dir, scope | path != [] && !HasBreak(path) :: ReadsStopLine(globs, path, dir, scope)
  }

  ghost predicate ReadsStopLine(globs: Globs, path: Path, dir: bool, scope: Scope)
    requires path != [] && !HasBreak(path)
  {
    var line := StopLine(path, dir, scope).value;
    && globs.valid(line)
    && forall other: Path, otherDir: bool ::
         globs.hits(line, other, otherDir) <==> Named(path, dir, scope, other, otherDir)
  }

  /** The small language of `Escape` is one. */
  lemma SmallLanguageIsFaithful(foldedHits: (string, Path, bool) -> bool)
    ensures Faithful(Globs(text => ReadLine(text).Some?, LineHits, DEFAULT_RULES, foldedHits))
  {
    var globs := Globs(text => ReadLine(text).Some?, LineHits, DEFAULT_RULES, foldedHits);
    forall path: Path, dir, scope: Scope | path != [] && !HasBreak(path)
      ensures ReadsStopLine(globs, path, dir, scope)
    {
      var line := StopLine(path, dir, scope).value;
      forall other: Path, otherDir: bool
        ensures LineHits(line, other, otherDir) <==> Named(path, dir, scope, other, otherDir)
      {
        if scope.Package? {
          AnchoredLineNamesItsPath(path, dir, other, otherDir);
        } else {
          NameLineNamesTheName(path, dir, other, otherDir);
        }
      }
      assert LineHits(line, path, dir);
    }
  }

  predicate GoodStops(globs: Globs, lines: seq<string>) {
    forall line <- lines :: Whitelists(line) && GoodLine(line) && globs.valid(line)
  }

  /** What holds when the search comes to level `n`: the lines so far are good,
      the rules at hand are the rules with them added, and hide no level yet. */
  ghost predicate Searching(globs: Globs, rules: Rules, current: Rules, path: Path, isDir: bool, tracked: bool,
                            scope: Scope, n: nat, lines: seq<string>)
    requires n <= |path|
  {
    && Faithful(globs) && Loaded(globs, rules) && !LastHoldsReturn(TextOfFile(rules, scope))
    && GoodStops(globs, lines)
    && LayersOf(current) == Added(LayersOf(rules), scope, lines)
    && forall m | 1 <= m <= n :: !HidesLevel(globs, LayersOf(current), path, isDir, tracked, m)
  }

  /** One level of the search: hidden or not, and on to the next when not. */
  lemma SearchStep(globs: Globs, rules: Rules, current: Rules, path: Path, isDir: bool, tracked: bool, scope: Scope,
                   n: nat, lines: seq<string>)
    requires n < |path| && Searching(globs, rules, current, path, isDir, tracked, scope, n, lines)
    ensures PathIgnoredBy(globs, current, path[..n + 1], isDir || n + 1 < |path|, tracked).Some? <==>
            HidesLevel(globs, LayersOf(current), path, isDir, tracked, n + 1)
    ensures !HidesLevel(globs, LayersOf(current), path, isDir, tracked, n + 1) ==>
              Searching(globs, rules, current, path, isDir, tracked, scope, n + 1, lines)
  {
    LevelSettled(globs, current, path, isDir, tracked, n);
  }

  /** A folder's levels are the path's first levels. */
  lemma PrefixLevels(globs: Globs, rules: Rules, path: Path, isDir: bool, tracked: bool, n: nat)
    requires n < |path|
    ensures forall m | 1 <= m <= n + 1 ::
              HidesLevel(globs, LayersOf(rules), path[..n + 1], isDir || n + 1 < |path|, tracked, m) <==>
              HidesLevel(globs, LayersOf(rules), path, isDir, tracked, m)
  {
    forall m | 1 <= m <= n + 1 ensures path[..n + 1][..m] == path[..m] {
    }
  }

  /** The lines with one more stop line can be added, and are good. */
  lemma LongerLines(globs: Globs, rules: Rules, lines: seq<string>, prefix: Path, dir: bool, scope: Scope)
    requires Faithful(globs) && Loaded(globs, rules) && !LastHoldsReturn(TextOfFile(rules, scope))
    requires GoodStops(globs, lines) && prefix != [] && StopLine(prefix, dir, scope).Some?
    ensures var longer := lines + [StopLine(prefix, dir, scope).value];
            var next := WithLines(globs, rules, scope, longer);
            && GoodStops(globs, longer)
            && next.Some?
            && LayersOf(next.value) == Added(LayersOf(rules), scope, longer)
  {
    var line := StopLine(prefix, dir, scope).value;
    assert ReadsStopLine(globs, prefix, dir, scope);
    StopLineIsTidy(prefix, dir, scope);
    TidyIsGood(line);
    WithLinesAdds(globs, rules, scope, lines + [line]);
  }

  lemma AddedTwice(layers: Layers, scope: Scope, lines: seq<string>, line: string)
    ensures Added(layers, scope, lines + [line]) == Added(Added(layers, scope, lines), scope, [line])
  {
    assert layers.package + (lines + [line]) == layers.package + lines + [line];
    assert layers.user + (lines + [line]) == layers.user + lines + [line];
  }

  /** The line of level `n + 1` settles that level and uncovers no other. */
  lemma LevelsAfter(globs: Globs, layers: Layers, path: Path, isDir: bool, tracked: bool, scope: Scope, n: nat,
                    lines: seq<string>, line: string)
    requires n < |path| && AllWhitelist(lines) && Whitelists(line)
    requires globs.hits(line, path[..n + 1], isDir || n + 1 < |path|)
    requires forall m | 1 <= m <= n :: !HidesLevel(globs, Added(layers, scope, lines), path, isDir, tracked, m)
    ensures var after := Added(layers, scope, lines + [line]);
            && (forall m | 1 <= m <= n :: !HidesLevel(globs, after, path, isDir, tracked, m))
            && (HidesLevel(globs, after, path, isDir, tracked, n + 1) <==>
                && scope.AllPackages?
                && Matched(globs.hits, layers.package, path[..n + 1], isDir || n + 1 < |path|).Ignore?)
  {
    AddedTwice(layers, scope, lines, line);
    assert line in lines + [line];
    AddedHidesNothingNew(globs, layers, scope, lines + [line], path[..n + 1], isDir || n + 1 < |path|, tracked);
    forall m | 1 <= m <= n
      ensures !HidesLevel(globs, Added(layers, scope, lines + [line]), path, isDir, tracked, m)
    {
      assert !HidesLevel(globs, Added(layers, scope, lines), path, isDir, tracked, m);
      AddedHidesNothingNew(globs, Added(layers, scope, lines), scope, [line], path[..m], isDir || m < |path|, tracked);
    }
  }

  lemma StopLineHits(globs: Globs, prefix: Path, dir: bool, scope: Scope)
    requires Faithful(globs) && prefix != [] && StopLine(prefix, dir, scope).Some?
    ensures var line := StopLine(prefix, dir, scope).value;
            Whitelists(line) && globs.hits(line, prefix, dir)
  {
    StopLineIsTidy(prefix, dir, scope);
    assert ReadsStopLine(globs, prefix, dir, scope);
  }

  /** Adding the line for level `n + 1`. */
  lemma LineLevels(globs: Globs, rules: Rules, current: Rules, path: Path, isDir: bool, tracked: bool, scope: Scope,
                 n: nat, lines: seq<string>)
    requires n < |path| && Searching(globs, rules, current, path, isDir, tracked, scope, n, lines)
    requires StopLine(path[..n + 1], isDir || n + 1 < |path|, scope).Some?
    ensures var prefix, dir := path[..n + 1], isDir || n + 1 < |path|;
            var longer := lines + [StopLine(prefix, dir, scope).value];
            var next := WithLines(globs, rules, scope, longer);
            && GoodStops(globs, longer)
            && next.Some?
            && LayersOf(next.value) == Added(LayersOf(rules), scope, longer)
            && (forall m | 1 <= m <= n :: !HidesLevel(globs, LayersOf(next.value), path, isDir, tracked, m))
            && (HidesLevel(globs, LayersOf(next.value), path, isDir, tracked, n + 1) <==>
                scope.AllPackages? && Matched(globs.hits, LayersOf(rules).package, prefix, dir).Ignore?)
  {
    var prefix, dir := path[..n + 1], isDir || n + 1 < |path|;
    var line := StopLine(prefix, dir, scope).value;
    LongerLines(globs, rules, lines, prefix, dir, scope);
    StopLineHits(globs, prefix, dir, scope);
    LevelsAfter(globs, LayersOf(rules), path, isDir, tracked, scope, n, lines, line);
  }

  /** Whether a package rule hides some level from `n` on. */
  predicate PackageHides(globs: Globs, rules: Rules, path: Path, isDir: bool, n: nat) {
    exists m | n < m <= |path| :: Matched(globs.hits, LayersOf(rules).package, path[..m], isDir || m < |path|).Ignore?
  }

  /** What an answer found from level `n` on means. */
  predicate Answers(globs: Globs, rules: Rules, path: Path, isDir: bool, tracked: bool, scope: Scope, n: nat,
                    r: Stopped)
  {
    match r
    case Ok(Some(out)) =>
      && GoodStops(globs, out)
      && !Hides(globs, Added(LayersOf(rules), scope, out), path, isDir, tracked)
      && (scope.AllPackages? ==> !PackageHides(globs, rules, path, isDir, n))
    case Ok(None) => scope.AllPackages? && PackageHides(globs, rules, path, isDir, n)
    case Err(error) => error == LineBreak && HasBreak(path)
  }

  lemma {:induction false} StopFromWorks(globs: Globs, rules: Rules, current: Rules, path: Path, isDir: bool,
                                         tracked: bool, scope: Scope, n: nat, lines: seq<string>)
    returns (r: Stopped)
    requires n <= |path| && Searching(globs, rules, current, path, isDir, tracked, scope, n, lines)
    ensures r == StopFrom(globs, rules, current, path, isDir, tracked, scope, n, lines)
    ensures Answers(globs, rules, path, isDir, tracked, scope, n, r)
    decreases |path| - n
  {
    if n == |path| {
      r := Ok(Some(lines));
      AnswersAtEnd(globs, rules, current, path, isDir, tracked, scope, lines);
    } else {
      var level := LevelWorks(globs, rules, current, path, isDir, tracked, scope, n, lines);
      match level {
        case Visible =>
          r := StopFromWorks(globs, rules, current, path, isDir, tracked, scope, n + 1, lines);
          AnswersCarry(globs, rules, path, isDir, tracked, scope, n, r);
        case Reopened(next, longer) =>
          r := StopFromWorks(globs, rules, next, path, isDir, tracked, scope, n + 1, longer);
          AnswersCarry(globs, rules, path, isDir, tracked, scope, n, r);
        case Settled(answer) =>
          r := answer;
      }
      StopFromLevel(globs, rules, current, path, isDir, tracked, scope, n, lines, level, r);
    }
  }

  /** The search goes on from a level as its outcome says. */
  lemma StopFromLevel(globs: Globs, rules: Rules, current: Rules, path: Path, isDir: bool, tracked: bool, scope: Scope,
                      n: nat, lines: seq<string>, level: Level, r: Stopped)
    requires n < |path|
    requires level == TryLevel(globs, rules, current, path[..n + 1], isDir || n + 1 < |path|, tracked, scope, lines)
    requires r == match level
                  case Visible => StopFrom(globs, rules, current, path, isDir, tracked, scope, n + 1, lines)
                  case Reopened(next, longer) =>
                    StopFrom(globs, rules, next, path, isDir, tracked, scope, n + 1, longer)
                  case Settled(answer) => answer
    ensures r == StopFrom(globs, rules, current, path, isDir, tracked, scope, n, lines)
  {
  }

  lemma AnswersAtEnd(globs: Globs, rules: Rules, current: Rules, path: Path, isDir: bool, tracked: bool, scope: Scope,
                     lines: seq<string>)
    requires Searching(globs, rules, current, path, isDir, tracked, scope, |path|, lines)
    ensures Answers(globs, rules, path, isDir, tracked, scope, |path|, Ok(Some(lines)))
  {
  }

  lemma AnswersCarry(globs: Globs, rules: Rules, path: Path, isDir: bool, tracked: bool, scope: Scope, n: nat,
                     r: Stopped)
    requires AnswersOn(globs, rules, path, isDir, tracked, scope, n)
    ensures Answers(globs, rules, path, isDir, tracked, scope, n + 1, r) ==>
              Answers(globs, rules, path, isDir, tracked, scope, n, r)
  {
  }

  /** Answers from the next level on are answers from this one. */
  ghost predicate AnswersOn(globs: Globs, rules: Rules, path: Path, isDir: bool, tracked: bool, scope: Scope, n: nat) {
    forall r: Stopped :: Answers(globs, rules, path, isDir, tracked, scope, n + 1, r)
                         ==> Answers(globs, rules, path, isDir, tracked, scope, n, r)
  }

  /** One level keeps what the search needs, or its answer is the search's. */
  lemma LevelWorks(globs: Globs, rules: Rules, current: Rules, path: Path, isDir: bool, tracked: bool, scope: Scope,
                   n: nat, lines: seq<string>)
    returns (level: Level)
    requires n < |path| && Searching(globs, rules, current, path, isDir, tracked, scope, n, lines)
    ensures level == TryLevel(globs, rules, current, path[..n + 1], isDir || n + 1 < |path|, tracked, scope, lines)
    ensures match level
            case Visible =>
              && Searching(globs, rules, current, path, isDir, tracked, scope, n + 1, lines)
              && AnswersOn(globs, rules, path, isDir, tracked, scope, n)
            case Reopened(next, longer) =>
              && Searching(globs, rules, next, path, isDir, tracked, scope, n + 1, longer)
              && AnswersOn(globs, rules, path, isDir, tracked, scope, n)
            case Settled(answer) => Answers(globs, rules, path, isDir, tracked, scope, n, answer)
  {
    var prefix, dir := path[..n + 1], isDir || n + 1 < |path|;
    level := TryLevel(globs, rules, current, prefix, dir, tracked, scope, lines);
    SearchStep(globs, rules, current, path, isDir, tracked, scope, n, lines);
    if PathIgnoredBy(globs, current, prefix, dir, tracked).None? {
      AnswersBelow(globs, rules, current, path, isDir, tracked, scope, n, lines);
    } else if StopLine(prefix, dir, scope).None? {
      var i :| 0 <= i < |prefix| && '\n' in prefix[i];
      assert '\n' in path[i];
    } else {
      var longer := lines + [StopLine(prefix, dir, scope).value];
      LineStep(globs, rules, current, path, isDir, tracked, scope, n, lines, longer);
      var next := WithLines(globs, rules, scope, longer).value;
      if PathIgnoredBy(globs, next, prefix, dir, tracked).None? {
        AnswersBelow(globs, rules, next, path, isDir, tracked, scope, n, longer);
      } else {
        RefusedHere(globs, rules, path, isDir, tracked, scope, n);
      }
    }
  }

  /** The search after the line for level `n + 1`: on when the level is back,
      refused when a package rule hides it from the user's file. */
  lemma LineStep(globs: Globs, rules: Rules, current: Rules, path: Path, isDir: bool, tracked: bool, scope: Scope,
                 n: nat, lines: seq<string>, longer: seq<string>)
    requires n < |path| && Searching(globs, rules, current, path, isDir, tracked, scope, n, lines)
    requires StopLine(path[..n + 1], isDir || n + 1 < |path|, scope).Some?
    requires longer == lines + [StopLine(path[..n + 1], isDir || n + 1 < |path|, scope).value]
    ensures WithLines(globs, rules, scope, longer).Some?
    ensures var next := WithLines(globs, rules, scope, longer).value;
            if PathIgnoredBy(globs, next, path[..n + 1], isDir || n + 1 < |path|, tracked).None? then
              && LayersOf(next) == Added(LayersOf(rules), scope, longer)
              && !HidesLevel(globs, LayersOf(next), path, isDir, tracked, n + 1)
              && Searching(globs, rules, next, path, isDir, tracked, scope, n + 1, longer)
            else
              && scope.AllPackages?
              && Matched(globs.hits, LayersOf(rules).package, path[..n + 1], isDir || n + 1 < |path|).Ignore?
  {
    LineLevels(globs, rules, current, path, isDir, tracked, scope, n, lines);
    LineOutcome(globs, rules, WithLines(globs, rules, scope, longer).value, path, isDir, tracked, scope, n, longer);
  }

  lemma LineOutcome(globs: Globs, rules: Rules, next: Rules, path: Path, isDir: bool, tracked: bool, scope: Scope,
                    n: nat, longer: seq<string>)
    requires Faithful(globs) && Loaded(globs, rules) && !LastHoldsReturn(TextOfFile(rules, scope))
    requires n < |path| && GoodStops(globs, longer) && LayersOf(next) == Added(LayersOf(rules), scope, longer)
    requires forall m | 1 <= m <= n :: !HidesLevel(globs, LayersOf(next), path, isDir, tracked, m)
    ensures if PathIgnoredBy(globs, next, path[..n + 1], isDir || n + 1 < |path|, tracked).None? then
              && !HidesLevel(globs, LayersOf(next), path, isDir, tracked, n + 1)
              && Searching(globs, rules, next, path, isDir, tracked, scope, n + 1, longer)
            else HidesLevel(globs, LayersOf(next), path, isDir, tracked, n + 1)
  {
    LevelSettled(globs, next, path, isDir, tracked, n);
  }

  lemma RefusedHere(globs: Globs, rules: Rules, path: Path, isDir: bool, tracked: bool, scope: Scope, n: nat)
    requires n < |path| && scope.AllPackages?
    requires Matched(globs.hits, LayersOf(rules).package, path[..n + 1], isDir || n + 1 < |path|).Ignore?
    ensures Answers(globs, rules, path, isDir, tracked, scope, n, Ok(None))
  {
  }

  /** With no level above hidden, a folder is ignored when its own level is. */
  lemma LevelSettled(globs: Globs, rules: Rules, path: Path, isDir: bool, tracked: bool, n: nat)
    requires n < |path|
    requires forall m | 1 <= m <= n :: !HidesLevel(globs, LayersOf(rules), path, isDir, tracked, m)
    ensures PathIgnoredBy(globs, rules, path[..n + 1], isDir || n + 1 < |path|, tracked).Some? <==>
            HidesLevel(globs, LayersOf(rules), path, isDir, tracked, n + 1)
  {
    var prefix, dir := path[..n + 1], isDir || n + 1 < |path|;
    PrefixLevels(globs, rules, path, isDir, tracked, n);
    IgnoredMeansHidden(globs, rules, prefix, dir, tracked);
    if HidesLevel(globs, LayersOf(rules), path, isDir, tracked, n + 1) {
      assert HidesLevel(globs, LayersOf(rules), prefix, dir, tracked, n + 1);
    } else {
      forall m | 1 <= m <= n + 1 ensures !HidesLevel(globs, LayersOf(rules), prefix, dir, tracked, m) {
        assert m <= n ==> !HidesLevel(globs, LayersOf(rules), path, isDir, tracked, m);
      }
    }
  }

  /** An answer from the next level on is one from this level. */
  lemma AnswersBelow(globs: Globs, rules: Rules, current: Rules, path: Path, isDir: bool, tracked: bool,
                     scope: Scope, n: nat, lines: seq<string>)
    requires n < |path| && LayersOf(current) == Added(LayersOf(rules), scope, lines)
    requires !HidesLevel(globs, LayersOf(current), path, isDir, tracked, n + 1)
    ensures AnswersOn(globs, rules, path, isDir, tracked, scope, n)
  {
    if scope.AllPackages? {
      PackageHidesStep(globs, rules, current, path, isDir, tracked, scope, n, lines);
    }
  }

  /** A level that is not hidden has no package rule hiding it. */
  lemma PackageHidesStep(globs: Globs, rules: Rules, current: Rules, path: Path, isDir: bool, tracked: bool,
                         scope: Scope, n: nat, lines: seq<string>)
    requires n < |path| && scope.AllPackages?
    requires LayersOf(current) == Added(LayersOf(rules), scope, lines)
    requires !HidesLevel(globs, LayersOf(current), path, isDir, tracked, n + 1)
    ensures PackageHides(globs, rules, path, isDir, n) <==> PackageHides(globs, rules, path, isDir, n + 1)
  {
  }

  /** **What the lines do.** Lines that come back hide neither the path nor a
      folder above it once added, and newly hide nothing. The user's file refuses
      only what a package rule hides; an error is only ever a line break in a name. */
  lemma StoppingWorks(globs: Globs, rules: Rules, path: Path, isDir: bool, tracked: bool, scope: Scope)
    requires Faithful(globs) && Loaded(globs, rules) && !LastHoldsReturn(TextOfFile(rules, scope))
    ensures match StopLines(globs, rules, path, isDir, tracked, scope)
            case Ok(Some(lines)) =>
              && BringsBack(globs, rules, path, isDir, tracked, scope, lines)
              && (scope.AllPackages? ==> !PackageHides(globs, rules, path, isDir, 0))
            case Ok(None) => scope.AllPackages? && PackageHides(globs, rules, path, isDir, 0)
            case Err(error) => error == LineBreak && HasBreak(path)
  {
    assert LayersOf(rules) == Added(LayersOf(rules), scope, []) by {
      assert LayersOf(rules).package + [] == LayersOf(rules).package;
      assert LayersOf(rules).user + [] == LayersOf(rules).user;
    }
    var r := StopFromWorks(globs, rules, rules, path, isDir, tracked, scope, 0, []);
    if r.Ok? && r.value.Some? {
      LinesBringBack(globs, rules, path, isDir, tracked, scope, r.value.value);
    }
  }

  /** With `lines` added, no level of the path is ignored, and no other path
      that was not ignored before is. */
  ghost predicate BringsBack(globs: Globs, rules: Rules, path: Path, isDir: bool, tracked: bool, scope: Scope,
                             lines: seq<string>)
  {
    var next := WithLines(globs, rules, scope, lines);
    && next.Some?
    && PathIgnoredBy(globs, next.value, path, isDir, tracked).None?
    && (forall m | 1 <= m < |path| :: PathIgnoredBy(globs, next.value, path[..m], true, tracked).None?)
    && (forall other: Path, dir: bool, had: bool ::
          PathIgnoredBy(globs, next.value, other, dir, had).Some? ==>
            PathIgnoredBy(globs, rules, other, dir, had).Some?)
  }

  lemma LinesBringBack(globs: Globs, rules: Rules, path: Path, isDir: bool, tracked: bool, scope: Scope,
                       lines: seq<string>)
    requires Loaded(globs, rules) && !LastHoldsReturn(TextOfFile(rules, scope)) && GoodStops(globs, lines)
    requires !Hides(globs, Added(LayersOf(rules), scope, lines), path, isDir, tracked)
    ensures BringsBack(globs, rules, path, isDir, tracked, scope, lines)
  {
    WithLinesAdds(globs, rules, scope, lines);
    var next := WithLines(globs, rules, scope, lines).value;
    IgnoredMeansHidden(globs, next, path, isDir, tracked);
    forall m | 1 <= m < |path| ensures PathIgnoredBy(globs, next, path[..m], true, tracked).None? {
      FoldersBack(globs, next, path, isDir, tracked, m);
    }
    forall other: Path, dir: bool, had: bool | PathIgnoredBy(globs, next, other, dir, had).Some?
      ensures PathIgnoredBy(globs, rules, other, dir, had).Some?
    {
      IgnoredMeansHidden(globs, next, other, dir, had);
      IgnoredMeansHidden(globs, rules, other, dir, had);
      var n :| 1 <= n <= |other| && HidesLevel(globs, LayersOf(next), other, dir, had, n);
      AddedHidesNothingNew(globs, LayersOf(rules), scope, lines, other[..n], dir || n < |other|, had);
      assert HidesLevel(globs, LayersOf(rules), other, dir, had, n);
    }
  }

  /** A path that is not ignored has no ignored folder above it. */
  lemma FoldersBack(globs: Globs, rules: Rules, path: Path, isDir: bool, tracked: bool, m: nat)
    requires 1 <= m < |path| && PathIgnoredBy(globs, rules, path, isDir, tracked).None?
    ensures PathIgnoredBy(globs, rules, path[..m], true, tracked).None?
  {
    if PathIgnoredBy(globs, rules, path[..m], true, tracked).Some? {
      IgnoredFolderDecides(globs, rules, path[..m], path[m..], isDir, tracked);
      assert path[..m] + path[m..] == path;
    }
  }

  // ---- The lines, in either file ----

  /** What one level comes to, by what the rules with the lines so far hide. */
  lemma LevelMeans(globs: Globs, rules: Rules, current: Rules, path: Path, isDir: bool, tracked: bool, scope: Scope,
                   n: nat, lines: seq<string>)
    returns (level: Level)
    requires n < |path| && Searching(globs, rules, current, path, isDir, tracked, scope, n, lines)
    ensures level == TryLevel(globs, rules, current, path[..n + 1], isDir || n + 1 < |path|, tracked, scope, lines)
    ensures LevelSays(globs, LayersOf(rules), path, isDir, tracked, scope, n, lines, level)
  {
    level := TryLevel(globs, rules, current, path[..n + 1], isDir || n + 1 < |path|, tracked, scope, lines);
    SearchStep(globs, rules, current, path, isDir, tracked, scope, n, lines);
    if StopLine(path[..n + 1], isDir || n + 1 < |path|, scope).Some? {
      var longer := lines + [StopLine(path[..n + 1], isDir || n + 1 < |path|, scope).value];
      LineStep(globs, rules, current, path, isDir, tracked, scope, n, lines, longer);
    }
  }

  /** A level not hidden is passed over. A hidden one gets its line; but with a
      break in its name it is an error, and the user's file refuses it when a
      package rule hides it. */
  ghost predicate LevelSays(globs: Globs, layers: Layers, path: Path, isDir: bool, tracked: bool, scope: Scope,
                            n: nat, lines: seq<string>, level: Level)
    requires n < |path|
  {
    var prefix, dir := path[..n + 1], isDir || n + 1 < |path|;
    var hidden := HidesLevel(globs, Added(layers, scope, lines), path, isDir, tracked, n + 1);
    match level
    case Visible => !hidden
    case Reopened(_, longer) => hidden && !HasBreak(prefix) && longer == lines + [StopLine(prefix, dir, scope).value]
    case Settled(Err(error)) => hidden && HasBreak(prefix) && error == LineBreak
    case Settled(Ok(None)) =>
      hidden && !HasBreak(prefix) && scope.AllPackages? && Matched(globs.hits, layers.package, prefix, dir).Ignore?
    case Settled(Ok(Some(_))) => false
  }

  /** The search up to level `n` found `lines`, one for each of `levels`: the stop
      line of a level that the rules with the lines before it hide. Every other
      level those rules leave alone. */
  ghost predicate Trail(globs: Globs, layers: Layers, path: Path, isDir: bool, tracked: bool, scope: Scope, n: nat,
                        lines: seq<string>, levels: seq<nat>)
    requires n <= |path|
  {
    && |lines| == |levels| && Rising(levels)
    && (forall i | 0 <= i < |levels| :: TrailLine(globs, layers, path, isDir, tracked, scope, n, lines, levels, i))
    && (forall i | 0 <= i <= |levels| :: TrailSpares(globs, layers, path, isDir, tracked, scope, n, lines, levels, i))
  }

  /** With `i` of the lines added, no level before the next that gets one is hidden. */
  ghost predicate TrailSpares(globs: Globs, layers: Layers, path: Path, isDir: bool, tracked: bool, scope: Scope,
                              n: nat, lines: seq<string>, levels: seq<nat>, i: nat)
    requires n <= |path| && i <= |lines| == |levels|
  {
    forall m | 1 <= m <= n && Between(levels, i, m) ::
      !HidesLevel(globs, Added(layers, scope, lines[..i]), path, isDir, tracked, m)
  }

  ghost predicate TrailLine(globs: Globs, layers: Layers, path: Path, isDir: bool, tracked: bool, scope: Scope, n: nat,
                            lines: seq<string>, levels: seq<nat>, i: nat)
    requires n <= |path| && i < |lines| == |levels|
  {
    && 1 <= levels[i] <= n && !HasBreak(path[..levels[i]])
    && lines[i] == StopLine(path[..levels[i]], isDir || levels[i] < |path|, scope).value
    && HidesLevel(globs, Added(layers, scope, lines[..i]), path, isDir, tracked, levels[i])
  }

  /** The level comes after `i` of those with a line, and before the rest. */
  predicate Between(levels: seq<nat>, i: nat, m: nat)
    requires i <= |levels|
  {
    (i > 0 ==> levels[i - 1] < m) && (i < |levels| ==> m < levels[i])
  }

  lemma LevelsWithin(globs: Globs, layers: Layers, path: Path, isDir: bool, tracked: bool, scope: Scope, n: nat,
                     lines: seq<string>, levels: seq<nat>)
    requires n <= |path| && Trail(globs, layers, path, isDir, tracked, scope, n, lines, levels)
    ensures forall i | 0 <= i < |levels| :: 1 <= levels[i] <= n
  {
    forall i | 0 <= i < |levels| ensures 1 <= levels[i] <= n {
      assert TrailLine(globs, layers, path, isDir, tracked, scope, n, lines, levels, i);
    }
  }

  /** A level that is passed over. */
  lemma TrailOn(globs: Globs, layers: Layers, path: Path, isDir: bool, tracked: bool, scope: Scope, n: nat,
                lines: seq<string>, levels: seq<nat>)
    requires n < |path| && Trail(globs, layers, path, isDir, tracked, scope, n, lines, levels)
    requires !HidesLevel(globs, Added(layers, scope, lines), path, isDir, tracked, n + 1)
    ensures Trail(globs, layers, path, isDir, tracked, scope, n + 1, lines, levels)
  {
    var next := n + 1;
    assert lines[..|lines|] == lines;
    LevelsWithin(globs, layers, path, isDir, tracked, scope, n, lines, levels);
    forall i | 0 <= i < |levels|
      ensures TrailLine(globs, layers, path, isDir, tracked, scope, next, lines, levels, i)
    {
      assert TrailLine(globs, layers, path, isDir, tracked, scope, n, lines, levels, i);
    }
    forall i | 0 <= i <= |levels|
      ensures TrailSpares(globs, layers, path, isDir, tracked, scope, next, lines, levels, i)
    {
      assert TrailSpares(globs, layers, path, isDir, tracked, scope, n, lines, levels, i);
    }
  }

  /** A level that gets a line. */
  lemma TrailLonger(globs: Globs, layers: Layers, path: Path, isDir: bool, tracked: bool, scope: Scope, n: nat,
                    lines: seq<string>, levels: seq<nat>, line: string)
    requires n < |path| && Trail(globs, layers, path, isDir, tracked, scope, n, lines, levels)
    requires !HasBreak(path[..n + 1]) && line == StopLine(path[..n + 1], isDir || n + 1 < |path|, scope).value
    requires HidesLevel(globs, Added(layers, scope, lines), path, isDir, tracked, n + 1)
    ensures Trail(globs, layers, path, isDir, tracked, scope, n + 1, lines + [line], levels + [n + 1])
  {
    var next, longer, more := n + 1, lines + [line], levels + [n + 1];
    LevelsWithin(globs, layers, path, isDir, tracked, scope, n, lines, levels);
    forall i | 0 <= i < |more|
      ensures TrailLine(globs, layers, path, isDir, tracked, scope, next, longer, more, i)
    {
      LongerNamed(globs, layers, path, isDir, tracked, scope, n, lines, levels, line, i);
    }
    RisingOn(levels, n);
    forall i | 0 <= i <= |more|
      ensures TrailSpares(globs, layers, path, isDir, tracked, scope, next, longer, more, i)
    {
      LongerSpares(globs, layers, path, isDir, tracked, scope, n, lines, levels, line, i);
    }
  }

  lemma SamePrefix(lines: seq<string>, line: string, i: nat)
    requires i <= |lines|
    ensures (lines + [line])[..i] == lines[..i] && lines[..|lines|] == lines
  {
  }

  lemma LongerSpares(globs: Globs, layers: Layers, path: Path, isDir: bool, tracked: bool, scope: Scope, n: nat,
                     lines: seq<string>, levels: seq<nat>, line: string, i: nat)
    requires n < |path| && |lines| == |levels| && i <= |levels| + 1
    requires forall k | 0 <= k < |levels| :: levels[k] <= n
    requires i <= |levels| ==> TrailSpares(globs, layers, path, isDir, tracked, scope, n, lines, levels, i)
    ensures TrailSpares(globs, layers, path, isDir, tracked, scope, n + 1, lines + [line], levels + [n + 1], i)
  {
    var more := levels + [n + 1];
    if i <= |levels| {
      SamePrefix(lines, line, i);
      forall m | 1 <= m <= n + 1 && Between(more, i, m) ensures m <= n && Between(levels, i, m) {
        assert more[i] == if i < |levels| then levels[i] else n + 1;
        assert i > 0 ==> more[i - 1] == levels[i - 1];
      }
    } else {
      assert more[i - 1] == n + 1;
    }
  }

  lemma LongerNamed(globs: Globs, layers: Layers, path: Path, isDir: bool, tracked: bool, scope: Scope, n: nat,
                    lines: seq<string>, levels: seq<nat>, line: string, i: nat)
    requires n < |path| && |lines| == |levels| && i <= |levels|
    requires i < |levels| ==> TrailLine(globs, layers, path, isDir, tracked, scope, n, lines, levels, i)
    requires !HasBreak(path[..n + 1]) && line == StopLine(path[..n + 1], isDir || n + 1 < |path|, scope).value
    requires HidesLevel(globs, Added(layers, scope, lines), path, isDir, tracked, n + 1)
    ensures TrailLine(globs, layers, path, isDir, tracked, scope, n + 1, lines + [line], levels + [n + 1], i)
  {
    SamePrefix(lines, line, i);
  }

  lemma RisingOn(levels: seq<nat>, n: nat)
    requires Rising(levels) && forall i | 0 <= i < |levels| :: levels[i] <= n
    ensures Rising(levels + [n + 1])
  {
  }

  /** What the search answers, by where its trail ends: all the lines when it comes
      to the end of the path, and else what is wrong with the next level. */
  ghost predicate EndsAt(globs: Globs, layers: Layers, path: Path, isDir: bool, tracked: bool, scope: Scope, n: nat,
                         lines: seq<string>, r: Stopped)
    requires n <= |path|
  {
    match r
    case Ok(Some(out)) => n == |path| && out == lines
    case Ok(None) =>
      && n < |path| && scope.AllPackages? && !HasBreak(path[..n + 1])
      && HidesLevel(globs, Added(layers, scope, lines), path, isDir, tracked, n + 1)
      && Matched(globs.hits, layers.package, path[..n + 1], isDir || n + 1 < |path|).Ignore?
    case Err(error) =>
      && n < |path| && error == LineBreak && HasBreak(path[..n + 1])
      && HidesLevel(globs, Added(layers, scope, lines), path, isDir, tracked, n + 1)
  }

  /** A level either keeps what the search needs, and the trail, or ends it. */
  ghost predicate GoesOn(globs: Globs, rules: Rules, current: Rules, path: Path, isDir: bool, tracked: bool,
                         scope: Scope, n: nat, lines: seq<string>, levels: seq<nat>, level: Level)
    requires n < |path|
  {
    match level
    case Visible =>
      && Searching(globs, rules, current, path, isDir, tracked, scope, n + 1, lines)
      && Trail(globs, LayersOf(rules), path, isDir, tracked, scope, n + 1, lines, levels)
    case Reopened(next, longer) =>
      && Searching(globs, rules, next, path, isDir, tracked, scope, n + 1, longer)
      && Trail(globs, LayersOf(rules), path, isDir, tracked, scope, n + 1, longer, levels + [n + 1])
    case Settled(answer) => EndsAt(globs, LayersOf(rules), path, isDir, tracked, scope, n, lines, answer)
  }

  lemma OneLevelOn(globs: Globs, rules: Rules, current: Rules, path: Path, isDir: bool, tracked: bool, scope: Scope,
                   n: nat, lines: seq<string>, levels: seq<nat>)
    returns (level: Level)
    requires n < |path| && Searching(globs, rules, current, path, isDir, tracked, scope, n, lines)
    requires Trail(globs, LayersOf(rules), path, isDir, tracked, scope, n, lines, levels)
    ensures level == TryLevel(globs, rules, current, path[..n + 1], isDir || n + 1 < |path|, tracked, scope, lines)
    ensures GoesOn(globs, rules, current, path, isDir, tracked, scope, n, lines, levels, level)
  {
    level := LevelMeans(globs, rules, current, path, isDir, tracked, scope, n, lines);
    var same := LevelWorks(globs, rules, current, path, isDir, tracked, scope, n, lines);
    match level
    case Visible => TrailOn(globs, LayersOf(rules), path, isDir, tracked, scope, n, lines, levels);
    case Reopened(_, longer) =>
      TrailLonger(globs, LayersOf(rules), path, isDir, tracked, scope, n, lines, levels, longer[|lines|]);
    case Settled(_) =>
  }

  lemma {:induction false} StopFromTrail(globs: Globs, rules: Rules, current: Rules, path: Path, isDir: bool,
                                         tracked: bool, scope: Scope, n: nat, lines: seq<string>, levels: seq<nat>)
    returns (r: Stopped, at: nat, out: seq<string>, named: seq<nat>)
    requires n <= |path| && Searching(globs, rules, current, path, isDir, tracked, scope, n, lines)
    requires Trail(globs, LayersOf(rules), path, isDir, tracked, scope, n, lines, levels)
    ensures r == StopFrom(globs, rules, current, path, isDir, tracked, scope, n, lines)
    ensures at <= |path| && Trail(globs, LayersOf(rules), path, isDir, tracked, scope, at, out, named)
    ensures EndsAt(globs, LayersOf(rules), path, isDir, tracked, scope, at, out, r)
    decreases |path| - n
  {
    if n == |path| {
      r, at, out, named := Ok(Some(lines)), n, lines, levels;
    } else {
      var level := OneLevelOn(globs, rules, current, path, isDir, tracked, scope, n, lines, levels);
      match level {
        case Visible =>
          r, at, out, named := StopFromTrail(globs, rules, current, path, isDir, tracked, scope, n + 1, lines, levels);
        case Reopened(next, longer) =>
          r, at, out, named :=
            StopFromTrail(globs, rules, next, path, isDir, tracked, scope, n + 1, longer, levels + [n + 1]);
        case Settled(answer) =>
          r, at, out, named := answer, n, lines, levels;
      }
      StopFromLevel(globs, rules, current, path, isDir, tracked, scope, n, lines, level, r);
    }
  }

  /** **Each line is for a level that is still hidden**, in either file: level by
      level from the top, the stop line of each level that the rules with the lines
      before it hide, and of no other. It ends with all of them; or, at a hidden
      level, with an error exactly for a line break, and in the user's file with a
      refusal for one a package rule hides. */
  lemma StopLinesAreNeeded(globs: Globs, rules: Rules, path: Path, isDir: bool, tracked: bool, scope: Scope)
    returns (at: nat, lines: seq<string>, levels: seq<nat>)
    requires Faithful(globs) && Loaded(globs, rules) && !LastHoldsReturn(TextOfFile(rules, scope))
    ensures at <= |path| && Trail(globs, LayersOf(rules), path, isDir, tracked, scope, at, lines, levels)
    ensures EndsAt(globs, LayersOf(rules), path, isDir, tracked, scope, at, lines,
                   StopLines(globs, rules, path, isDir, tracked, scope))
  {
    TrailStarts(globs, rules, path, isDir, tracked, scope);
    var r;
    r, at, lines, levels := StopFromTrail(globs, rules, rules, path, isDir, tracked, scope, 0, [], []);
    assert r == StopLines(globs, rules, path, isDir, tracked, scope);
  }

  lemma TrailStarts(globs: Globs, rules: Rules, path: Path, isDir: bool, tracked: bool, scope: Scope)
    requires Faithful(globs) && Loaded(globs, rules) && !LastHoldsReturn(TextOfFile(rules, scope))
    ensures Searching(globs, rules, rules, path, isDir, tracked, scope, 0, [])
    ensures Trail(globs, LayersOf(rules), path, isDir, tracked, scope, 0, [], [])
  {
    AddedNothing(LayersOf(rules), scope);
    var none: seq<nat>, no: seq<string> := [], [];
    assert TrailSpares(globs, LayersOf(rules), path, isDir, tracked, scope, 0, no, none, 0);
  }

  lemma AddedNothing(layers: Layers, scope: Scope)
    ensures Added(layers, scope, []) == layers
  {
    assert layers.package + [] == layers.package;
    assert layers.user + [] == layers.user;
  }

  /** A trail with a line, or one that stops at a level, is of a hidden path. */
  lemma TrailHides(globs: Globs, layers: Layers, path: Path, isDir: bool, tracked: bool, scope: Scope, n: nat,
                   lines: seq<string>, levels: seq<nat>)
    requires n <= |path| && Trail(globs, layers, path, isDir, tracked, scope, n, lines, levels)
    ensures lines != [] ==> Hides(globs, layers, path, isDir, tracked)
    ensures lines == [] && n < |path| && HidesLevel(globs, Added(layers, scope, lines), path, isDir, tracked, n + 1) ==>
              Hides(globs, layers, path, isDir, tracked)
    ensures lines == [] && n == |path| ==> !Hides(globs, layers, path, isDir, tracked)
  {
    AddedNothing(layers, scope);
    if lines != [] {
      assert lines[..0] == [];
      assert TrailLine(globs, layers, path, isDir, tracked, scope, n, lines, levels, 0);
      assert HidesLevel(globs, layers, path, isDir, tracked, levels[0]);
    } else if n == |path| {
      EmptyTrailShows(globs, layers, path, isDir, tracked, scope);
    }
  }

  lemma EmptyTrailShows(globs: Globs, layers: Layers, path: Path, isDir: bool, tracked: bool, scope: Scope)
    requires Trail(globs, layers, path, isDir, tracked, scope, |path|, [], [])
    ensures !Hides(globs, layers, path, isDir, tracked)
  {
    AddedNothing(layers, scope);
    var none: seq<nat>, no: seq<string> := [], [];
    assert no[..0] == no && TrailSpares(globs, layers, path, isDir, tracked, scope, |path|, no, none, 0);
    forall m | 1 <= m <= |path| ensures !HidesLevel(globs, layers, path, isDir, tracked, m) {
      assert Between(none, 0, m);
    }
  }

  lemma EndsEmpty(globs: Globs, layers: Layers, path: Path, isDir: bool, tracked: bool, scope: Scope, at: nat,
                  lines: seq<string>, r: Stopped)
    requires at <= |path| && EndsAt(globs, layers, path, isDir, tracked, scope, at, lines, r)
    requires lines != [] ==> Hides(globs, layers, path, isDir, tracked)
    requires lines == [] && at < |path|
             && HidesLevel(globs, Added(layers, scope, lines), path, isDir, tracked, at + 1) ==>
               Hides(globs, layers, path, isDir, tracked)
    requires lines == [] && at == |path| ==> !Hides(globs, layers, path, isDir, tracked)
    ensures r == Ok(Some([])) <==> !Hides(globs, layers, path, isDir, tracked)
  {
  }

  /** **A path nothing ignores needs no line**, and only such a path. */
  lemma NothingToStop(globs: Globs, rules: Rules, path: Path, isDir: bool, tracked: bool, scope: Scope)
    requires Faithful(globs) && Loaded(globs, rules) && !LastHoldsReturn(TextOfFile(rules, scope))
    ensures StopLines(globs, rules, path, isDir, tracked, scope) == Ok(Some([])) <==>
            !Hides(globs, LayersOf(rules), path, isDir, tracked)
  {
    var at, lines, levels := StopLinesAreNeeded(globs, rules, path, isDir, tracked, scope);
    TrailHides(globs, LayersOf(rules), path, isDir, tracked, scope, at, lines, levels);
    EndsEmpty(globs, LayersOf(rules), path, isDir, tracked, scope, at, lines,
              StopLines(globs, rules, path, isDir, tracked, scope));
  }

  // ---- The package's lines, exactly ----

  /** The levels of the path past `n` that the rules hide. */
  function HiddenLevels(globs: Globs, layers: Layers, path: Path, isDir: bool, tracked: bool, n: nat)
    : (levels: seq<nat>)
    requires n <= |path|
    ensures AreLevels(path, levels)
    decreases |path| - n
  {
    if n == |path| then []
    else
      var rest := HiddenLevels(globs, layers, path, isDir, tracked, n + 1);
      if HidesLevel(globs, layers, path, isDir, tracked, n + 1) then [n + 1] + rest else rest
  }

  lemma {:induction false} HiddenLevelIs(globs: Globs, layers: Layers, path: Path, isDir: bool, tracked: bool, n: nat,
                                         m: int)
    requires n <= |path|
    ensures m in HiddenLevels(globs, layers, path, isDir, tracked, n) <==>
            n < m <= |path| && HidesLevel(globs, layers, path, isDir, tracked, m)
    decreases |path| - n
  {
    if n < |path| {
      HiddenLevelIs(globs, layers, path, isDir, tracked, n + 1, m);
    }
  }

  lemma {:induction false} HiddenLevelsRise(globs: Globs, layers: Layers, path: Path, isDir: bool, tracked: bool,
                                            n: nat)
    requires n <= |path|
    ensures Rising(HiddenLevels(globs, layers, path, isDir, tracked, n))
    decreases |path| - n
  {
    if n < |path| {
      var rest := HiddenLevels(globs, layers, path, isDir, tracked, n + 1);
      HiddenLevelsRise(globs, layers, path, isDir, tracked, n + 1);
      forall m | m in rest ensures n + 1 < m {
        HiddenLevelIs(globs, layers, path, isDir, tracked, n + 1, m);
      }
      RisingCons(n + 1, rest);
    }
  }

  /** They are exactly those, in order. */
  lemma HiddenLevelsAre(globs: Globs, layers: Layers, path: Path, isDir: bool, tracked: bool, n: nat)
    requires n <= |path|
    ensures var levels := HiddenLevels(globs, layers, path, isDir, tracked, n);
            && (forall m :: m in levels <==> n < m <= |path| && HidesLevel(globs, layers, path, isDir, tracked, m))
            && Rising(levels)
  {
    HiddenLevelsRise(globs, layers, path, isDir, tracked, n);
    forall m
      ensures m in HiddenLevels(globs, layers, path, isDir, tracked, n) <==>
              n < m <= |path| && HidesLevel(globs, layers, path, isDir, tracked, m)
    {
      HiddenLevelIs(globs, layers, path, isDir, tracked, n, m);
    }
  }

  predicate Rising(levels: seq<nat>) {
    forall i, j | 0 <= i < j < |levels| :: levels[i] < levels[j]
  }

  lemma RisingCons(level: nat, rest: seq<nat>)
    requires Rising(rest) && forall m <- rest :: level < m
    ensures Rising([level] + rest)
    ensures forall m :: m in [level] + rest <==> m == level || m in rest
  {
    var all := [level] + rest;
    assert forall i | 0 < i < |all| :: all[i] == rest[i - 1] && rest[i - 1] in rest;
  }

  predicate AreLevels(path: Path, levels: seq<nat>) {
    forall i | 0 <= i < |levels| :: 1 <= levels[i] <= |path|
  }

  predicate Namable(path: Path, levels: seq<nat>)
    requires AreLevels(path, levels)
  {
    forall i | 0 <= i < |levels| :: !HasBreak(path[..levels[i]])
  }

  /** The package's line for one level; no text when it cannot be named. */
  function LevelLine(path: Path, isDir: bool, level: nat): string
    requires 1 <= level <= |path|
  {
    var line := StopLine(path[..level], isDir || level < |path|, Package);
    if line.None? then "" else line.value
  }

  function LinesFor(path: Path, isDir: bool, levels: seq<nat>): (lines: seq<string>)
    requires AreLevels(path, levels)
    ensures |lines| == |levels| && forall i | 0 <= i < |levels| :: lines[i] == LevelLine(path, isDir, levels[i])
  {
    seq(|levels|, i requires 0 <= i < |levels| => LevelLine(path, isDir, levels[i]))
  }

  /** Lines that match only paths of at most `n` names. */
  ghost predicate Shallow(globs: Globs, lines: seq<string>, n: nat) {
    forall line, other: Path, dir: bool | line in lines && globs.hits(line, other, dir) :: |other| <= n
  }

  function PackageAnswer(path: Path, isDir: bool, lines: seq<string>, levels: seq<nat>): Stopped
    requires AreLevels(path, levels)
  {
    if Namable(path, levels) then Ok(Some(lines + LinesFor(path, isDir, levels))) else Err(LineBreak)
  }

  /** A level that no line added so far is for is hidden as it was. */
  lemma LevelAsBefore(globs: Globs, rules: Rules, current: Rules, path: Path, isDir: bool, tracked: bool, n: nat,
                      lines: seq<string>)
    requires n < |path| && Searching(globs, rules, current, path, isDir, tracked, Package, n, lines)
    requires Shallow(globs, lines, n)
    ensures HidesLevel(globs, LayersOf(current), path, isDir, tracked, n + 1) <==>
            HidesLevel(globs, LayersOf(rules), path, isDir, tracked, n + 1)
  {
    AddedHidesNothingNew(globs, LayersOf(rules), Package, lines, path[..n + 1], isDir || n + 1 < |path|, tracked);
  }

  lemma StillShallow(globs: Globs, lines: seq<string>, path: Path, dir: bool)
    requires Faithful(globs) && path != [] && !HasBreak(path) && Shallow(globs, lines, |path| - 1)
    ensures Shallow(globs, lines + [StopLine(path, dir, Package).value], |path|)
  {
    assert ReadsStopLine(globs, path, dir, Package);
  }

  /** One level of the search in the package: its line, when it is hidden. */
  lemma PackageLevel(globs: Globs, rules: Rules, current: Rules, path: Path, isDir: bool, tracked: bool,
                     n: nat, lines: seq<string>)
    requires n < |path| && Searching(globs, rules, current, path, isDir, tracked, Package, n, lines)
    requires Shallow(globs, lines, n)
    ensures var prefix, dir := path[..n + 1], isDir || n + 1 < |path|;
            var level := TryLevel(globs, rules, current, prefix, dir, tracked, Package, lines);
            if !HidesLevel(globs, LayersOf(rules), path, isDir, tracked, n + 1) then level == Visible
            else if HasBreak(path[..n + 1]) then level == Settled(Err(LineBreak))
            else level.Reopened? && level.lines == lines + [LevelLine(path, isDir, n + 1)]
    ensures !HidesLevel(globs, LayersOf(rules), path, isDir, tracked, n + 1) ==> Shallow(globs, lines, n + 1)
    ensures HidesLevel(globs, LayersOf(rules), path, isDir, tracked, n + 1) && !HasBreak(path[..n + 1]) ==>
              Shallow(globs, lines + [LevelLine(path, isDir, n + 1)], n + 1)
  {
    SearchStep(globs, rules, current, path, isDir, tracked, Package, n, lines);
    LevelAsBefore(globs, rules, current, path, isDir, tracked, n, lines);
    if HidesLevel(globs, LayersOf(rules), path, isDir, tracked, n + 1) && !HasBreak(path[..n + 1]) {
      LineStep(globs, rules, current, path, isDir, tracked, Package, n, lines, lines + [LevelLine(path, isDir, n + 1)]);
      StillShallow(globs, lines, path[..n + 1], isDir || n + 1 < |path|);
    }
  }

  lemma {:induction false} PackageFrom(globs: Globs, rules: Rules, current: Rules, path: Path, isDir: bool,
                                       tracked: bool, n: nat, lines: seq<string>)
    requires n <= |path| && Searching(globs, rules, current, path, isDir, tracked, Package, n, lines)
    requires Shallow(globs, lines, n)
    ensures StopFrom(globs, rules, current, path, isDir, tracked, Package, n, lines)
            == PackageAnswer(path, isDir, lines, HiddenLevels(globs, LayersOf(rules), path, isDir, tracked, n))
    decreases |path| - n
  {
    if n == |path| {
      assert lines + [] == lines;
    } else {
      PackageLevel(globs, rules, current, path, isDir, tracked, n, lines);
      var level := LevelWorks(globs, rules, current, path, isDir, tracked, Package, n, lines);
      var rest := HiddenLevels(globs, LayersOf(rules), path, isDir, tracked, n + 1);
      match level
      case Visible =>
        PackageFrom(globs, rules, current, path, isDir, tracked, n + 1, lines);
      case Reopened(next, longer) =>
        PackageFrom(globs, rules, next, path, isDir, tracked, n + 1, longer);
        OneMoreLine(path, isDir, lines, n + 1, rest);
      case Settled(answer) =>
        assert ([n + 1] + rest)[0] == n + 1;
    }
  }

  lemma OneMoreLine(path: Path, isDir: bool, lines: seq<string>, level: nat, rest: seq<nat>)
    requires AreLevels(path, rest) && 1 <= level <= |path| && !HasBreak(path[..level])
    ensures PackageAnswer(path, isDir, lines, [level] + rest)
            == PackageAnswer(path, isDir, lines + [LevelLine(path, isDir, level)], rest)
  {
    NamableCons(path, level, rest);
    LinesForCons(path, isDir, level, rest);
    Assoc(lines, [LevelLine(path, isDir, level)], LinesFor(path, isDir, rest));
  }

  lemma NamableCons(path: Path, level: nat, rest: seq<nat>)
    requires AreLevels(path, rest) && 1 <= level <= |path| && !HasBreak(path[..level])
    ensures AreLevels(path, [level] + rest)
    ensures Namable(path, [level] + rest) <==> Namable(path, rest)
  {
    var levels := [level] + rest;
    assert forall i | 0 < i < |levels| :: levels[i] == rest[i - 1];
    assert forall i | 0 <= i < |rest| :: rest[i] == levels[i + 1];
  }

  lemma LinesForCons(path: Path, isDir: bool, level: nat, rest: seq<nat>)
    requires AreLevels(path, rest) && 1 <= level <= |path| && AreLevels(path, [level] + rest)
    ensures LinesFor(path, isDir, [level] + rest) == [LevelLine(path, isDir, level)] + LinesFor(path, isDir, rest)
  {
  }

  /** **The package's lines** are one for each hidden level, outermost first; an
      error comes exactly when a hidden level's name or one above holds a break. */
  lemma PackageLinesExactly(globs: Globs, rules: Rules, path: Path, isDir: bool, tracked: bool)
    requires Faithful(globs) && Loaded(globs, rules) && !LastHoldsReturn(TextOfFile(rules, Package))
    ensures var levels := HiddenLevels(globs, LayersOf(rules), path, isDir, tracked, 0);
            StopLines(globs, rules, path, isDir, tracked, Package) ==
            if Namable(path, levels) then Ok(Some(LinesFor(path, isDir, levels))) else Err(LineBreak)
  {
    assert LayersOf(rules).package + [] == LayersOf(rules).package;
    PackageFrom(globs, rules, rules, path, isDir, tracked, 0, []);
    var levels := HiddenLevels(globs, LayersOf(rules), path, isDir, tracked, 0);
    if Namable(path, levels) {
      assert [] + LinesFor(path, isDir, levels) == LinesFor(path, isDir, levels);
    }
  }

  /** **Every line is needed**: without any one of them the path stays hidden. */
  lemma EveryLineIsNeeded(globs: Globs, rules: Rules, path: Path, isDir: bool, tracked: bool, i: nat)
    requires Faithful(globs) && Loaded(globs, rules) && !LastHoldsReturn(TextOfFile(rules, Package))
    ensures match StopLines(globs, rules, path, isDir, tracked, Package)
            case Ok(Some(lines)) => i < |lines| ==> HiddenWithout(globs, rules, path, isDir, tracked, lines, i)
            case _ => true
  {
    PackageLinesExactly(globs, rules, path, isDir, tracked);
    var levels := HiddenLevels(globs, LayersOf(rules), path, isDir, tracked, 0);
    if Namable(path, levels) && i < |levels| {
      HiddenLevelsAre(globs, LayersOf(rules), path, isDir, tracked, 0);
      LevelsAreNeeded(globs, rules, path, isDir, tracked, levels, i);
    }
  }

  predicate HiddenWithout(globs: Globs, rules: Rules, path: Path, isDir: bool, tracked: bool, lines: seq<string>,
                          i: nat)
    requires i < |lines|
  {
    var next := WithLines(globs, rules, Package, lines[..i] + lines[i + 1..]);
    next.Some? && PathIgnoredBy(globs, next.value, path, isDir, tracked).Some?
  }

  lemma LevelsAreNeeded(globs: Globs, rules: Rules, path: Path, isDir: bool, tracked: bool, levels: seq<nat>, i: nat)
    requires Faithful(globs) && Loaded(globs, rules) && !LastHoldsReturn(TextOfFile(rules, Package))
    requires AreLevels(path, levels) && Namable(path, levels) && Rising(levels) && i < |levels|
    requires HidesLevel(globs, LayersOf(rules), path, isDir, tracked, levels[i])
    ensures HiddenWithout(globs, rules, path, isDir, tracked, LinesFor(path, isDir, levels), i)
  {
    var lines, level := LinesFor(path, isDir, levels), levels[i];
    var left := lines[..i] + lines[i + 1..];
    LinesAreStops(globs, path, isDir, levels);
    WithLinesAdds(globs, rules, Package, left);
    OthersMiss(globs, path, isDir, levels, i, left);
    AddedHidesNothingNew(globs, LayersOf(rules), Package, left, path[..level], isDir || level < |path|, tracked);
    var next := WithLines(globs, rules, Package, left).value;
    assert HidesLevel(globs, LayersOf(next), path, isDir, tracked, level);
    IgnoredMeansHidden(globs, next, path, isDir, tracked);
  }

  /** A level's line does not match another level. */
  lemma LineMisses(globs: Globs, path: Path, isDir: bool, level: nat, other: nat)
    requires Faithful(globs) && 1 <= level <= |path| && 1 <= other <= |path| && level != other
    requires !HasBreak(path[..level])
    ensures !globs.hits(LevelLine(path, isDir, level), path[..other], isDir || other < |path|)
  {
    assert ReadsStopLine(globs, path[..level], isDir || level < |path|, Package);
    assert |path[..level]| != |path[..other]|;
  }

  lemma OtherAt(lines: seq<string>, i: nat, k: nat)
    requires i < |lines| && k < |lines| - 1
    ensures (lines[..i] + lines[i + 1..])[k] == lines[if k < i then k else k + 1]
  {
  }

  /** The lines of the other levels do not match this one. */
  lemma OthersMiss(globs: Globs, path: Path, isDir: bool, levels: seq<nat>, i: nat, left: seq<string>)
    requires Faithful(globs) && AreLevels(path, levels) && Namable(path, levels) && i < |levels|
    requires Rising(levels)
    requires left == LinesFor(path, isDir, levels)[..i] + LinesFor(path, isDir, levels)[i + 1..]
    ensures forall line <- left :: !globs.hits(line, path[..levels[i]], isDir || levels[i] < |path|)
  {
    forall k | 0 <= k < |left| ensures !globs.hits(left[k], path[..levels[i]], isDir || levels[i] < |path|) {
      var j := if k < i then k else k + 1;
      OtherAt(LinesFor(path, isDir, levels), i, k);
      LineMisses(globs, path, isDir, levels[j], levels[i]);
    }
  }

  lemma LinesAreStops(globs: Globs, path: Path, isDir: bool, levels: seq<nat>)
    requires Faithful(globs) && AreLevels(path, levels) && Namable(path, levels)
    ensures GoodStops(globs, LinesFor(path, isDir, levels))
  {
    var lines := LinesFor(path, isDir, levels);
    forall line | line in lines ensures Whitelists(line) && GoodLine(line) && globs.valid(line) {
      var j :| 0 <= j < |lines| && lines[j] == line;
      var dir := isDir || levels[j] < |path|;
      assert ReadsStopLine(globs, path[..levels[j]], dir, Package);
      StopLineIsTidy(path[..levels[j]], dir, Package);
      TidyIsGood(line);
    }
  }

  // ---- The walk ----

  /** A folder's entries by name; `Special` is neither file nor folder. */
  datatype Node = Folder(entries: seq<Entry>) | File | Special

  datatype Entry = Entry(name: Name, node: Node)

  predicate IsTracked(tracked: set<Path>, path: Path, dir: bool) {
    if dir then exists file <- tracked :: path < file else path in tracked
  }

  function FileIgnoredBy(globs: Globs, rules: Rules, tracked: set<Path>, path: Path): Option<IgnoredBy> {
    PathIgnoredBy(globs, rules, path, false, IsTracked(tracked, path, false))
  }

  function FolderIgnoredBy(globs: Globs, rules: Rules, tracked: set<Path>, path: Path): Option<IgnoredBy> {
    PathIgnoredBy(globs, rules, path, true, IsTracked(tracked, path, true))
  }

  /** What a walk reports: the files kept, and the files and folders left out,
      each with the rule that did. */
  datatype Walked = Walked(found: set<Path>, ignoredFiles: set<(Path, IgnoredBy)>, ignoredDirs: set<(Path, IgnoredBy)>)

  const NOTHING := Walked({}, {}, {})

  function Plus(a: Walked, b: Walked): Walked {
    Walked(a.found + b.found, a.ignoredFiles + b.ignoredFiles, a.ignoredDirs + b.ignoredDirs)
  }

  lemma PlusMoves(a: Walked, b: Walked, c: Walked)
    ensures Plus(Plus(a, b), c) == Plus(a, Plus(b, c)) && Plus(a, b) == Plus(b, a)
  {
  }

  lemma PlusNothing(a: Walked)
    ensures Plus(a, NOTHING) == a == Plus(NOTHING, a)
  {
  }

  /** No rule ignores the folder; none is asked of the package home. */
  predicate Entered(globs: Globs, rules: Rules, tracked: set<Path>, folder: Path) {
    folder == [] || FolderIgnoredBy(globs, rules, tracked, folder).None?
  }

  /** Every file whose own verdict keeps it, and every ignored file and folder
      whose folder is not ignored: no folder is left out of the search. */
  function Expected(globs: Globs, rules: Rules, tracked: set<Path>, path: Path, entries: seq<Entry>): Walked
    decreases entries
  {
    if entries == [] then NOTHING
    else
      Plus(ExpectedEntry(globs, rules, tracked, path, entries[0]),
           Expected(globs, rules, tracked, path, entries[1..]))
  }

  function ExpectedEntry(globs: Globs, rules: Rules, tracked: set<Path>, path: Path, entry: Entry): Walked
    decreases entry
  {
    var p, visible := path + [entry.name], Entered(globs, rules, tracked, path);
    match entry.node
    case Folder(inner) =>
      Plus(ExpectedFolder(globs, rules, tracked, p, visible), Expected(globs, rules, tracked, p, inner))
    case File => ExpectedFile(globs, rules, tracked, p, visible)
    case Special => NOTHING
  }

  function ExpectedFolder(globs: Globs, rules: Rules, tracked: set<Path>, path: Path, visible: bool): Walked {
    var verdict := FolderIgnoredBy(globs, rules, tracked, path);
    if verdict.Some? && visible then Walked({}, {}, {(path, verdict.value)}) else NOTHING
  }

  function ExpectedFile(globs: Globs, rules: Rules, tracked: set<Path>, path: Path, visible: bool): Walked {
    var verdict := FileIgnoredBy(globs, rules, tracked, path);
    if verdict.None? then Walked({path}, {}, {})
    else if visible then Walked({}, {(path, verdict.value)}, {})
    else NOTHING
  }

  lemma {:induction false} FolderHidesFile(globs: Globs, rules: Rules, tracked: set<Path>, folder: Path, rest: Path)
    requires rest != [] && FolderIgnoredBy(globs, rules, tracked, folder).Some?
    ensures FileIgnoredBy(globs, rules, tracked, folder + rest).Some?
  {
    assert folder < folder + rest;
    if IsTracked(tracked, folder, true) && !IsTracked(tracked, folder + rest, false) {
      TrackedOnlySpares(globs, rules, folder, true, 0);
    }
    IgnoredFolderDecides(globs, rules, folder, rest, false, IsTracked(tracked, folder + rest, false));
  }

  lemma {:induction false} FolderHidesFolder(globs: Globs, rules: Rules, tracked: set<Path>, folder: Path, rest: Path)
    requires FolderIgnoredBy(globs, rules, tracked, folder).Some?
    ensures FolderIgnoredBy(globs, rules, tracked, folder + rest).Some?
  {
    if rest == [] {
      assert folder + rest == folder;
    } else {
      if IsTracked(tracked, folder + rest, true) {
        var file :| file in tracked && folder + rest < file;
        assert folder < file;
      } else if IsTracked(tracked, folder, true) {
        TrackedOnlySpares(globs, rules, folder, true, 0);
      }
      IgnoredFolderDecides(globs, rules, folder, rest, true, IsTracked(tracked, folder + rest, true));
    }
  }

  /** **Pruning loses nothing**: under an ignored folder no file's own verdict
      keeps it, and nothing there is in a folder that is not ignored. */
  lemma {:induction false} PrunedKeepsNothing(globs: Globs, rules: Rules, tracked: set<Path>, folder: Path, rest: Path,
                                              entries: seq<Entry>)
    requires folder != [] && FolderIgnoredBy(globs, rules, tracked, folder).Some?
    ensures Expected(globs, rules, tracked, folder + rest, entries) == NOTHING
    decreases entries
  {
    if entries != [] {
      var name := entries[0].name;
      assert folder + rest + [name] == folder + (rest + [name]);
      FolderHidesFolder(globs, rules, tracked, folder, rest);
      match entries[0].node {
        case Folder(inner) => PrunedKeepsNothing(globs, rules, tracked, folder, rest + [name], inner);
        case File => FolderHidesFile(globs, rules, tracked, folder, rest + [name]);
        case Special =>
      }
      PrunedKeepsNothing(globs, rules, tracked, folder, rest, entries[1..]);
    }
  }

  // ---- What the walk reports, path by path ----

  /** The tree has a file, or with `dir` a folder, at the path `rest` in `entries`. */
  predicate HasNode(entries: seq<Entry>, rest: Path, dir: bool)
    decreases |rest|, 1
  {
    rest != [] && exists i | 0 <= i < |entries| ::
      entries[i].name == rest[0] && NodeAt(entries[i].node, rest[1..], dir)
  }

  predicate NodeAt(node: Node, rest: Path, dir: bool)
    decreases |rest|, 2
  {
    if rest == [] then (if dir then node.Folder? else node.File?)
    else node.Folder? && HasNode(node.entries, rest, dir)
  }

  predicate IsAt(path: Path, entries: seq<Entry>, p: Path, dir: bool) {
    path < p && HasNode(entries, p[|path|..], dir)
  }

  predicate EntryAt(path: Path, entry: Entry, p: Path, dir: bool) {
    path < p && p[|path|] == entry.name && NodeAt(entry.node, p[|path| + 1..], dir)
  }

  predicate SomeTrackedBelow(tracked: set<Path>, folder: Path) {
    exists file <- tracked :: folder < file
  }

  /** No rule ignores the folder the path is in; the package home has none. */
  predicate ParentOpen(globs: Globs, rules: Rules, tracked: set<Path>, p: Path)
    requires p != []
  {
    var parent := p[..|p| - 1];
    parent == [] || PathIgnoredBy(globs, rules, parent, true, SomeTrackedBelow(tracked, parent)).None?
  }

  /** What `walked` must say of a file and of a folder at `p`, if they are there. */
  predicate SaysExactly(globs: Globs, rules: Rules, tracked: set<Path>, walked: Walked, p: Path, file: bool,
                        folder: bool, rule: IgnoredBy)
  {
    && (p in walked.found <==> file && PathIgnoredBy(globs, rules, p, false, p in tracked).None?)
    && ((p, rule) in walked.ignoredFiles <==>
          file && p != [] && ParentOpen(globs, rules, tracked, p)
          && PathIgnoredBy(globs, rules, p, false, p in tracked) == Some(rule))
    && ((p, rule) in walked.ignoredDirs <==>
          folder && p != [] && ParentOpen(globs, rules, tracked, p)
          && PathIgnoredBy(globs, rules, p, true, SomeTrackedBelow(tracked, p)) == Some(rule))
  }

  lemma HasNodeCons(entries: seq<Entry>, rest: Path, dir: bool)
    requires entries != []
    ensures HasNode(entries, rest, dir) <==>
            (rest != [] && entries[0].name == rest[0] && NodeAt(entries[0].node, rest[1..], dir))
            || HasNode(entries[1..], rest, dir)
  {
    if rest != [] {
      assert forall i | 0 <= i < |entries| - 1 :: entries[1..][i] == entries[i + 1];
      if HasNode(entries, rest, dir) {
        var i :| 0 <= i < |entries| && entries[i].name == rest[0] && NodeAt(entries[i].node, rest[1..], dir);
        assert i > 0 ==> entries[1..][i - 1] == entries[i];
      }
      if HasNode(entries[1..], rest, dir) {
        var i :| 0 <= i < |entries| - 1 && entries[1..][i].name == rest[0]
                 && NodeAt(entries[1..][i].node, rest[1..], dir);
        assert entries[i + 1] == entries[1..][i];
      }
    }
  }

  lemma IsAtCons(path: Path, entries: seq<Entry>, p: Path, dir: bool)
    requires entries != []
    ensures IsAt(path, entries, p, dir) <==> EntryAt(path, entries[0], p, dir) || IsAt(path, entries[1..], p, dir)
  {
    if path < p {
      HasNodeCons(entries, p[|path|..], dir);
      assert p[|path|..][1..] == p[|path| + 1..];
    }
  }

  /** **Path by path.** The walk finds exactly the files of the tree that no rule
      ignores, as tracked or not; and reports exactly the ignored files and folders
      whose own folder no rule ignores, each with the rule that is named for it. */
  lemma {:induction false} EntriesExactly(globs: Globs, rules: Rules, tracked: set<Path>, path: Path,
                                          entries: seq<Entry>, p: Path, rule: IgnoredBy)
    ensures SaysExactly(globs, rules, tracked, Expected(globs, rules, tracked, path, entries), p,
                        IsAt(path, entries, p, false), IsAt(path, entries, p, true), rule)
    decreases entries
  {
    if entries != [] {
      EntryExactly(globs, rules, tracked, path, entries[0], p, rule);
      EntriesExactly(globs, rules, tracked, path, entries[1..], p, rule);
      IsAtCons(path, entries, p, false);
      IsAtCons(path, entries, p, true);
    }
  }

  lemma {:induction false} EntryExactly(globs: Globs, rules: Rules, tracked: set<Path>, path: Path, entry: Entry,
                                        p: Path, rule: IgnoredBy)
    ensures SaysExactly(globs, rules, tracked, ExpectedEntry(globs, rules, tracked, path, entry), p,
                        EntryAt(path, entry, p, false), EntryAt(path, entry, p, true), rule)
    decreases entry
  {
    var at := path + [entry.name];
    if entry.node.Folder? {
      EntriesExactly(globs, rules, tracked, at, entry.node.entries, p, rule);
      UnderFolder(path, entry, p, false);
      UnderFolder(path, entry, p, true);
    } else {
      AtEntry(path, entry, p);
    }
    assert at[..|at| - 1] == path;
  }

  /** At a folder's entry is the folder, and what is in it. */
  lemma UnderFolder(path: Path, entry: Entry, p: Path, dir: bool)
    requires entry.node.Folder?
    ensures EntryAt(path, entry, p, dir) <==>
            (dir && p == path + [entry.name]) || IsAt(path + [entry.name], entry.node.entries, p, dir)
  {
    var at := path + [entry.name];
    if at < p {
      assert p[|path|] == at[|path|] && p[|path| + 1..] == p[|at|..];
    }
    if path < p && p[|path|] == entry.name {
      assert p == path + [p[|path|]] + p[|path| + 1..];
      assert at <= p;
    }
  }

  lemma AtEntry(path: Path, entry: Entry, p: Path)
    requires !entry.node.Folder?
    ensures EntryAt(path, entry, p, false) <==> p == path + [entry.name] && entry.node.File?
    ensures !EntryAt(path, entry, p, true)
  {
    if path < p && p[|path|] == entry.name && |p| == |path| + 1 {
      assert p == path + [p[|path|]];
    }
  }

  function Size(entries: seq<Entry>): nat {
    if entries == [] then 1
    else NodeSize(entries[0].node) + Size(entries[1..])
  }

  function NodeSize(node: Node): nat {
    if node.Folder? then Size(node.entries) else 0
  }

  type Queue = seq<(Path, seq<Entry>)>

  function QueueSize(queue: Queue): nat {
    if queue == [] then 0 else Size(queue[0].1) + QueueSize(queue[1..])
  }

  function QueueExpects(globs: Globs, rules: Rules, tracked: set<Path>, queue: Queue): Walked {
    if queue == [] then NOTHING
    else
      Plus(Expected(globs, rules, tracked, queue[0].0, queue[0].1), QueueExpects(globs, rules, tracked, queue[1..]))
  }

  lemma {:induction false} QueueGrows(globs: Globs, rules: Rules, tracked: set<Path>, queue: Queue,
                                      path: Path, entries: seq<Entry>)
    ensures QueueSize(queue + [(path, entries)]) == QueueSize(queue) + Size(entries)
    ensures QueueExpects(globs, rules, tracked, queue + [(path, entries)])
         == Plus(QueueExpects(globs, rules, tracked, queue), Expected(globs, rules, tracked, path, entries))
  {
    if queue == [] {
      assert ([(path, entries)])[1..] == [];
      PlusNothing(Expected(globs, rules, tracked, path, entries));
    } else {
      assert (queue + [(path, entries)])[1..] == queue[1..] + [(path, entries)];
      QueueGrows(globs, rules, tracked, queue[1..], path, entries);
      PlusMoves(Expected(globs, rules, tracked, queue[0].0, queue[0].1),
                QueueExpects(globs, rules, tracked, queue[1..]), Expected(globs, rules, tracked, path, entries));
    }
  }

  ghost predicate AllEntered(globs: Globs, rules: Rules, tracked: set<Path>, queue: Queue) {
    forall i | 0 <= i < |queue| :: Entered(globs, rules, tracked, queue[i].0)
  }

  /** An ignored folder is reported, and nothing in it. */
  lemma PrunedEntry(globs: Globs, rules: Rules, tracked: set<Path>, path: Path, entry: Entry)
    requires Entered(globs, rules, tracked, path) && entry.node.Folder?
    requires FolderIgnoredBy(globs, rules, tracked, path + [entry.name]).Some?
    ensures ExpectedEntry(globs, rules, tracked, path, entry)
         == Walked({}, {}, {(path + [entry.name], FolderIgnoredBy(globs, rules, tracked, path + [entry.name]).value)})
  {
    var p := path + [entry.name];
    PrunedKeepsNothing(globs, rules, tracked, p, [], entry.node.entries);
    assert p + [] == p;
  }

  /** One entry: kept, reported as ignored, or queued. */
  method WalkEntry(globs: Globs, rules: Rules, tracked: set<Path>, dirs: set<Path>, dir: Path, entry: Entry,
                   queue: Queue)
    returns (here: Walked, longer: Queue)
    requires forall path: Path | path != [] :: path in dirs <==> IsTracked(tracked, path, true)
    requires Entered(globs, rules, tracked, dir) && AllEntered(globs, rules, tracked, queue)
    ensures Plus(here, QueueExpects(globs, rules, tracked, longer))
         == Plus(QueueExpects(globs, rules, tracked, queue), ExpectedEntry(globs, rules, tracked, dir, entry))
    ensures AllEntered(globs, rules, tracked, longer)
    ensures QueueSize(longer) == QueueSize(queue) + if longer == queue then 0 else NodeSize(entry.node)
  {
    var path: Path := dir + [entry.name];
    here, longer := NOTHING, queue;
    match entry.node {
      case Folder(inner) =>
        var verdict := PathIgnoredBy(globs, rules, path, true, path in dirs);
        if verdict.Some? {
          PrunedEntry(globs, rules, tracked, dir, entry);
          here := Walked({}, {}, {(path, verdict.value)});
        } else {
          QueueGrows(globs, rules, tracked, queue, path, inner);
          PlusNothing(Expected(globs, rules, tracked, path, inner));
          longer := queue + [(path, inner)];
        }
      case File =>
        var verdict := PathIgnoredBy(globs, rules, path, false, path in tracked);
        here := if verdict.Some? then Walked({}, {(path, verdict.value)}, {}) else Walked({path}, {}, {});
      case Special =>
    }
    PlusNothing(QueueExpects(globs, rules, tracked, longer));
    PlusMoves(here, QueueExpects(globs, rules, tracked, longer), NOTHING);
  }

  /** Four parts, added up in another order. */
  lemma PlusShuffle(walked: Walked, queue: Walked, here: Walked, longer: Walked, entry: Walked, rest: Walked)
    requires Plus(here, longer) == Plus(queue, entry)
    ensures Plus(Plus(Plus(walked, here), longer), rest) == Plus(Plus(walked, queue), Plus(entry, rest))
  {
    PlusMoves(walked, here, longer);
    PlusMoves(walked, queue, entry);
    PlusMoves(Plus(walked, queue), entry, rest);
  }

  /** Goes through one folder: keeps its visible files, reports its ignored files
      and folders, and queues the folders no rule ignores. */
  method WalkFolder(globs: Globs, rules: Rules, tracked: set<Path>, dirs: set<Path>, dir: Path, entries: seq<Entry>,
                    queue: Queue)
    returns (walked: Walked, longer: Queue)
    requires forall path: Path | path != [] :: path in dirs <==> IsTracked(tracked, path, true)
    requires Entered(globs, rules, tracked, dir) && AllEntered(globs, rules, tracked, queue)
    ensures Plus(walked, QueueExpects(globs, rules, tracked, longer))
         == Plus(QueueExpects(globs, rules, tracked, queue), Expected(globs, rules, tracked, dir, entries))
    ensures AllEntered(globs, rules, tracked, longer)
    ensures QueueSize(longer) < QueueSize(queue) + Size(entries)
  {
    walked, longer := NOTHING, queue;
    ghost var whole := Plus(QueueExpects(globs, rules, tracked, queue), Expected(globs, rules, tracked, dir, entries));
    assert entries[0..] == entries;
    PlusNothing(QueueExpects(globs, rules, tracked, queue));
    var i := 0;
    while i < |entries|
      invariant 0 <= i <= |entries|
      invariant Plus(Plus(walked, QueueExpects(globs, rules, tracked, longer)),
                     Expected(globs, rules, tracked, dir, entries[i..])) == whole
      invariant AllEntered(globs, rules, tracked, longer)
      invariant QueueSize(longer) + Size(entries[i..]) <= QueueSize(queue) + Size(entries)
    {
      assert entries[i..][1..] == entries[i + 1..];
      var here, more := WalkEntry(globs, rules, tracked, dirs, dir, entries[i], longer);
      PlusShuffle(walked, QueueExpects(globs, rules, tracked, longer), here, QueueExpects(globs, rules, tracked, more),
                  ExpectedEntry(globs, rules, tracked, dir, entries[i]),
                  Expected(globs, rules, tracked, dir, entries[i + 1..]));
      walked, longer := Plus(walked, here), more;
      i := i + 1;
    }
    PlusNothing(Plus(walked, QueueExpects(globs, rules, tracked, longer)));
  }

  /** Walks the package home folder by folder, entering no ignored one, and
      reports exactly what a search of every folder would. */
  method WalkPackageHome(globs: Globs, rules: Rules, tracked: set<Path>, dirs: set<Path>, home: seq<Entry>)
    returns (walked: Walked)
    requires forall path: Path | path != [] :: path in dirs <==> IsTracked(tracked, path, true)
    ensures walked == Expected(globs, rules, tracked, [], home)
  {
    walked := NOTHING;
    var queue: Queue := [([], home)];
    assert queue[1..] == [];
    PlusNothing(Expected(globs, rules, tracked, [], home));
    while queue != []
      invariant Plus(walked, QueueExpects(globs, rules, tracked, queue)) == Expected(globs, rules, tracked, [], home)
      invariant AllEntered(globs, rules, tracked, queue)
      decreases QueueSize(queue)
    {
      var (dir, entries) := queue[0];
      var here, rest := WalkFolder(globs, rules, tracked, dirs, dir, entries, queue[1..]);
      PlusMoves(walked, here, QueueExpects(globs, rules, tracked, rest));
      PlusMoves(QueueExpects(globs, rules, tracked, queue[1..]), Expected(globs, rules, tracked, dir, entries),
                NOTHING);
      walked, queue := Plus(walked, here), rest;
    }
    PlusNothing(walked);
  }

  /** Walks the package home with the manifest's and the lineage's paths as its
      tracked files. */
  method WalkTracked(globs: Globs, rules: Rules, keys: seq<Path>, home: seq<Entry>) returns (walked: Walked)
    ensures walked == Expected(globs, rules, set key <- keys, [], home)
  {
    var tracked := set key <- keys;
    var dirs := TrackedDirs(keys);
    forall path: Path | path != [] ensures path in dirs <==> IsTracked(tracked, path, true) {
      if IsTracked(tracked, path, true) {
        var key :| key in tracked && path < key;
        var j :| 0 <= j < |keys| && keys[j] == key;
        assert path < keys[j];
      }
      if Above(keys, path) {
        var j :| 0 <= j < |keys| && path < keys[j];
        assert keys[j] in tracked;
      }
    }
    walked := WalkPackageHome(globs, rules, tracked, dirs, home);
  }

  /** A folder above one of `keys`. */
  predicate Above(keys: seq<Path>, path: Path) {
    exists j | 0 <= j < |keys| :: path < keys[j]
  }

  lemma AboveOneMore(keys: seq<Path>, k: nat, path: Path)
    requires k < |keys|
    ensures Above(keys[..k + 1], path) <==> Above(keys[..k], path) || path < keys[k]
  {
    if Above(keys[..k], path) {
      var j :| 0 <= j < k && path < keys[..k][j];
      assert keys[..k + 1][j] == keys[..k][j];
    }
    assert keys[..k + 1][k] == keys[k];
  }

  /** The folders that hold one of `keys`. */
  method TrackedDirs(keys: seq<Path>) returns (dirs: set<Path>)
    ensures forall path: Path :: path in dirs <==> path != [] && Above(keys, path)
  {
    dirs := {};
    var k := 0;
    while k < |keys|
      invariant 0 <= k <= |keys|
      invariant forall path: Path :: path in dirs <==> path != [] && Above(keys[..k], path)
    {
      AboveIsClosed(keys[..k]);
      dirs := ClimbFrom(dirs, keys[k]);
      forall path: Path ensures path in dirs <==> path != [] && Above(keys[..k + 1], path) {
        AboveOneMore(keys, k, path);
      }
      k := k + 1;
    }
    assert keys[..k] == keys;
  }

  ghost predicate ClosedUpwards(dirs: iset<Path>) {
    forall path: Path, n: nat | path in dirs && 0 < n < |path| :: path[..n] in dirs
  }

  lemma AboveIsClosed(keys: seq<Path>)
    ensures ClosedUpwards(iset path: Path | path != [] && Above(keys, path))
  {
    forall path: Path, n: nat | path != [] && Above(keys, path) && 0 < n < |path| ensures Above(keys, path[..n]) {
      var j :| 0 <= j < |keys| && path < keys[j];
      assert path[..n] < keys[j];
    }
  }

  /** One climb. It stops at a folder already there: the ones above it are too. */
  method ClimbFrom(dirs: set<Path>, key: Path) returns (more: set<Path>)
    requires ClosedUpwards(iset path | path in dirs)
    ensures forall path: Path :: path in more <==> path in dirs || (path != [] && path < key)
  {
    more := dirs;
    var n := |key|;
    while n > 0
      invariant 0 <= n <= |key|
      invariant forall path: Path :: path in more <==> path in dirs || (path != [] && n <= |path| && path < key)
    {
      n := n - 1;
      assert forall path: Path | path < key && |path| == n :: path == key[..n];
      if n == 0 || key[..n] in more {
        forall path: Path | path != [] && path < key && |path| < n ensures path in dirs {
          assert key[..n][..|path|] == path;
        }
        return;
      }
      more := more + {key[..n]};
    }
  }
}
