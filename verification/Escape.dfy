/** The `!` line that names one path, and the gitignore line rules that read it
    back, over a small glob language. */
module Escape {
  import opened Wrappers
  import opened RulesText
  import opened RulesFile

  type Name = name: string | name != "" && '/' !in name witness "a"

  /** A path under the package home, one name a level. */
  type Path = seq<Name>

  datatype Scope = Package | AllPackages

  function Join(path: seq<string>): string {
    if path == [] then ""
    else if |path| == 1 then path[0]
    else path[0] + "/" + Join(path[1..])
  }

  // ---- Escaping ----

  predicate IsAscii(c: char) {
    c as int < 0x80
  }

  predicate IsMeta(c: char) {
    c == '*' || c == '?' || c == '[' || c == ']' || c == '{' || c == '}'
  }

  /** One character of a name; `last` is whether the name ends with it. */
  function EscapedChar(c: char, last: bool): string {
    if c == '\\' || (last && IsWhitespace(c)) then
      if IsAscii(c) then ['[', c, ']'] else ['{', c, '}']
    else if IsMeta(c) then ['\\', c]
    else [c]
  }

  function Escaped(name: string): string {
    if name == "" then "" else EscapedChar(name[0], |name| == 1) + Escaped(name[1..])
  }

  lemma EscapedStep(name: string, i: nat)
    requires i < |name|
    ensures Escaped(name[i..]) == EscapedChar(name[i], i == |name| - 1) + Escaped(name[i + 1..])
  {
    assert name[i..][1..] == name[i + 1..];
  }

  method Escape(name: string) returns (glob: string)
    ensures glob == Escaped(name)
  {
    glob := "";
    var last := if |name| == 0 then 0 else |name| - 1;
    var i := 0;
    while i < |name|
      invariant 0 <= i <= |name|
      invariant glob + Escaped(name[i..]) == Escaped(name)
    {
      var c := name[i];
      EscapedStep(name, i);
      var piece: string;
      if c == '\\' || (i == last && IsWhitespace(c)) {
        var (open, close) := if IsAscii(c) then ('[', ']') else ('{', '}');
        piece := [open, c, close];
      } else {
        piece := [];
        if IsMeta(c) {
          piece := piece + ['\\'];
        }
        piece := piece + [c];
      }
      assert piece == EscapedChar(c, i == last);
      Assoc(glob, piece, Escaped(name[i + 1..]));
      glob := glob + piece;
      i := i + 1;
    }
  }

  predicate HasBreak(path: seq<string>) {
    exists i | 0 <= i < |path| :: '\n' in path[i]
  }

  function EscapedNames(path: seq<string>): seq<string> {
    seq(|path|, i requires 0 <= i < |path| => Escaped(path[i]))
  }

  /** The `!` line for one path; none when a name holds a line break. */
  function StopLine(path: seq<string>, dir: bool, scope: Scope): Option<string> {
    if HasBreak(path) then None
    else
      var body := match scope
        case Package => "!/" + Join(EscapedNames(path))
        case AllPackages => "!" + if path == [] then "" else Escaped(path[|path| - 1]);
      Some(if dir then body + "/" else body)
  }

  method MakeStopLine(path: seq<string>, dir: bool, scope: Scope) returns (r: Option<string>)
    ensures r == StopLine(path, dir, scope)
  {
    var names: seq<string> := [];
    var i := 0;
    while i < |path|
      invariant 0 <= i <= |path|
      invariant forall j | 0 <= j < i :: '\n' !in path[j]
      invariant names == EscapedNames(path[..i])
    {
      if '\n' in path[i] {
        return None;
      }
      var name := Escape(path[i]);
      names := names + [name];
      i := i + 1;
    }
    assert path[..i] == path;
    var line;
    match scope {
      case Package => line := "!/" + Join(names);
      case AllPackages => line := "!" + if names == [] then "" else names[|names| - 1];
    }
    if dir {
      line := line + "/";
    }
    return Some(line);
  }

  // ---- A small glob language ----

  /** A class matches one byte, so one ASCII character of those it lists. */
  datatype Token = Literal(c: char) | AnyChar | Star | Class(chars: string) | Either(branches: seq<string>)

  predicate IsPlain(c: char) {
    !IsMeta(c) && c != '\\' && c != '/'
  }

  function IndexOf(s: string, c: char, from: nat): (i: Option<nat>)
    requires from <= |s|
    ensures i.Some? ==> from <= i.value < |s| && s[i.value] == c
    decreases |s| - from
  {
    if from == |s| then None else if s[from] == c then Some(from) else IndexOf(s, c, from + 1)
  }

  function SplitCommas(s: string): seq<string> {
    var comma := IndexOf(s, ',', 0);
    if comma.None? then [s] else [s[..comma.value]] + SplitCommas(s[comma.value + 1..])
  }

  function Prepend(token: Token, tokens: Option<seq<Token>>): Option<seq<Token>> {
    if tokens.None? then None else Some([token] + tokens.value)
  }

  /** The glob a text spells, or none when it is malformed. */
  function ParseGlob(s: string): Option<seq<Token>>
    decreases |s|
  {
    if s == "" then Some([])
    else match s[0]
      case '\\' => if |s| == 1 then None else Prepend(Literal(s[1]), ParseGlob(s[2..]))
      case '?' => Prepend(AnyChar, ParseGlob(s[1..]))
      case '*' => Prepend(Star, ParseGlob(s[1..]))
      case '[' =>
        var close := if |s| < 2 then None else IndexOf(s, ']', 2);
        if close.None? then None
        else Prepend(Class(s[1..close.value]), ParseGlob(s[close.value + 1..]))
      case '{' =>
        var close := IndexOf(s, '}', 0);
        if close.None? || exists i | 1 <= i < close.value :: !IsPlain(s[i]) then None
        else Prepend(Either(SplitCommas(s[1..close.value])), ParseGlob(s[close.value + 1..]))
      case '}' => None
      case c => Prepend(Literal(c), ParseGlob(s[1..]))
  }

  predicate Matches(tokens: seq<Token>, s: string)
    decreases |tokens|
  {
    if tokens == [] then s == ""
    else
      var rest := tokens[1..];
      match tokens[0]
      case Literal(c) => s != "" && s[0] == c && Matches(rest, s[1..])
      case AnyChar => s != "" && s[0] != '/' && Matches(rest, s[1..])
      case Star => exists k | 0 <= k <= |s| :: '/' !in s[..k] && Matches(rest, s[k..])
      case Class(chars) => s != "" && IsAscii(s[0]) && s[0] in chars && Matches(rest, s[1..])
      case Either(branches) => exists branch <- branches :: branch <= s && Matches(rest, s[|branch|..])
  }

  // ---- Lines ----

  datatype Glob = Glob(whitelist: bool, onlyDir: bool, anywhere: bool, tokens: seq<Token>)

  predicate StartsWith(s: string, prefix: string) {
    |prefix| <= |s| && forall i | 0 <= i < |prefix| :: s[i] == prefix[i]
  }

  predicate EndsWith(s: string, suffix: string) {
    |suffix| <= |s| && forall i | 0 <= i < |suffix| :: s[|s| - |suffix| + i] == suffix[i]
  }

  /** The glob of a line's text, as the gitignore rules read it. */
  function ReadLine(text: string): Option<Glob> {
    var escaped := StartsWith(text, "\\!") || StartsWith(text, "\\#");
    var whitelist := !escaped && StartsWith(text, "!");
    var body := if escaped || whitelist then text[1..] else text;
    var absolute := StartsWith(body, "/");
    ReadBody(if absolute && !escaped then body[1..] else body, whitelist, absolute)
  }

  /** The rest of the line: a `/` at its end is for folders only, and takes an
      escape before it along; without any other `/` it matches at any depth. */
  function ReadBody(body: string, whitelist: bool, absolute: bool): Option<Glob> {
    var onlyDir := EndsWith(body, "/");
    var cut := if onlyDir then body[..|body| - 1] else body;
    var actual := if onlyDir && EndsWith(cut, "\\") then cut[..|cut| - 1] else cut;
    var recursive := StartsWith(actual, "**/");
    var anywhere := recursive || (!absolute && '/' !in actual);
    var pattern := if recursive then actual[3..] else actual;
    var tokens := ParseGlob(if EndsWith(actual, "/**") then pattern + "/*" else pattern);
    if tokens.None? then None else Some(Glob(whitelist, onlyDir, anywhere, tokens.value))
  }

  predicate Accepts(glob: Glob, path: Path, dir: bool) {
    && (glob.onlyDir ==> dir)
    && if glob.anywhere then exists k | 0 <= k < |path| :: Matches(glob.tokens, Join(path[k..]))
       else Matches(glob.tokens, Join(path))
  }

  /** Whether the line with this text names the file or folder. */
  predicate LineHits(text: string, path: Path, dir: bool) {
    var glob := ReadLine(text);
    glob.Some? && Accepts(glob.value, path, dir)
  }

  // ---- An escaped name is a glob for itself ----

  function EscapedToken(c: char, last: bool): Token {
    if c == '\\' || (last && IsWhitespace(c)) then
      if IsAscii(c) then Class([c]) else Either([[c]])
    else Literal(c)
  }

  function NameTokens(name: string): (tokens: seq<Token>)
    ensures |tokens| == |name|
  {
    if name == "" then [] else [EscapedToken(name[0], |name| == 1)] + NameTokens(name[1..])
  }

  lemma EscapedCharParses(c: char, last: bool, tail: string)
    requires c != '\n' && c != '/'
    ensures ParseGlob(EscapedChar(c, last) + tail) == Prepend(EscapedToken(c, last), ParseGlob(tail))
  {
    var s := EscapedChar(c, last) + tail;
    if c == '\\' || (last && IsWhitespace(c)) {
      assert s[0] == (if IsAscii(c) then '[' else '{') && s[1] == c && s[2] == (if IsAscii(c) then ']' else '}');
      assert s[3..] == tail && s[1..2] == [c];
      if !IsAscii(c) {
        assert IndexOf(s, '}', 0) == IndexOf(s, '}', 1) == IndexOf(s, '}', 2) == Some(2);
        assert IndexOf([c], ',', 0) == IndexOf([c], ',', 1) == None;
      }
    } else if IsMeta(c) {
      assert s[0] == '\\' && s[1] == c && s[2..] == tail;
    } else {
      assert s[0] == c && s[1..] == tail;
    }
  }

  lemma {:induction false} EscapedParses(name: string, tail: string, tokens: seq<Token>)
    requires '\n' !in name && '/' !in name && ParseGlob(tail) == Some(tokens)
    ensures ParseGlob(Escaped(name) + tail) == Some(NameTokens(name) + tokens)
  {
    if name == "" {
      assert Escaped(name) + tail == tail;
      assert NameTokens(name) + tokens == tokens;
    } else {
      var c, last := name[0], |name| == 1;
      EscapedParses(name[1..], tail, tokens);
      Assoc(EscapedChar(c, last), Escaped(name[1..]), tail);
      EscapedCharParses(c, last, Escaped(name[1..]) + tail);
      Assoc([EscapedToken(c, last)], NameTokens(name[1..]), tokens);
    }
  }

  lemma TokenMatches(c: char, last: bool, tokens: seq<Token>, s: string)
    ensures Matches([EscapedToken(c, last)] + tokens, s) <==> s != "" && s[0] == c && Matches(tokens, s[1..])
  {
    assert ([EscapedToken(c, last)] + tokens)[1..] == tokens;
    var token := EscapedToken(c, last);
    if token.Either? {
      assert forall branch <- token.branches :: branch == [c];
      assert [c] in token.branches;
    }
  }

  lemma {:induction false} NameMatches(name: string, tokens: seq<Token>, s: string)
    ensures Matches(NameTokens(name) + tokens, s) <==> name <= s && Matches(tokens, s[|name|..])
  {
    if name == "" {
      assert NameTokens(name) + tokens == tokens;
      assert s[0..] == s;
    } else {
      var rest := NameTokens(name[1..]) + tokens;
      assert NameTokens(name) + tokens == [EscapedToken(name[0], |name| == 1)] + rest;
      TokenMatches(name[0], |name| == 1, rest, s);
      if s != "" && s[0] == name[0] {
        NameMatches(name[1..], tokens, s[1..]);
        assert name == [name[0]] + name[1..];
        assert s == [s[0]] + s[1..];
        if name[1..] <= s[1..] {
          assert s[1..][|name[1..]|..] == s[|name|..];
        }
        assert name <= s <==> name[1..] <= s[1..];
      }
    }
  }

  // ---- A stop line names its path ----

  function JoinTokens(path: seq<string>): seq<Token> {
    if path == [] then []
    else if |path| == 1 then NameTokens(path[0])
    else NameTokens(path[0]) + ([Literal('/')] + JoinTokens(path[1..]))
  }

  lemma {:induction false} JoinParses(path: Path)
    requires !HasBreak(path)
    ensures ParseGlob(Join(EscapedNames(path))) == Some(JoinTokens(path))
  {
    if path != [] {
      var names := EscapedNames(path);
      assert '\n' !in path[0];
      if |path| == 1 {
        EscapedParses(path[0], "", []);
        assert names[0] + "" == names[0];
        assert NameTokens(path[0]) + [] == NameTokens(path[0]);
      } else {
        assert !HasBreak(path[1..]) by {
          assert forall i | 0 <= i < |path[1..]| :: path[1..][i] == path[i + 1];
        }
        JoinParses(path[1..]);
        assert names[1..] == EscapedNames(path[1..]);
        SlashParses(path[0], Join(names[1..]), JoinTokens(path[1..]));
      }
    }
  }

  lemma SlashParses(name: Name, tail: string, tokens: seq<Token>)
    requires '\n' !in name && ParseGlob(tail) == Some(tokens)
    ensures ParseGlob(Escaped(name) + "/" + tail) == Some(NameTokens(name) + ([Literal('/')] + tokens))
  {
    assert ("/" + tail)[1..] == tail;
    EscapedParses(name, "/" + tail, [Literal('/')] + tokens);
    assert Escaped(name) + "/" + tail == Escaped(name) + ("/" + tail);
  }

  lemma {:induction false} JoinMatches(path: Path, s: string)
    ensures Matches(JoinTokens(path), s) <==> s == Join(path)
  {
    if path == [] {
    } else if |path| == 1 {
      NameMatches(path[0], [], s);
      assert NameTokens(path[0]) + [] == NameTokens(path[0]);
      PrefixLeaves(path[0], s, "");
    } else {
      var rest := [Literal('/')] + JoinTokens(path[1..]);
      NameMatches(path[0], rest, s);
      if path[0] <= s && s[|path[0]|..] != "" {
        var left := s[|path[0]|..];
        JoinMatches(path[1..], left[1..]);
        assert rest[1..] == JoinTokens(path[1..]);
        assert left == "/" + Join(path[1..]) <==> left[0] == '/' && left[1..] == Join(path[1..]);
      }
      PrefixLeaves(path[0], s, "/" + Join(path[1..]));
      assert Join(path) == path[0] + ("/" + Join(path[1..]));
    }
  }

  lemma PrefixLeaves(prefix: string, s: string, rest: string)
    ensures s == prefix + rest <==> prefix <= s && s[|prefix|..] == rest
  {
    if prefix <= s && s[|prefix|..] == rest {
      assert s == s[..|prefix|] + s[|prefix|..];
    }
  }

  /** A name ends at the first `/`, so a joined path has one reading. */
  lemma {:induction false} JoinInjective(a: Path, b: Path)
    ensures Join(a) == Join(b) <==> a == b
  {
    if Join(a) == Join(b) {
      JoinFirst(a);
      JoinFirst(b);
      if a != [] && b != [] {
        FirstNames(a, b);
        if |a| > 1 {
          var n := |a[0]|;
          assert Join(a)[n + 1..] == Join(a[1..]) && Join(b)[n + 1..] == Join(b[1..]);
          JoinInjective(a[1..], b[1..]);
          assert a == [a[0]] + a[1..] && b == [b[0]] + b[1..];
        }
      }
    }
  }

  lemma JoinFirst(path: Path)
    ensures path != [] ==>
              && path[0] <= Join(path)
              && (|path| > 1 <==> |Join(path)| > |path[0]|)
              && (|path| > 1 ==> Join(path)[|path[0]|] == '/')
    ensures path == [] <==> Join(path) == ""
  {
    if |path| > 1 {
      assert Join(path) == path[0] + ("/" + Join(path[1..]));
    }
  }

  lemma FirstNames(a: Path, b: Path)
    requires a != [] && b != [] && Join(a) == Join(b)
    ensures a[0] == b[0] && (|a| > 1 <==> |b| > 1)
  {
    JoinFirst(a);
    JoinFirst(b);
    var joined := Join(a);
    var n, m := |a[0]|, |b[0]|;
    assert a[0] == joined[..n] && b[0] == joined[..m];
    assert (forall i | 0 <= i < n :: joined[i] != '/') && (forall i | 0 <= i < m :: joined[i] != '/');
  }

  /** Nothing at the ends of an escaped name is read as anything but the name. */
  predicate KeepsItsEnds(glob: string) {
    && glob != "" && glob[0] != '*' && glob[0] != '/'
    && var last := glob[|glob| - 1];
       && last != '/' && last != '\\' && !IsWhitespace(last)
       && (last == '*' ==> |glob| > 1 && glob[|glob| - 2] == '\\')
  }

  lemma {:induction false} EscapedEnds(name: string)
    requires name != "" && '/' !in name
    ensures KeepsItsEnds(Escaped(name)) && '/' !in Escaped(name)
    ensures '\n' !in name ==> '\n' !in Escaped(name)
  {
    var first := EscapedChar(name[0], |name| == 1);
    var rest := Escaped(name[1..]);
    if |name| == 1 {
      assert rest == "" && Escaped(name) == first;
    } else {
      EscapedEnds(name[1..]);
      assert Escaped(name) == first + rest;
      assert (first + rest)[|first + rest| - 1] == rest[|rest| - 1];
      if |rest| > 1 {
        assert (first + rest)[|first + rest| - 2] == rest[|rest| - 2];
      }
    }
  }

  lemma {:induction false} JoinEnds(path: Path)
    requires path != []
    ensures KeepsItsEnds(Join(EscapedNames(path)))
    ensures !HasBreak(path) ==> '\n' !in Join(EscapedNames(path))
  {
    var names := EscapedNames(path);
    EscapedEnds(path[0]);
    if |path| > 1 {
      assert names[1..] == EscapedNames(path[1..]);
      JoinEnds(path[1..]);
      assert !HasBreak(path) ==> !HasBreak(path[1..]);
      JoinedEnds(names[0], Join(names[1..]));
      assert Join(names) == names[0] + "/" + Join(names[1..]);
    }
    assert !HasBreak(path) ==> '\n' !in path[0];
  }

  lemma JoinedEnds(first: string, rest: string)
    requires KeepsItsEnds(first) && KeepsItsEnds(rest)
    ensures KeepsItsEnds(first + "/" + rest)
  {
    var all := first + "/" + rest;
    assert all[0] == first[0] && all[|all| - 1] == rest[|rest| - 1];
    if |rest| > 1 {
      assert all[|all| - 2] == rest[|rest| - 2];
    }
  }

  /** The end of a line after its body: a folder's line has one `/` more. */
  function Closing(glob: string, dir: bool): string {
    if dir then glob + "/" else glob
  }

  lemma ReadAnchored(glob: string, dir: bool, tokens: seq<Token>)
    requires KeepsItsEnds(glob) && ParseGlob(glob) == Some(tokens)
    ensures ReadLine("!/" + Closing(glob, dir)) == Some(Glob(true, dir, false, tokens))
  {
    var body := Closing(glob, dir);
    ReadEnds(glob, dir, true, tokens);
    assert ("!/" + body)[0] == '!' && ("!/" + body)[1..] == "/" + body && ("/" + body)[1..] == body;
  }

  lemma ReadByName(glob: string, dir: bool, tokens: seq<Token>)
    requires KeepsItsEnds(glob) && '/' !in glob && ParseGlob(glob) == Some(tokens)
    ensures ReadLine("!" + Closing(glob, dir)) == Some(Glob(true, dir, true, tokens))
  {
    var body := Closing(glob, dir);
    ReadEnds(glob, dir, false, tokens);
    assert ("!" + body)[0] == '!' && ("!" + body)[1..] == body && body[0] == glob[0];
  }

  lemma ReadEnds(glob: string, dir: bool, absolute: bool, tokens: seq<Token>)
    requires KeepsItsEnds(glob) && ParseGlob(glob) == Some(tokens)
    ensures ReadBody(Closing(glob, dir), true, absolute) == Some(Glob(true, dir, !absolute && '/' !in glob, tokens))
  {
    var body := Closing(glob, dir);
    assert body[|body| - 1] == if dir then '/' else glob[|glob| - 1];
    assert dir ==> body[..|body| - 1] == glob;
    EndAt(body, "/", 0);
    assert EndsWith(body, "/") == dir;
    NoSuffix(glob);
  }

  lemma NoSuffix(glob: string)
    requires KeepsItsEnds(glob)
    ensures !EndsWith(glob, "\\") && !EndsWith(glob, "/**") && !StartsWith(glob, "**/")
  {
    EndAt(glob, "/**", 1);
    EndAt(glob, "/**", 2);
    EndAt(glob, "\\", 0);
    assert glob[0] != "**/"[0];
  }

  lemma EndAt(s: string, suffix: string, k: nat)
    requires k < |suffix|
    ensures EndsWith(s, suffix) ==> s[|s| - |suffix| + k] == suffix[k]
  {
  }

  lemma StopLineText(path: Path, dir: bool, scope: Scope)
    requires path != [] && !HasBreak(path)
    ensures StopLine(path, dir, scope) ==
              Some(match scope
                   case Package => "!/" + Closing(Join(EscapedNames(path)), dir)
                   case AllPackages => "!" + Closing(Escaped(path[|path| - 1]), dir))
  {
    var glob := if scope.Package? then Join(EscapedNames(path)) else Escaped(path[|path| - 1]);
    assert "!/" + glob + "/" == "!/" + (glob + "/") && "!" + glob + "/" == "!" + (glob + "/");
  }

  /** **The package's line** accepts its path and no other; for a folder, only
      a folder there. */
  lemma AnchoredLineNamesItsPath(path: Path, dir: bool, other: Path, otherDir: bool)
    requires path != [] && !HasBreak(path)
    ensures StopLine(path, dir, Package).Some?
    ensures LineHits(StopLine(path, dir, Package).value, other, otherDir) <==> other == path && (dir ==> otherDir)
  {
    var glob := Join(EscapedNames(path));
    JoinEnds(path);
    JoinParses(path);
    ReadAnchored(glob, dir, JoinTokens(path));
    StopLineText(path, dir, Package);
    JoinMatches(path, Join(other));
    JoinInjective(path, other);
  }

  /** **The user's line** accepts exactly the paths that end in its name; for a
      folder, only folders. */
  lemma NameLineNamesTheName(path: Path, dir: bool, other: Path, otherDir: bool)
    requires path != [] && !HasBreak(path)
    ensures StopLine(path, dir, AllPackages).Some?
    ensures LineHits(StopLine(path, dir, AllPackages).value, other, otherDir)
            <==> other != [] && other[|other| - 1] == path[|path| - 1] && (dir ==> otherDir)
  {
    var name := path[|path| - 1];
    assert '\n' !in name;
    EscapedEnds(name);
    EscapedParses(name, "", []);
    assert Escaped(name) + "" == Escaped(name) && NameTokens(name) + [] == NameTokens(name);
    ReadByName(Escaped(name), dir, NameTokens(name));
    StopLineText(path, dir, AllPackages);
    NameEndsPath(name, other);
  }

  lemma NameEndsPath(name: Name, other: Path)
    ensures (exists k | 0 <= k < |other| :: Matches(NameTokens(name), Join(other[k..])))
            <==> other != [] && other[|other| - 1] == name
  {
    forall k | 0 <= k < |other|
      ensures Matches(NameTokens(name), Join(other[k..])) <==> k == |other| - 1 && other[k] == name
    {
      JoinMatches([name], Join(other[k..]));
      JoinInjective([name], other[k..]);
      assert other[k..] == [name] <==> k == |other| - 1 && other[k] == name by {
        assert other[k..][0] == other[k];
      }
    }
    if other != [] && other[|other| - 1] == name {
      assert Matches(NameTokens(name), Join(other[|other| - 1..]));
    }
  }

  /** A stop line reads back from its file as it was written. */
  lemma StopLineIsTidy(path: Path, dir: bool, scope: Scope)
    requires path != [] && !HasBreak(path)
    ensures Tidy(StopLine(path, dir, scope).value) && StopLine(path, dir, scope).value[0] == '!'
  {
    StopLineText(path, dir, scope);
    match scope {
      case Package =>
        JoinEnds(path);
        ClosedIsTidy("!/", Join(EscapedNames(path)), dir);
      case AllPackages =>
        assert '\n' !in path[|path| - 1];
        EscapedEnds(path[|path| - 1]);
        ClosedIsTidy("!", Escaped(path[|path| - 1]), dir);
    }
  }

  lemma ClosedIsTidy(start: string, glob: string, dir: bool)
    requires start == "!" || start == "!/"
    requires KeepsItsEnds(glob) && '\n' !in glob
    ensures Tidy(start + Closing(glob, dir)) && (start + Closing(glob, dir))[0] == '!'
  {
    var text := start + Closing(glob, dir);
    assert text[0] == '!' && text[|text| - 1] == if dir then '/' else glob[|glob| - 1];
    assert '\n' !in start && '\n' !in Closing(glob, dir);
  }
}
