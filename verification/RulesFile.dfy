/** Rules files on disk: adding lines, taking lines out, and turning the
    built-in rules on and off with `!rule` lines in the user-wide file. */
module RulesFile {
  import opened Wrappers
  import opened RulesText

  // ---- Taking lines out ----

  /** How a line reads to the removal. */
  function RemovalReading(piece: string, first: bool): Option<string> {
    var line := TrimCrLf(piece);
    GlobText(if first then TrimBom(line) else line)
  }

  predicate Removed(piece: string, first: bool, lines: seq<string>) {
    var text := RemovalReading(piece, first);
    text.Some? && text.value in lines
  }

  function KeptPieces(pieces: seq<string>, first: bool, lines: seq<string>): seq<string> {
    if pieces == [] then []
    else
      var rest := KeptPieces(pieces[1..], false, lines);
      if Removed(pieces[0], first, lines) then rest else [pieces[0]] + rest
  }

  /** `contents` without the lines that read as one of `lines`. */
  function WithoutLines(contents: string, lines: seq<string>): string {
    Flatten(KeptPieces(Pieces(contents), true, lines))
  }

  lemma {:induction false} KeptArePieces(pieces: seq<string>, first: bool, lines: seq<string>)
    requires ArePieces(pieces)
    ensures ArePieces(KeptPieces(pieces, first, lines))
    ensures pieces == [] ==> KeptPieces(pieces, first, lines) == []
  {
    if |pieces| > 0 {
      assert ArePieces(pieces[1..]);
      KeptArePieces(pieces[1..], false, lines);
      var rest := KeptPieces(pieces[1..], false, lines);
      if !Removed(pieces[0], first, lines) {
        assert KeptPieces(pieces, first, lines) == [pieces[0]] + rest;
        PieceThenPieces(pieces[0], rest);
      } else {
        assert KeptPieces(pieces, first, lines) == rest;
      }
    }
  }

  lemma WithoutLinesPieces(contents: string, lines: seq<string>)
    ensures Pieces(WithoutLines(contents, lines)) == KeptPieces(Pieces(contents), true, lines)
  {
    FlattenPieces(contents);
    KeptArePieces(Pieces(contents), true, lines);
    PiecesFlatten(KeptPieces(Pieces(contents), true, lines));
  }

  lemma {:induction false} KeptConcat(a: seq<string>, b: seq<string>, first: bool, lines: seq<string>)
    ensures KeptPieces(a + b, first, lines) == KeptPieces(a, first, lines) + KeptPieces(b, first && a == [], lines)
  {
    if a == [] {
      assert a + b == b;
    } else {
      assert (a + b)[1..] == a[1..] + b;
      KeptConcat(a[1..], b, false, lines);
    }
  }

  lemma {:induction false} AllRemoved(pieces: seq<string>, first: bool, lines: seq<string>)
    requires forall i | 0 <= i < |pieces| :: Removed(pieces[i], first, lines) && Removed(pieces[i], false, lines)
    ensures KeptPieces(pieces, first, lines) == []
  {
    if pieces != [] {
      AllRemoved(pieces[1..], false, lines);
    }
  }

  /** The lines added read as themselves to the removal, wherever they are. */
  lemma AddedAreRemoved(lines: seq<string>, first: bool)
    requires GoodLines(lines)
    ensures KeptPieces(Terminated(lines), first, lines) == []
  {
    forall i | 0 <= i < |lines|
      ensures Removed(Terminated(lines)[i], first, lines) && Removed(Terminated(lines)[i], false, lines)
    {
      assert GoodLine(lines[i]);
      GoodLineEnd(lines[i]);
      GoodLineReads(lines[i]);
    }
    AllRemoved(Terminated(lines), first, lines);
  }

  lemma {:induction false} KeptAll(pieces: seq<string>, first: bool, lines: seq<string>)
    ensures |KeptPieces(pieces, first, lines)| <= |pieces|
    ensures KeptPieces(pieces, first, lines) == pieces <==>
              forall i | 0 <= i < |pieces| :: !Removed(pieces[i], first && i == 0, lines)
  {
    if pieces != [] {
      KeptAll(pieces[1..], false, lines);
      var rest := KeptPieces(pieces[1..], false, lines);
      if Removed(pieces[0], first, lines) {
        assert |KeptPieces(pieces, first, lines)| < |pieces|;
      } else {
        assert KeptPieces(pieces, first, lines) == [pieces[0]] + rest;
        assert pieces == [pieces[0]] + pieces[1..];
        if rest == pieces[1..] {
          forall i | 0 <= i < |pieces| ensures !Removed(pieces[i], first && i == 0, lines) {
            if i > 0 {
              assert !Removed(pieces[1..][i - 1], false, lines);
            }
          }
        } else {
          var i :| 0 <= i < |pieces[1..]| && Removed(pieces[1..][i], false, lines);
          assert Removed(pieces[i + 1], false, lines);
          assert KeptPieces(pieces, first, lines)[1..] == rest;
        }
      }
    }
  }

  /** Whether a file has a line that reads as one of `lines`. */
  predicate HasAny(contents: string, lines: seq<string>) {
    exists i | 0 <= i < |Pieces(contents)| :: Removed(Pieces(contents)[i], i == 0, lines)
  }

  lemma WithoutNone(contents: string, lines: seq<string>)
    ensures WithoutLines(contents, lines) == contents <==> !HasAny(contents, lines)
  {
    WithoutLinesPieces(contents, lines);
    KeptAll(Pieces(contents), true, lines);
    FlattenPieces(contents);
  }

  /** Ending the last line does not change how the removal reads it. */
  lemma EndedHasAny(contents: string, lines: seq<string>)
    ensures HasAny(Ended(contents), lines) <==> HasAny(contents, lines)
  {
    if !Closed(contents) {
      EndedPieces(contents);
      var pieces := Pieces(contents);
      var n := |pieces| - 1;
      var ended := Pieces(contents + "\n");
      assert (pieces[n] + "\n")[..|pieces[n]|] == pieces[n];
      assert TrimCrLf(pieces[n] + "\n") == TrimCrLf(pieces[n]);
      forall i | 0 <= i <= n
        ensures Removed(ended[i], i == 0, lines) <==> Removed(pieces[i], i == 0, lines)
      {
      }
    }
  }

  /** **Removing what was added.** Taking the added lines out gives the file as
      it was, its last line ended, exactly when none of them was there before. */
  lemma RemovingUndoesAppending(contents: string, lines: seq<string>)
    requires GoodLines(lines)
    ensures WithoutLines(Appended(contents, lines), lines) == Ended(contents) <==> !HasAny(contents, lines)
  {
    AppendedPieces(contents, lines);
    var ended := Pieces(Ended(contents));
    KeptConcat(ended, Terminated(lines), true, lines);
    AddedAreRemoved(lines, ended == []);
    assert KeptPieces(ended, true, lines) + [] == KeptPieces(ended, true, lines);
    assert WithoutLines(Appended(contents, lines), lines) == WithoutLines(Ended(contents), lines);
    WithoutNone(Ended(contents), lines);
    EndedHasAny(contents, lines);
  }

  // ---- Texts that read alike everywhere ----

  /** A text with nothing at its end a parser would trim. */
  predicate Tidy(text: string) {
    && text != "" && !IsWhitespace(text[|text| - 1]) && text[|text| - 1] != '\\'
    && text[0] != '#' && text[0] != BOM
    && forall i | 0 <= i < |text| :: text[i] != '\n'
  }

  predicate AllTidy(lines: seq<string>) {
    forall line <- lines :: Tidy(line)
  }

  lemma TidyIsGood(text: string)
    requires Tidy(text)
    ensures GoodLine(text)
  {
  }

  /** A tidy text is a line's glob exactly when trimming the line gives it. */
  lemma TidyGlobText(line: string, text: string)
    requires Tidy(text)
    ensures GlobText(line) == Some(text) <==> TrimEnd(line) == text
  {
    TrimEndShorter(line);
    if EscapedEnd(line) {
      var shorter := line[..|line| - 1];
      assert TrimEnd(line) == TrimEnd(shorter) == shorter;
    }
  }

  /** A piece trimmed, as the first of a file or a later one. */
  function TextOf(piece: string, first: bool): string {
    TrimEnd(if first then TrimBom(piece) else piece)
  }

  lemma {:induction false} TrimmedReturns(piece: string, first: bool)
    ensures TextOf(TrimCrLf(piece), first) == TextOf(piece, first)
    decreases |piece|
  {
    if piece != "" && (piece[|piece| - 1] == '\n' || piece[|piece| - 1] == '\r') {
      DropLast(piece, first);
      TrimmedReturns(piece[..|piece| - 1], first);
    }
  }

  lemma DropLast(piece: string, first: bool)
    requires piece != "" && IsWhitespace(piece[|piece| - 1])
    ensures TextOf(piece[..|piece| - 1], first) == TextOf(piece, first)
  {
    var body, c := piece[..|piece| - 1], piece[|piece| - 1];
    assert piece == body + [c];
    if first {
      TrimBomSnoc(body, c);
      assert (TrimBom(body) + [c])[..|TrimBom(body)|] == TrimBom(body);
    }
  }

  /** The removal and the parser read a tidy line alike: by trimming. */
  lemma TidyReadings(piece: string, first: bool, text: string)
    requires Tidy(text)
    ensures RemovalReading(piece, first) == Some(text) <==> TextOf(piece, first) == text
    ensures Read(piece, first) == Some(text) <==> TextOf(piece, first) == text
  {
    TrimmedReturns(piece, first);
    TidyGlobText(if first then TrimBom(TrimCrLf(piece)) else TrimCrLf(piece), text);
    TidyGlobText(if first then TrimBom(LineOf(piece)) else LineOf(piece), text);
    if piece != "" && piece[|piece| - 1] == '\n' {
      DropLast(piece, first);
      var body := piece[..|piece| - 1];
      if body != "" && body[|body| - 1] == '\r' {
        DropLast(body, first);
      }
    }
  }

  function TrimmedPieces(pieces: seq<string>, first: bool): (texts: seq<string>)
    ensures |texts| == |pieces|
    ensures forall i | 0 <= i < |pieces| :: texts[i] == TextOf(pieces[i], first && i == 0)
  {
    seq(|pieces|, i requires 0 <= i < |pieces| => TextOf(pieces[i], first && i == 0))
  }

  /** The file's lines, trimmed. */
  function Trimmed(contents: string): seq<string> {
    TrimmedPieces(Pieces(contents), true)
  }

  lemma RemovedByText(piece: string, first: bool, lines: seq<string>)
    requires AllTidy(lines)
    ensures Removed(piece, first, lines) <==> TextOf(piece, first) in lines
  {
    if Removed(piece, first, lines) {
      TidyReadings(piece, first, RemovalReading(piece, first).value);
    }
    if TextOf(piece, first) in lines {
      TidyReadings(piece, first, TextOf(piece, first));
    }
  }

  lemma TidyText(text: string, first: bool)
    requires Tidy(text)
    ensures TextOf(text + "\n", first) == text
  {
    DropLast(text + "\n", first);
    assert (text + "\n")[..|text|] == text;
  }

  lemma EndedTrimmed(contents: string)
    ensures Trimmed(Ended(contents)) == Trimmed(contents)
  {
    if !Closed(contents) {
      EndedPieces(contents);
      EndLastTrimmed(Pieces(contents));
    }
  }

  lemma EndLastTrimmed(pieces: seq<string>)
    requires pieces != []
    ensures TrimmedPieces(EndLast(pieces), true) == TrimmedPieces(pieces, true)
  {
    var n := |pieces| - 1;
    DropLast(pieces[n] + "\n", n == 0);
    assert (pieces[n] + "\n")[..|pieces[n]|] == pieces[n];
    assert EndLast(pieces)[n] == pieces[n] + "\n";
    assert forall i | 0 <= i < n :: EndLast(pieces)[i] == pieces[i];
  }

  lemma AppendedTrimmed(contents: string, lines: seq<string>)
    requires AllTidy(lines)
    ensures Trimmed(Appended(contents, lines)) == Trimmed(contents) + lines
  {
    forall line | line in lines ensures GoodLine(line) {
      TidyIsGood(line);
    }
    AppendedPieces(contents, lines);
    EndedTrimmed(contents);
    var n, after := |Pieces(Ended(contents))|, Pieces(Appended(contents, lines));
    forall i | n <= i < |after| ensures TextOf(after[i], i == 0) == lines[i - n] {
      assert after[i] == lines[i - n] + "\n";
      TidyText(lines[i - n], i == 0);
    }
  }

  // ---- The lines a reader of the whole file sees ----

  function GlobLines(pieces: seq<string>): seq<string> {
    if pieces == [] then []
    else
      var text := GlobText(LineOf(pieces[0]));
      (if text.Some? then [text.value] else []) + GlobLines(pieces[1..])
  }

  /** The lines of a file that make globs. */
  function RuleLines(contents: string): seq<string> {
    GlobLines(Pieces(TrimBom(contents)))
  }

  lemma {:induction false} GlobLinesTrimmed(pieces: seq<string>, text: string)
    requires Tidy(text)
    ensures text in GlobLines(pieces) <==> text in TrimmedPieces(pieces, false)
  {
    if pieces != [] {
      GlobLinesTrimmed(pieces[1..], text);
      TidyReadings(pieces[0], false, text);
      assert TrimmedPieces(pieces, false) == [TextOf(pieces[0], false)] + TrimmedPieces(pieces[1..], false);
    }
  }

  lemma MarkedPieces(rest: string)
    requires rest != ""
    ensures Pieces([BOM] + rest) == [[BOM] + FirstPiece(rest)] + Pieces(rest)[1..]
  {
    var first := FirstPiece(rest);
    var marked := [BOM] + rest;
    assert marked[1..] == rest;
    assert FirstPiece(marked) == [BOM] + first;
    assert marked[|[BOM] + first|..] == rest[|first|..];
  }

  /** A mark at the start changes no line's trimmed text. */
  lemma MarkedAlike(rest: string)
    requires rest != ""
    ensures Trimmed([BOM] + rest) == Trimmed(rest)
  {
    MarkedPieces(rest);
    var first, tail := FirstPiece(rest), Pieces(rest)[1..];
    assert ([BOM] + first)[1..] == first;
    assert Pieces(rest) == [first] + tail;
    TrimmedCons(first, tail, true);
    TrimmedCons([BOM] + first, tail, true);
  }

  lemma TrimmedCons(piece: string, rest: seq<string>, first: bool)
    ensures TrimmedPieces([piece] + rest, first) == [TextOf(piece, first)] + TrimmedPieces(rest, false)
  {
    var all := [piece] + rest;
    assert forall i | 0 < i < |all| :: all[i] == rest[i - 1];
  }

  lemma {:induction false} MarkedTrimmed(contents: string, text: string)
    requires text != ""
    ensures text in Trimmed(contents) <==> text in TrimmedPieces(Pieces(TrimBom(contents)), false)
    decreases |contents|
  {
    if contents == "" {
    } else if contents[0] == BOM {
      var rest := contents[1..];
      assert contents == [BOM] + rest;
      MarkedTrimmed(rest, text);
      if rest == "" {
        LoneMark();
        assert contents == [BOM] && Trimmed(contents) == [""] && TrimBom(contents) == "";
      } else {
        MarkedAlike(rest);
      }
    } else {
      var pieces := Pieces(contents);
      assert pieces[0][0] == contents[0];
      assert Trimmed(contents) == TrimmedPieces(pieces, false);
    }
  }

  lemma LoneMark()
    ensures Trimmed([BOM]) == [""]
  {
    var mark := [BOM];
    assert FirstPiece(mark) == mark && mark[1..] == "" == mark[|mark|..];
    assert Pieces(mark) == [mark] + Pieces("") == [mark];
    assert TextOf(mark, true) == TrimEnd(TrimBom("")) == "";
  }

  lemma RuleLinesTrimmed(contents: string, text: string)
    requires Tidy(text)
    ensures text in RuleLines(contents) <==> text in Trimmed(contents)
  {
    MarkedTrimmed(contents, text);
    GlobLinesTrimmed(Pieces(TrimBom(contents)), text);
  }

  // ---- The built-in rules ----

  const MACOS_RULES: seq<string> := [
    ".*/", ".DS_Store", ".DS_Store?", "._*", ".LSOverride", ".VolumeIcon.icns", "Icon[\r]"]
  const DESKTOP_RULES: seq<string> := [
    "Thumbs.db", "ehthumbs.db", "desktop.ini", "$RECYCLE.BIN/", ".directory", ".nfs*", "~$*"]
  const EDITOR_RULES: seq<string> := [".~lock.*#", ".#*", "\\#*\\#", "*.swp", "*.swo", "*~"]
  const SECRET_RULES: seq<string> := [
    ".env", ".env.*", ".netrc", "*.pem", "*.code-workspace", "__pycache__/", "*.py[cod]", "node_modules/"]
  const DEFAULT_RULES: seq<string> := MACOS_RULES + DESKTOP_RULES + EDITOR_RULES + SECRET_RULES

  function OffLine(rule: string): string {
    "!" + rule
  }

  /** The off lines of the rules in `rules` that `off` leaves on. */
  function OnLines(rules: seq<string>, off: seq<string>): seq<string> {
    if rules == [] then []
    else (if rules[0] in off then [] else [OffLine(rules[0])]) + OnLines(rules[1..], off)
  }

  /** The off lines of the rules in `off` that `lines` does not have. */
  function MissingLines(rules: seq<string>, off: seq<string>, lines: seq<string>): seq<string> {
    if rules == [] then []
    else
      (if rules[0] in off && OffLine(rules[0]) !in lines then [OffLine(rules[0])] else [])
      + MissingLines(rules[1..], off, lines)
  }

  /** What the user-wide file becomes when exactly the rules in `off` are to be off. */
  function SetNext(contents: string, off: seq<string>): string {
    var kept := WithoutLines(contents, OnLines(DEFAULT_RULES, off));
    Appended(kept, MissingLines(DEFAULT_RULES, off, RuleLines(kept)))
  }

  predicate ReadsOff(contents: string, rule: string) {
    OffLine(rule) in RuleLines(contents)
  }

  lemma OffLineIsTidy(rule: string)
    requires rule != "" && !IsWhitespace(rule[|rule| - 1]) && rule[|rule| - 1] != '\\'
    requires '\n' !in rule
    ensures Tidy(OffLine(rule))
  {
  }

  predicate TidyOff(rules: seq<string>) {
    forall i | 0 <= i < |rules| :: Tidy(OffLine(rules[i]))
  }

  lemma MacosRulesAreTidy()
    ensures TidyOff(MACOS_RULES)
  {
    OffLineIsTidy(".*/");
    OffLineIsTidy(".DS_Store");
    OffLineIsTidy(".DS_Store?");
    OffLineIsTidy("._*");
    OffLineIsTidy(".LSOverride");
    OffLineIsTidy(".VolumeIcon.icns");
    OffLineIsTidy("Icon[\r]");
  }

  lemma DesktopRulesAreTidy()
    ensures TidyOff(DESKTOP_RULES)
  {
    OffLineIsTidy("Thumbs.db");
    OffLineIsTidy("ehthumbs.db");
    OffLineIsTidy("desktop.ini");
    OffLineIsTidy("$RECYCLE.BIN/");
    OffLineIsTidy(".directory");
    OffLineIsTidy(".nfs*");
    OffLineIsTidy("~$*");
  }

  lemma EditorRulesAreTidy()
    ensures TidyOff(EDITOR_RULES)
  {
    OffLineIsTidy(".~lock.*#");
    OffLineIsTidy(".#*");
    OffLineIsTidy("\\#*\\#");
    OffLineIsTidy("*.swp");
    OffLineIsTidy("*.swo");
    OffLineIsTidy("*~");
  }

  lemma SecretRulesAreTidy()
    ensures TidyOff(SECRET_RULES)
  {
    OffLineIsTidy(".env");
    OffLineIsTidy(".env.*");
    OffLineIsTidy(".netrc");
    OffLineIsTidy("*.pem");
    OffLineIsTidy("*.code-workspace");
    OffLineIsTidy("__pycache__/");
    OffLineIsTidy("*.py[cod]");
    OffLineIsTidy("node_modules/");
  }

  lemma DefaultRulesAreTidy()
    ensures forall rule <- DEFAULT_RULES :: Tidy(OffLine(rule))
  {
    MacosRulesAreTidy();
    DesktopRulesAreTidy();
    EditorRulesAreTidy();
    SecretRulesAreTidy();
    assert TidyOff(DEFAULT_RULES);
  }

  lemma OffLinesDiffer(a: string, b: string)
    ensures OffLine(a) == OffLine(b) <==> a == b
  {
    assert OffLine(a)[1..] == a && OffLine(b)[1..] == b;
  }

  lemma {:induction false} OnLinesHave(rules: seq<string>, off: seq<string>, rule: string)
    ensures OffLine(rule) in OnLines(rules, off) <==> rule in rules && rule !in off
    ensures forall line <- OnLines(rules, off) :: exists r <- rules :: line == OffLine(r)
  {
    if rules != [] {
      OnLinesHave(rules[1..], off, rule);
      OffLinesDiffer(rules[0], rule);
      assert rules == [rules[0]] + rules[1..];
    }
  }

  lemma {:induction false} MissingLinesHave(rules: seq<string>, off: seq<string>, lines: seq<string>, rule: string)
    ensures OffLine(rule) in MissingLines(rules, off, lines) <==>
              rule in rules && rule in off && OffLine(rule) !in lines
    ensures forall line <- MissingLines(rules, off, lines) :: exists r <- rules :: line == OffLine(r)
  {
    if rules != [] {
      MissingLinesHave(rules[1..], off, lines, rule);
      OffLinesDiffer(rules[0], rule);
      assert rules == [rules[0]] + rules[1..];
    }
  }

  /** All the lines an edit of the built-in rules handles are tidy. */
  lemma EditsAreTidy(off: seq<string>, lines: seq<string>)
    ensures AllTidy(OnLines(DEFAULT_RULES, off)) && AllTidy(MissingLines(DEFAULT_RULES, off, lines))
  {
    DefaultRulesAreTidy();
    OnLinesHave(DEFAULT_RULES, off, "");
    MissingLinesHave(DEFAULT_RULES, off, lines, "");
  }

  /** What stays after a removal reads as no line removed, but perhaps at the
      start of the file, where a mark is dropped. */
  lemma {:induction false} KeptReads(pieces: seq<string>, first: bool, lines: seq<string>)
    requires AllTidy(lines)
    ensures var kept := KeptPieces(pieces, first, lines);
            && (forall j | 0 < j < |kept| :: TextOf(kept[j], false) !in lines)
            && (!first && kept != [] ==> TextOf(kept[0], false) !in lines)
  {
    if pieces != [] {
      KeptReads(pieces[1..], false, lines);
      RemovedByText(pieces[0], first, lines);
    }
  }

  /** A line not taken out still reads as it did. */
  lemma {:induction false} KeptHolds(pieces: seq<string>, first: bool, lines: seq<string>, text: string)
    requires AllTidy(lines) && Tidy(text) && text !in lines && text in TrimmedPieces(pieces, first)
    ensures text in TrimmedPieces(KeptPieces(pieces, first, lines), first)
  {
    var piece, rest := pieces[0], pieces[1..];
    var kept := KeptPieces(rest, false, lines);
    RemovedByText(piece, first, lines);
    assert pieces == [piece] + rest;
    TrimmedCons(piece, rest, first);
    if TextOf(piece, first) == text {
      TrimmedCons(piece, kept, first);
      assert ([text] + TrimmedPieces(kept, false))[0] == text;
    } else {
      KeptHolds(rest, false, lines, text);
      HoldsAfter(if Removed(piece, first, lines) then [] else [piece], kept, first, text);
    }
  }

  lemma HoldsAfter(head: seq<string>, rest: seq<string>, first: bool, text: string)
    requires Tidy(text) && text in TrimmedPieces(rest, false)
    ensures text in TrimmedPieces(head + rest, first)
  {
    var j :| 0 <= j < |rest| && TextOf(rest[j], false) == text;
    UnmarkedReads(rest[j], text);
    assert (head + rest)[|head| + j] == rest[j];
    assert TrimmedPieces(head + rest, first)[|head| + j] == text;
  }

  /** A line that reads as a tidy text starts with no mark. */
  lemma UnmarkedReads(piece: string, text: string)
    requires Tidy(text) && TextOf(piece, false) == text
    ensures TextOf(piece, true) == text
  {
    TrimEndShorter(piece);
  }

  /** Taking lines out uncovers one more of them: the first line to stay starts
      with a byte-order mark, and past the mark it is one that was to go. */
  predicate Uncovers(contents: string, lines: seq<string>) {
    var kept := KeptPieces(Pieces(contents), true, lines);
    kept != [] && TextOf(kept[0], true) in lines
  }

  lemma WithoutReads(contents: string, lines: seq<string>)
    requires AllTidy(lines)
    ensures (exists line <- lines :: line in Trimmed(WithoutLines(contents, lines))) <==> Uncovers(contents, lines)
  {
    WithoutLinesPieces(contents, lines);
    KeptReads(Pieces(contents), true, lines);
    var kept := KeptPieces(Pieces(contents), true, lines);
    if Uncovers(contents, lines) {
      assert Trimmed(WithoutLines(contents, lines))[0] in lines;
    }
  }

  lemma NextReads(contents: string, off: seq<string>, rule: string)
    requires rule in DEFAULT_RULES
    ensures ReadsOff(SetNext(contents, off), rule) <==>
              rule in off || OffLine(rule) in Trimmed(WithoutLines(contents, OnLines(DEFAULT_RULES, off)))
  {
    var kept := WithoutLines(contents, OnLines(DEFAULT_RULES, off));
    var missing := MissingLines(DEFAULT_RULES, off, RuleLines(kept));
    EditsAreTidy(off, RuleLines(kept));
    DefaultRulesAreTidy();
    AppendedTrimmed(kept, missing);
    RuleLinesTrimmed(SetNext(contents, off), OffLine(rule));
    RuleLinesTrimmed(kept, OffLine(rule));
    MissingLinesHave(DEFAULT_RULES, off, RuleLines(kept), rule);
  }

  /** **Set, then read back.** The file turns off exactly the rules asked for,
      if and only if taking lines out uncovers none of them. */
  lemma SetThenRead(contents: string, off: seq<string>)
    ensures (forall rule <- DEFAULT_RULES :: ReadsOff(SetNext(contents, off), rule) <==> rule in off)
            <==> !Uncovers(contents, OnLines(DEFAULT_RULES, off))
  {
    var on := OnLines(DEFAULT_RULES, off);
    EditsAreTidy(off, []);
    WithoutReads(contents, on);
    forall rule | rule in DEFAULT_RULES
      ensures ReadsOff(SetNext(contents, off), rule) <==>
                rule in off || OffLine(rule) in Trimmed(WithoutLines(contents, on))
      ensures OffLine(rule) in on <==> rule !in off
    {
      NextReads(contents, off, rule);
      OnLinesHave(DEFAULT_RULES, off, rule);
    }
    if Uncovers(contents, on) {
      var line :| line in on && line in Trimmed(WithoutLines(contents, on));
      OnLinesHave(DEFAULT_RULES, off, "");
      var rule :| rule in DEFAULT_RULES && line == OffLine(rule);
      assert ReadsOff(SetNext(contents, off), rule) && rule !in off;
    }
  }

  // ---- A second identical call ----

  lemma {:induction false} NothingMissing(rules: seq<string>, off: seq<string>, lines: seq<string>)
    ensures MissingLines(rules, off, lines) == [] <==>
              forall rule <- rules :: rule in off ==> OffLine(rule) in lines
  {
    if rules != [] {
      NothingMissing(rules[1..], off, lines);
      assert rules == [rules[0]] + rules[1..];
    }
  }

  lemma ClosedNext(contents: string, lines: seq<string>)
    requires AllTidy(lines)
    ensures Closed(Appended(contents, lines))
  {
    forall line | line in lines ensures GoodLine(line) {
      TidyIsGood(line);
    }
    AppendedPieces(contents, lines);
    FlattenPieces(Appended(contents, lines));
    var pieces := Pieces(Appended(contents, lines));
    if lines != [] {
      assert pieces[|pieces| - 1] == lines[|lines| - 1] + "\n";
    } else {
      assert Appended(contents, lines) == Ended(contents);
    }
  }

  /** Nothing a second call needs is missing. */
  lemma NextIsComplete(contents: string, off: seq<string>)
    ensures var next := SetNext(contents, off);
            MissingLines(DEFAULT_RULES, off, RuleLines(WithoutLines(next, OnLines(DEFAULT_RULES, off)))) == []
  {
    var next, on := SetNext(contents, off), OnLines(DEFAULT_RULES, off);
    var kept := WithoutLines(next, on);
    forall rule | rule in DEFAULT_RULES && rule in off ensures OffLine(rule) in RuleLines(kept) {
      EditsAreTidy(off, []);
      DefaultRulesAreTidy();
      NextReads(contents, off, rule);
      OnLinesHave(DEFAULT_RULES, off, rule);
      RuleLinesTrimmed(next, OffLine(rule));
      KeptHolds(Pieces(next), true, on, OffLine(rule));
      WithoutLinesPieces(next, on);
      RuleLinesTrimmed(kept, OffLine(rule));
    }
    NothingMissing(DEFAULT_RULES, off, RuleLines(kept));
  }

  /** **Set twice.** The second of two identical calls leaves the file as it is,
      if and only if the first took no cover off a line. */
  lemma SetTwice(contents: string, off: seq<string>)
    ensures SetNext(SetNext(contents, off), off) == SetNext(contents, off)
            <==> !Uncovers(contents, OnLines(DEFAULT_RULES, off))
  {
    var next, on := SetNext(contents, off), OnLines(DEFAULT_RULES, off);
    var first := WithoutLines(contents, on);
    var again := WithoutLines(next, on);
    NextIsComplete(contents, off);
    assert SetNext(next, off) == Ended(again);
    EditsAreTidy(off, RuleLines(first));
    ClosedNext(first, MissingLines(DEFAULT_RULES, off, RuleLines(first)));
    WithoutNone(next, on);
    HasAnyTrimmed(next, on);
    SetThenRead(contents, off);
    if exists line <- on :: line in Trimmed(next) {
      var line :| line in on && line in Trimmed(next);
      OnLinesHave(DEFAULT_RULES, off, "");
      var rule :| rule in DEFAULT_RULES && line == OffLine(rule);
      OnLinesHave(DEFAULT_RULES, off, rule);
      DefaultRulesAreTidy();
      RuleLinesTrimmed(next, line);
      assert ReadsOff(next, rule) && rule !in off;
      FewerPieces(next, on);
    } else {
      forall rule | rule in DEFAULT_RULES ensures ReadsOff(next, rule) <==> rule in off {
        DefaultRulesAreTidy();
        RuleLinesTrimmed(next, OffLine(rule));
        OnLinesHave(DEFAULT_RULES, off, rule);
        NextReads(contents, off, rule);
      }
    }
  }

  lemma HasAnyTrimmed(contents: string, lines: seq<string>)
    requires AllTidy(lines)
    ensures HasAny(contents, lines) <==> exists line <- lines :: line in Trimmed(contents)
  {
    var pieces := Pieces(contents);
    forall i | 0 <= i < |pieces|
      ensures Removed(pieces[i], i == 0, lines) <==> Trimmed(contents)[i] in lines
    {
      RemovedByText(pieces[i], i == 0, lines);
    }
  }

  /** Taking a line out and ending the last does not give the file back. */
  lemma FewerPieces(contents: string, lines: seq<string>)
    requires HasAny(contents, lines)
    ensures Ended(WithoutLines(contents, lines)) != contents
  {
    var kept := WithoutLines(contents, lines);
    WithoutLinesPieces(contents, lines);
    KeptAll(Pieces(contents), true, lines);
    KeptShorter(Pieces(contents), true, lines);
    if !Closed(kept) {
      EndedPieces(kept);
    }
  }

  lemma {:induction false} KeptShorter(pieces: seq<string>, first: bool, lines: seq<string>)
    ensures |KeptPieces(pieces, first, lines)| == |pieces| ==> KeptPieces(pieces, first, lines) == pieces
    ensures |KeptPieces(pieces, first, lines)| <= |pieces|
  {
    if pieces != [] {
      KeptShorter(pieces[1..], false, lines);
    }
  }

  // ---- Files whose only byte-order mark starts them ----

  predicate NoInnerMark(contents: string) {
    Pieces(contents) == [] || Unmarked(Pieces(contents)[1..])
  }

  /** Pieces after the first, none of them marked, read alike in any place. */
  predicate Unmarked(pieces: seq<string>) {
    forall i | 0 <= i < |pieces| :: pieces[i] != "" && pieces[i][0] != BOM
  }

  lemma {:induction false} UnmarkedKept(pieces: seq<string>, lines: seq<string>)
    requires Unmarked(pieces)
    ensures Unmarked(KeptPieces(pieces, false, lines))
    ensures KeptPieces(pieces, true, lines) == KeptPieces(pieces, false, lines)
  {
    if pieces != [] {
      UnmarkedKept(pieces[1..], lines);
      UnmarkedAlike(pieces[0]);
    }
  }

  lemma UnmarkedAlike(piece: string)
    requires piece != "" && piece[0] != BOM
    ensures RemovalReading(piece, true) == RemovalReading(piece, false) && TextOf(piece, true) == TextOf(piece, false)
  {
    TrimCrLfPrefix(piece);
  }

  lemma TrimCrLfPrefix(s: string)
    ensures |TrimCrLf(s)| <= |s| && TrimCrLf(s) == s[..|TrimCrLf(s)|]
  {
  }

  /** With no inner mark the two theorems above hold of every edit. */
  lemma NoInnerMarkUncovers(contents: string, lines: seq<string>)
    requires AllTidy(lines) && NoInnerMark(contents)
    ensures !Uncovers(contents, lines)
  {
    var pieces := Pieces(contents);
    if pieces != [] {
      var rest := pieces[1..];
      RemovedByText(pieces[0], true, lines);
      UnmarkedKept(rest, lines);
      KeptReads(rest, false, lines);
      var kept := KeptPieces(rest, false, lines);
      if kept != [] {
        UnmarkedAlike(kept[0]);
      }
    }
  }

  /** One removal after another that takes more is the other alone. */
  lemma {:induction false} KeptKept(pieces: seq<string>, few: seq<string>, all: seq<string>)
    requires Unmarked(pieces) && forall line <- few :: line in all
    ensures KeptPieces(KeptPieces(pieces, false, few), false, all) == KeptPieces(pieces, false, all)
  {
    if pieces != [] {
      KeptKept(pieces[1..], few, all);
      var rest := KeptPieces(pieces[1..], false, few);
      assert ([pieces[0]] + rest)[1..] == rest;
    }
  }

  lemma WithoutMore(contents: string, few: seq<string>, all: seq<string>)
    requires NoInnerMark(contents) && forall line <- few :: line in all
    ensures WithoutLines(WithoutLines(contents, few), all) == WithoutLines(contents, all)
  {
    WithoutLinesPieces(contents, few);
    var pieces := Pieces(contents);
    if pieces != [] {
      var rest := pieces[1..];
      KeptKept(rest, few, all);
      UnmarkedKept(rest, few);
      UnmarkedKept(KeptPieces(rest, false, few), all);
      UnmarkedKept(rest, all);
    }
  }

  predicate AllClosed(pieces: seq<string>) {
    forall i | 0 <= i < |pieces| :: Closed(pieces[i])
  }

  /** Ending the last line and taking lines out can go in either order. */
  lemma WithoutEnded(contents: string, lines: seq<string>)
    ensures WithoutLines(Ended(contents), lines) == Ended(WithoutLines(contents, lines))
  {
    FlattenPieces(contents);
    var pieces := Pieces(contents);
    if Closed(contents) {
      KeptClosed(pieces, true, lines);
    } else {
      EndedPieces(contents);
      var n := |pieces| - 1;
      assert pieces == pieces[..n] + [pieces[n]];
      KeptEndedLast(pieces[..n], pieces[n], lines);
    }
  }

  lemma RemovedEnded(piece: string, first: bool, lines: seq<string>)
    ensures Removed(piece + "\n", first, lines) <==> Removed(piece, first, lines)
  {
    assert (piece + "\n")[..|piece|] == piece;
    assert TrimCrLf(piece + "\n") == TrimCrLf(piece);
  }

  lemma KeptSnoc(before: seq<string>, last: string, lines: seq<string>)
    ensures var kept := KeptPieces(before, true, lines);
            Flatten(KeptPieces(before + [last], true, lines)) ==
            if Removed(last, before == [], lines) then Flatten(kept) else Flatten(kept) + last
  {
    var kept := KeptPieces(before, true, lines);
    KeptConcat(before, [last], true, lines);
    if Removed(last, before == [], lines) {
      assert kept + [] == kept;
    } else {
      assert KeptPieces([last], before == [], lines) == [last] + [] == [last];
      FlattenConcat(kept, [last]);
      assert Flatten([last]) == last;
    }
  }

  lemma KeptEndedLast(before: seq<string>, last: string, lines: seq<string>)
    requires AllClosed(before) && !Closed(last)
    ensures Flatten(KeptPieces(before + [last + "\n"], true, lines))
            == Ended(Flatten(KeptPieces(before + [last], true, lines)))
  {
    KeptSnoc(before, last, lines);
    KeptSnoc(before, last + "\n", lines);
    RemovedEnded(last, before == [], lines);
    KeptClosed(before, true, lines);
    EndsOpen(Flatten(KeptPieces(before, true, lines)), last);
  }

  lemma ClosedAfter(piece: string, rest: string)
    requires Closed(piece) && Closed(rest)
    ensures Closed(piece + rest)
  {
    if rest == "" {
      assert piece + rest == piece;
    }
  }

  lemma EndsOpen(text: string, last: string)
    requires !Closed(last)
    ensures Ended(text + last) == text + (last + "\n")
  {
    assert (text + last)[|text + last| - 1] == last[|last| - 1];
    assert text + last + "\n" == text + (last + "\n");
  }

  lemma {:induction false} KeptClosed(pieces: seq<string>, first: bool, lines: seq<string>)
    requires AllClosed(pieces)
    ensures Closed(Flatten(KeptPieces(pieces, first, lines)))
  {
    if pieces != [] {
      KeptClosed(pieces[1..], false, lines);
      var rest := Flatten(KeptPieces(pieces[1..], false, lines));
      if !Removed(pieces[0], first, lines) {
        assert KeptPieces(pieces, first, lines)[1..] == KeptPieces(pieces[1..], false, lines);
        ClosedAfter(pieces[0], rest);
      }
    }
  }

  lemma AddedGone(contents: string, lines: seq<string>, all: seq<string>)
    requires AllTidy(lines) && forall line <- lines :: line in all
    ensures WithoutLines(Appended(contents, lines), all) == WithoutLines(Ended(contents), all)
  {
    forall line | line in lines ensures GoodLine(line) {
      TidyIsGood(line);
    }
    AppendedPieces(contents, lines);
    var ended := Pieces(Ended(contents));
    KeptConcat(ended, Terminated(lines), true, all);
    forall i | 0 <= i < |lines|
      ensures Removed(Terminated(lines)[i], ended == [], all) && Removed(Terminated(lines)[i], false, all)
    {
      TidyText(lines[i], ended == []);
      TidyText(lines[i], false);
      TidyReadings(lines[i] + "\n", ended == [], lines[i]);
      TidyReadings(lines[i] + "\n", false, lines[i]);
    }
    AllRemoved(Terminated(lines), ended == [], all);
    assert KeptPieces(ended, true, all) + [] == KeptPieces(ended, true, all);
  }

  /** **Every other line stays.** Without the built-in rules' own lines the file
      is after the edit what it was before, its last line ended. */
  lemma SetKeepsTheRest(contents: string, off: seq<string>)
    requires NoInnerMark(contents)
    ensures var all := OnLines(DEFAULT_RULES, []);
            WithoutLines(SetNext(contents, off), all) == Ended(WithoutLines(contents, all))
  {
    var on, all := OnLines(DEFAULT_RULES, off), OnLines(DEFAULT_RULES, []);
    var kept := WithoutLines(contents, on);
    var missing := MissingLines(DEFAULT_RULES, off, RuleLines(kept));
    EditsAreTidy(off, RuleLines(kept));
    OnLinesHave(DEFAULT_RULES, off, "");
    MissingLinesHave(DEFAULT_RULES, off, RuleLines(kept), "");
    forall line | line in on || line in missing ensures line in all {
      var rule :| rule in DEFAULT_RULES && line == OffLine(rule);
      OnLinesHave(DEFAULT_RULES, [], rule);
    }
    AddedGone(kept, missing, all);
    WithoutEnded(kept, all);
    WithoutMore(contents, on, all);
  }

  // ---- Where it fails ----

  const ENV_OFF := "!.env\n"

  /** A file whose second line starts with a mark: after every rule is set on,
      `.env` still reads off. */
  lemma MarkUncovered()
    ensures ReadsOff(SetNext(ENV_OFF + [BOM] + ENV_OFF, []), ".env")
  {
    var contents, marked := ENV_OFF + [BOM] + ENV_OFF, [BOM] + ENV_OFF;
    var on := OnLines(DEFAULT_RULES, []);
    EnvPieces();
    EnvIsARule();
    OnLinesHave(DEFAULT_RULES, [], ".env");
    EditsAreTidy([], []);
    EnvReads();
    RemovedByText(ENV_OFF, true, on);
    MarkedReads(marked, on);
    assert [ENV_OFF, marked][1..] == [marked];
    assert KeptPieces([ENV_OFF, marked], true, on) == [marked];
    WithoutLinesPieces(contents, on);
    NextReads(contents, [], ".env");
    assert Trimmed(WithoutLines(contents, on))[0] == OffLine(".env");
  }

  lemma EnvPieces()
    ensures Pieces(ENV_OFF + [BOM] + ENV_OFF) == [ENV_OFF, [BOM] + ENV_OFF]
  {
    var marked := [BOM] + ENV_OFF;
    var pieces := [ENV_OFF, marked];
    assert pieces[1..] == [marked] && [marked][1..] == [];
    assert Flatten([marked]) == marked + "" == marked;
    assert Flatten(pieces) == ENV_OFF + marked == ENV_OFF + [BOM] + ENV_OFF;
    PiecesFlatten(pieces);
  }

  lemma EnvReads()
    ensures TextOf(ENV_OFF, true) == TextOf([BOM] + ENV_OFF, true) == OffLine(".env") && Tidy(OffLine(".env"))
  {
    OffLineIsTidy(".env");
    TidyText(OffLine(".env"), true);
    assert OffLine(".env") + "\n" == ENV_OFF;
    assert ([BOM] + ENV_OFF)[1..] == ENV_OFF;
  }

  lemma MarkedReads(piece: string, lines: seq<string>)
    requires AllTidy(lines) && |piece| > 1 && piece[0] == BOM && !IsWhitespace(piece[1])
    ensures KeptPieces([piece], false, lines) == [piece]
  {
    RemovedByText(piece, false, lines);
    MarkStays(piece);
    assert [piece][1..] == [];
  }

  lemma MarkStays(piece: string)
    requires |piece| > 1 && piece[0] == BOM && !IsWhitespace(piece[1])
    ensures TrimEnd(piece) != "" && TrimEnd(piece)[0] == BOM
    decreases |piece|
  {
    if IsWhitespace(piece[|piece| - 1]) {
      MarkStays(piece[..|piece| - 1]);
    }
  }

  lemma EnvIsARule()
    ensures ".env" in DEFAULT_RULES
  {
    assert SECRET_RULES[0] == ".env";
  }

  // ---- The files ----

  datatype Fault = NoFault | AtFolder | AtOpen | AtWrite

  datatype Edit = Done | Failed | Unreadable | NotARule(rule: string)

  function TextBefore(contents: Option<string>): string {
    if contents.Some? then contents.value else ""
  }

  /** One rules file, and how many times it was replaced. */
  class OnDisk {
    var contents: Option<string>
    var replaced: nat

    constructor (contents: Option<string>)
      ensures this.contents == contents && replaced == 0
    {
      this.contents := contents;
      replaced := 0;
    }

    /** Adds `lines` to the end: the file then holds what `Appended` previews. */
    method AppendLines(lines: seq<string>, fault: Fault) returns (r: Edit)
      modifies this`contents
      ensures r == if fault.NoFault? then Done else Failed
      ensures contents == match fault
                          case NoFault => Some(Appended(TextBefore(old(contents)), lines))
                          case AtWrite => Some(TextBefore(old(contents)))
                          case _ => old(contents)
    {
      if fault.AtFolder? {
        return Failed;
      }
      var needsNewline := contents.Some? && contents.value != "" && contents.value[|contents.value| - 1] != '\n';
      if fault.AtOpen? {
        return Failed;
      }
      if contents.None? {
        contents := Some("");
      }
      if fault.AtWrite? {
        return Failed;
      }
      var text := JoinLines(lines);
      if needsNewline {
        text := "\n" + text;
        assert contents.value + text == contents.value + "\n" + Flatten(Terminated(lines));
      }
      contents := Some(contents.value + text);
      return Done;
    }

    /** Takes the lines that read as one of `lines` out, if there are any. */
    method RemoveLines(lines: seq<string>, readable: bool, writeOk: bool) returns (r: Edit)
      modifies this
      ensures old(contents).None? ==> r == Done
      ensures old(contents).Some? && !readable ==> r == Unreadable
      ensures old(contents).Some? && readable ==>
                r == if writeOk || !HasAny(old(contents).value, lines) then Done else Failed
      ensures r == Done && old(contents).Some? ==> contents == Some(WithoutLines(old(contents).value, lines))
      ensures r != Done || old(contents).None? ==> contents == old(contents)
      ensures replaced == old(replaced) + if contents == old(contents) then 0 else 1
    {
      if contents.None? {
        return Done;
      }
      if !readable {
        return Unreadable;
      }
      var kept := WithoutLines(contents.value, lines);
      WithoutNone(contents.value, lines);
      if kept == contents.value {
        return Done;
      }
      if !writeOk {
        return Failed;
      }
      contents, replaced := Some(kept), replaced + 1;
      return Done;
    }

    /** Turns off exactly the built-in rules in `off`, replacing the file at most
        once; a failure leaves it as it was. */
    method SetDefaultRules(off: seq<string>, readable: bool, writeOk: bool) returns (r: Edit)
      modifies this
      ensures r.NotARule? <==> exists rule <- off :: rule !in DEFAULT_RULES
      ensures r.NotARule? ==> r.rule in off && r.rule !in DEFAULT_RULES
      ensures r == Unreadable ==> old(contents).Some? && !readable
      ensures r == Done ==> TextBefore(contents) == SetNext(TextBefore(old(contents)), off)
      ensures r == Failed ==> !writeOk && SetNext(TextBefore(old(contents)), off) != TextBefore(old(contents))
      ensures r != Done ==> contents == old(contents)
      ensures replaced == old(replaced) + if contents == old(contents) then 0 else 1
    {
      var unknown := FindUnknown(DEFAULT_RULES, off);
      if unknown.Some? {
        return NotARule(unknown.value);
      }
      if contents.Some? && !readable {
        return Unreadable;
      }
      var next := SetNext(TextBefore(contents), off);
      if contents == Some(next) || (contents.None? && next == "") {
        return Done;
      }
      if !writeOk {
        return Failed;
      }
      contents, replaced := Some(next), replaced + 1;
      return Done;
    }
  }

  /** The first of `off` that is none of `rules`. */
  method FindUnknown(rules: seq<string>, off: seq<string>) returns (unknown: Option<string>)
    ensures unknown.Some? ==>
              exists i :: 0 <= i < |off| && off[i] == unknown.value && off[i] !in rules
                          && forall j | 0 <= j < i :: off[j] in rules
    ensures unknown.None? ==> forall rule <- off :: rule in rules
  {
    var i := 0;
    while i < |off|
      invariant 0 <= i <= |off|
      invariant forall j | 0 <= j < i :: off[j] in rules
    {
      if off[i] !in rules {
        return Some(off[i]);
      }
      i := i + 1;
    }
    return None;
  }

  /** `lines`, each with its break, in one text. */
  method JoinLines(lines: seq<string>) returns (text: string)
    ensures text == Appended("", lines) == Flatten(Terminated(lines))
  {
    text := "";
    var i := 0;
    while i < |lines|
      invariant 0 <= i <= |lines|
      invariant text == Flatten(Terminated(lines[..i]))
    {
      FlattenConcat(Terminated(lines[..i]), [lines[i] + "\n"]);
      assert Terminated(lines[..i + 1]) == Terminated(lines[..i]) + [lines[i] + "\n"];
      assert Flatten([lines[i] + "\n"]) == lines[i] + "\n";
      text := text + lines[i] + "\n";
      i := i + 1;
    }
    assert lines[..i] == lines;
  }
}
