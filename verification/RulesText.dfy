/** The text of a rules file: its lines, which of them make a glob, and the
    edits that add lines to the end or take lines out. */
module RulesText {
  import opened Wrappers

  /** Unicode `White_Space`. */
  predicate IsWhitespace(c: char) {
    var n := c as int;
    || 0x9 <= n <= 0xD || n == 0x20 || n == 0x85 || n == 0xA0 || n == 0x1680
    || 0x2000 <= n <= 0x200A || n == 0x2028 || n == 0x2029 || n == 0x202F || n == 0x205F || n == 0x3000
  }

  const BOM: char := '\U{FEFF}'

  function TrimEnd(s: string): string {
    if s != "" && IsWhitespace(s[|s| - 1]) then TrimEnd(s[..|s| - 1]) else s
  }

  function TrimCrLf(s: string): string {
    if s != "" && (s[|s| - 1] == '\n' || s[|s| - 1] == '\r') then TrimCrLf(s[..|s| - 1]) else s
  }

  function TrimBom(s: string): string {
    if s != "" && s[0] == BOM then TrimBom(s[1..]) else s
  }

  /** Ends with an escaped space, which trimming leaves alone. */
  predicate EscapedEnd(s: string) {
    |s| >= 2 && s[|s| - 2] == '\\' && s[|s| - 1] == ' '
  }

  /** The text a line's glob keeps, if the line makes one. */
  function GlobText(line: string): Option<string> {
    if line != "" && line[0] == '#' then None
    else
      var text := if EscapedEnd(line) then line else TrimEnd(line);
      if text == "" then None else Some(text)
  }

  /** The start of `text` up to and with its first line break. */
  function FirstPiece(text: string): (piece: string)
    requires text != ""
    ensures piece != "" && |piece| <= |text| && piece == text[..|piece|]
    ensures IsPiece(piece)
    ensures |piece| < |text| ==> piece[|piece| - 1] == '\n'
  {
    if text[0] == '\n' || |text| == 1 then text[..1] else [text[0]] + FirstPiece(text[1..])
  }

  /** A line with its break, or the last one without. */
  predicate IsPiece(piece: string) {
    piece != "" && forall i | 0 <= i < |piece| - 1 :: piece[i] != '\n'
  }

  function Pieces(text: string): (pieces: seq<string>)
  {
    if text == "" then []
    else [FirstPiece(text)] + Pieces(text[|FirstPiece(text)|..])
  }

  function Flatten(pieces: seq<string>): string {
    if pieces == [] then "" else pieces[0] + Flatten(pieces[1..])
  }

  /** Pieces that are a text's: a break ends each but perhaps the last. */
  predicate ArePieces(pieces: seq<string>) {
    && (forall i | 0 <= i < |pieces| :: IsPiece(pieces[i]))
    && (forall i | 0 <= i < |pieces| - 1 :: pieces[i][|pieces[i]| - 1] == '\n')
  }

  /** Whether a new line may start at the end of `text`. */
  predicate Closed(text: string) {
    text == "" || text[|text| - 1] == '\n'
  }

  lemma FirstPieceOf(piece: string, rest: string)
    requires IsPiece(piece) && (piece[|piece| - 1] == '\n' || rest == "")
    ensures FirstPiece(piece + rest) == piece
  {
    if |piece| > 1 {
      assert (piece + rest)[1..] == piece[1..] + rest;
      FirstPieceOf(piece[1..], rest);
    } else {
      assert (piece + rest)[..1] == piece;
    }
  }

  lemma PieceThenPieces(piece: string, rest: seq<string>)
    requires IsPiece(piece) && ArePieces(rest) && (rest != [] ==> piece[|piece| - 1] == '\n')
    ensures ArePieces([piece] + rest)
  {
    var all := [piece] + rest;
    assert forall i | 0 < i < |all| :: all[i] == rest[i - 1];
  }

  /** Splitting a text and joining its pieces gives the text. */
  lemma {:induction false} FlattenPieces(text: string)
    ensures Flatten(Pieces(text)) == text && ArePieces(Pieces(text))
    ensures Pieces(text) != [] ==> (Closed(text) <==> Closed(Pieces(text)[|Pieces(text)| - 1]))
  {
    if text != "" {
      var first := FirstPiece(text);
      var rest := text[|first|..];
      FlattenPieces(rest);
      assert text == first + rest;
      PieceThenPieces(first, Pieces(rest));
    }
    PiecesClosed(text);
  }

  lemma {:induction false} PiecesClosed(text: string)
    ensures Pieces(text) != [] ==> (Closed(text) <==> Closed(Pieces(text)[|Pieces(text)| - 1]))
  {
    if text != "" {
      var first := FirstPiece(text);
      var rest := text[|first|..];
      PiecesClosed(rest);
      assert text == first + rest;
      LastPiece(first, rest, Pieces(rest));
    }
  }

  lemma LastPiece(first: string, rest: string, pieces: seq<string>)
    requires first != "" && (pieces == [] <==> rest == "")
    requires pieces != [] ==> (Closed(rest) <==> Closed(pieces[|pieces| - 1]))
    ensures var all := [first] + pieces;
            Closed(first + rest) <==> Closed(all[|all| - 1])
  {
    if rest == "" {
      assert first + rest == first;
    } else {
      assert (first + rest)[|first + rest| - 1] == rest[|rest| - 1];
    }
  }

  /** Joining pieces and splitting gives the pieces. */
  lemma {:induction false} PiecesFlatten(pieces: seq<string>)
    requires ArePieces(pieces)
    ensures Pieces(Flatten(pieces)) == pieces
  {
    if pieces != [] {
      PiecesFlatten(pieces[1..]);
      var rest := Flatten(pieces[1..]);
      if |pieces| == 1 {
        assert rest == "";
      }
      FirstPieceOf(pieces[0], rest);
      assert (pieces[0] + rest)[|pieces[0]|..] == rest;
    }
  }

  lemma Assoc<T>(a: seq<T>, b: seq<T>, c: seq<T>)
    ensures a + b + c == a + (b + c)
  {
  }

  lemma {:induction false} FlattenConcat(a: seq<string>, b: seq<string>)
    ensures Flatten(a + b) == Flatten(a) + Flatten(b)
  {
    if a == [] {
      assert a + b == b;
      assert Flatten(b) == "" + Flatten(b);
    } else {
      FlattenConcat(a[1..], b);
      assert (a + b)[1..] == a[1..] + b;
      Assoc(a[0], Flatten(a[1..]), Flatten(b));
    }
  }

  lemma {:induction false} PiecesConcat(a: string, b: string)
    requires Closed(a)
    ensures Pieces(a + b) == Pieces(a) + Pieces(b)
    decreases |a|
  {
    if a == "" {
      assert a + b == b;
    } else {
      var first := FirstPiece(a);
      var rest := a[|first|..];
      assert a + b == first + (rest + b);
      FirstPieceOf(first, rest + b);
      assert (a + b)[|first|..] == rest + b;
      PiecesConcat(rest, b);
    }
  }

  // ---- Adding lines ----

  /** `lines`, each on a line of its own. */
  function Terminated(lines: seq<string>): seq<string> {
    seq(|lines|, i requires 0 <= i < |lines| => lines[i] + "\n")
  }

  function Ended(contents: string): string {
    if Closed(contents) then contents else contents + "\n"
  }

  /** `contents` with `lines` after it. */
  function Appended(contents: string, lines: seq<string>): string {
    Ended(contents) + Flatten(Terminated(lines))
  }

  /** What a line must be to be found again as it was written. */
  predicate GoodLine(line: string) {
    && GlobText(line) == Some(line)
    && (forall i | 0 <= i < |line| :: line[i] != '\n')
    && line[0] != BOM
  }

  predicate GoodLines(lines: seq<string>) {
    forall line <- lines :: GoodLine(line)
  }

  lemma GoodLineEnd(line: string)
    requires GoodLine(line)
    ensures line != "" && line[|line| - 1] != '\r' && line[|line| - 1] != '\n'
    ensures TrimCrLf(line + "\n") == line
  {
    TrimEndShorter(line);
    assert (line + "\n")[..|line|] == line;
  }

  lemma TrimEndShorter(s: string)
    ensures |TrimEnd(s)| <= |s| && TrimEnd(s) == s[..|TrimEnd(s)|]
    ensures s != "" && IsWhitespace(s[|s| - 1]) ==> |TrimEnd(s)| < |s|
    ensures TrimEnd(s) != "" ==> !IsWhitespace(TrimEnd(s)[|TrimEnd(s)| - 1])
  {
  }

  lemma {:induction false} TrimEndMeans(s: string)
    ensures TrimEnd(s) <= s && forall i | |TrimEnd(s)| <= i < |s| :: IsWhitespace(s[i])
    ensures TrimEnd(s) != "" ==> !IsWhitespace(TrimEnd(s)[|TrimEnd(s)| - 1])
  {
    if s != "" && IsWhitespace(s[|s| - 1]) {
      TrimEndMeans(s[..|s| - 1]);
    }
  }

  /** **Which lines are rules, and what is kept of them**: no comment and nothing
      blank; the line less its white space at the end, unless it ends in an
      escaped space. */
  lemma GlobTextMeans(line: string, text: string)
    ensures GlobText(line) == Some(text) <==>
              && text != "" && !("#" <= line) && text <= line
              && if EscapedEnd(line) then text == line
                 else !IsWhitespace(text[|text| - 1]) && forall i | |text| <= i < |line| :: IsWhitespace(line[i])
  {
    TrimEndMeans(line);
    if text != "" && text <= line && !EscapedEnd(line) {
      TrimmedIs(line, TrimEnd(line), text);
    }
  }

  /** Only one start of a line ends where the white space begins. */
  lemma TrimmedIs(line: string, trimmed: string, text: string)
    requires trimmed <= line && text <= line && text != ""
    requires forall i | |trimmed| <= i < |line| :: IsWhitespace(line[i])
    requires trimmed != "" ==> !IsWhitespace(trimmed[|trimmed| - 1])
    ensures text == trimmed <==>
            !IsWhitespace(text[|text| - 1]) && forall i | |text| <= i < |line| :: IsWhitespace(line[i])
  {
    assert text == line[..|text|] && trimmed == line[..|trimmed|];
    if |text| < |trimmed| {
      assert line[|trimmed| - 1] == trimmed[|trimmed| - 1];
    } else if |text| > |trimmed| {
      assert line[|text| - 1] == text[|text| - 1];
    }
  }

  /** A line read without its break, a return before it included. */
  lemma LineOfMeans(line: string)
    requires forall i | 0 <= i < |line| :: line[i] != '\n'
    ensures LineOf(line) == line && LineOf(line + "\r\n") == line
    ensures !(line != "" && line[|line| - 1] == '\r') ==> LineOf(line + "\n") == line
  {
    assert (line + "\n")[..|line|] == line;
    assert (line + "\r\n")[..|line| + 1] == line + "\r";
    assert (line + "\r")[..|line|] == line;
  }

  lemma TerminatedPieces(lines: seq<string>)
    requires GoodLines(lines)
    ensures Pieces(Flatten(Terminated(lines))) == Terminated(lines)
  {
    forall i | 0 <= i < |lines| ensures IsPiece(Terminated(lines)[i]) {
      assert GoodLine(lines[i]);
    }
    PiecesFlatten(Terminated(lines));
  }

  lemma AppendedPieces(contents: string, lines: seq<string>)
    requires GoodLines(lines)
    ensures Pieces(Appended(contents, lines)) == Pieces(Ended(contents)) + Terminated(lines)
  {
    TerminatedPieces(lines);
    PiecesConcat(Ended(contents), Flatten(Terminated(lines)));
  }

  /** Pieces with a break after the last of them. */
  function EndLast(pieces: seq<string>): seq<string>
    requires pieces != []
  {
    pieces[..|pieces| - 1] + [pieces[|pieces| - 1] + "\n"]
  }

  lemma EndLastCons(piece: string, rest: seq<string>)
    requires rest != []
    ensures EndLast([piece] + rest) == [piece] + EndLast(rest)
  {
  }

  lemma PiecesCons(piece: string, rest: string)
    requires IsPiece(piece) && (piece[|piece| - 1] == '\n' || rest == "")
    ensures Pieces(piece + rest) == [piece] + Pieces(rest)
  {
    FirstPieceOf(piece, rest);
    assert (piece + rest)[|piece|..] == rest;
  }

  /** Ending the last line changes no other. */
  lemma {:induction false} EndedPieces(contents: string)
    requires !Closed(contents)
    ensures var pieces := Pieces(contents);
            && pieces != []
            && IsPiece(pieces[|pieces| - 1]) && !Closed(pieces[|pieces| - 1])
            && Pieces(contents + "\n") == EndLast(pieces)
    decreases |contents|
  {
    var first := FirstPiece(contents);
    var rest := contents[|first|..];
    assert contents == first + rest;
    if rest == "" {
      assert first == contents;
      PiecesCons(first + "\n", "");
      assert first + "\n" + "" == contents + "\n";
      assert Pieces(contents) == [first] + Pieces("") == [first];
    } else {
      EndedPieces(rest);
      Assoc(first, rest, "\n");
      PiecesCons(first, rest + "\n");
      EndLastCons(first, Pieces(rest));
    }
  }

  // ---- The lines as the parser reads them ----

  /** A piece without its break, as `str::lines` gives it. */
  function LineOf(piece: string): string {
    if piece == "" || piece[|piece| - 1] != '\n' then piece
    else
      var body := piece[..|piece| - 1];
      if body != "" && body[|body| - 1] == '\r' then body[..|body| - 1] else body
  }

  /** The texts of a file's lines, in order; a byte-order mark may start the file. */
  function Texts(contents: string): seq<Option<string>> {
    var pieces := Pieces(contents);
    seq(|pieces|, i requires 0 <= i < |pieces| =>
      Read(pieces[i], i == 0))
  }

  /** How one piece reads, by its place in the file. */
  function Read(piece: string, first: bool): Option<string> {
    GlobText(if first then TrimBom(LineOf(piece)) else LineOf(piece))
  }

  lemma GoodLineReads(line: string)
    requires GoodLine(line)
    ensures LineOf(line + "\n") == line && TrimBom(line) == line
  {
    GoodLineEnd(line);
    assert (line + "\n")[..|line|] == line;
  }

  /** An unfinished line, not a comment, that ends with an escaped space and a
      bare carriage return: a break after it makes the return part of the break. */
  predicate HoldsReturn(piece: string, first: bool) {
    && (piece != "" && piece[|piece| - 1] == '\r' && EscapedEnd(piece[..|piece| - 1]))
    && var line := if first then TrimBom(piece) else piece;
       line != "" && line[0] != '#'
  }

  /** Ending a line with a break leaves its text alone, but for that one line. */
  lemma EndedReads(piece: string, first: bool)
    requires IsPiece(piece) && piece[|piece| - 1] != '\n'
    ensures Read(piece + "\n", first) == Read(piece, first) <==> !HoldsReturn(piece, first)
  {
    assert (piece + "\n")[..|piece|] == piece;
    if piece[|piece| - 1] == '\r' {
      var body := piece[..|piece| - 1];
      assert LineOf(piece + "\n") == body && LineOf(piece) == piece == body + "\r";
      TrimBomSnoc(body, '\r');
      TrimBomEnd(body);
      ReturnReads(if first then TrimBom(body) else body);
    }
  }

  lemma TrimBomSnoc(s: string, c: char)
    requires c != BOM
    ensures TrimBom(s + [c]) == TrimBom(s) + [c]
  {
    if s != "" && s[0] == BOM {
      assert (s + [c])[1..] == s[1..] + [c];
      TrimBomSnoc(s[1..], c);
    } else if s != "" {
      assert (s + [c])[0] == s[0];
    }
  }

  lemma TrimBomEnd(s: string)
    ensures EscapedEnd(TrimBom(s)) <==> EscapedEnd(s)
  {
  }

  /** A trailing return counts for a line's text only after an escaped space. */
  lemma ReturnReads(body: string)
    ensures GlobText(body + "\r") == GlobText(body) <==> !(EscapedEnd(body) && body[0] != '#')
  {
    var line := body + "\r";
    assert line[..|line| - 1] == body;
    assert TrimEnd(line) == TrimEnd(body);
    if body != "" {
      TrimEndShorter(body);
    }
  }

  function AllSome(lines: seq<string>): (texts: seq<Option<string>>)
    ensures |texts| == |lines| && forall i | 0 <= i < |lines| :: texts[i] == Some(lines[i])
  {
    seq(|lines|, i requires 0 <= i < |lines| => Some(lines[i]))
  }

  /** The last line of a file that does not end with a break holds a return. */
  predicate LastHoldsReturn(contents: string) {
    var pieces := Pieces(contents);
    !Closed(contents) && pieces != [] && HoldsReturn(pieces[|pieces| - 1], |pieces| == 1)
  }

  lemma EndedTexts(contents: string)
    ensures |Texts(Ended(contents))| == |Texts(contents)|
    ensures Texts(Ended(contents)) == Texts(contents) <==> !LastHoldsReturn(contents)
  {
    if !Closed(contents) {
      EndedPieces(contents);
      var pieces := Pieces(contents);
      var n := |pieces| - 1;
      EndedReads(pieces[n], n == 0);
      SameButLast(pieces, pieces[..n] + [pieces[n] + "\n"], Texts(contents), Texts(contents + "\n"));
    }
  }

  lemma SameButLast(a: seq<string>, b: seq<string>, readA: seq<Option<string>>, readB: seq<Option<string>>)
    requires a != [] && |a| == |b| == |readA| == |readB| && a[..|a| - 1] == b[..|b| - 1]
    requires forall i | 0 <= i < |a| :: readA[i] == Read(a[i], i == 0) && readB[i] == Read(b[i], i == 0)
    ensures readA == readB <==> Read(a[|a| - 1], |a| == 1) == Read(b[|a| - 1], |a| == 1)
  {
    var n := |a| - 1;
    forall i | 0 <= i < n ensures readA[i] == readB[i] {
      assert a[i] == a[..n][i] == b[..n][i] == b[i];
    }
    if readA[n] == readB[n] {
      assert readA == readB;
    }
  }

  lemma ClosedAppendTexts(contents: string, lines: seq<string>)
    requires GoodLines(lines) && Closed(contents)
    ensures Texts(Appended(contents, lines)) == Texts(contents) + AllSome(lines)
  {
    AppendedPieces(contents, lines);
    var before, after := Pieces(contents), Pieces(Appended(contents, lines));
    forall i | |before| <= i < |after| ensures Read(after[i], i == 0) == Some(lines[i - |before|]) {
      TerminatedReads(lines, i - |before|, i == 0);
    }
    assert forall i | 0 <= i < |before| :: after[i] == before[i];
  }

  lemma TerminatedReads(lines: seq<string>, k: nat, first: bool)
    requires GoodLines(lines) && k < |lines|
    ensures Read(Terminated(lines)[k], first) == Some(lines[k])
  {
    assert GoodLine(lines[k]);
    GoodLineReads(lines[k]);
  }

  /** **What adding lines previews.** The file reads as before, the new lines
      after, exactly when its last line holds no return. */
  lemma AppendedTexts(contents: string, lines: seq<string>)
    requires GoodLines(lines)
    ensures Texts(Appended(contents, lines)) == Texts(contents) + AllSome(lines) <==> !LastHoldsReturn(contents)
  {
    ClosedAppendTexts(Ended(contents), lines);
    EndedTexts(contents);
    assert Appended(Ended(contents), lines) == Appended(contents, lines);
    var ended, texts := Texts(Ended(contents)), Texts(contents);
    if ended + AllSome(lines) == texts + AllSome(lines) {
      assert (ended + AllSome(lines))[..|ended|] == ended;
      assert (texts + AllSome(lines))[..|texts|] == texts;
    }
  }
}
