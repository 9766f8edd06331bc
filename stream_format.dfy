/**
 * The pure half of `StreamHandler` in utils/streaming.py: the four regular
 * expressions it compiles, the flush policy `_should_flush_buffer`, and the
 * formatters that turn a flushed buffer or a tool payload into display text.
 *
 * Each regular expression is written out as the exact set of strings it
 * accepts; the comment on each predicate gives the pattern.
 */
module StreamFormat {
  import opened Wrappers
  import opened PyStrings
  import opened PyValue

  /** A buffer longer than this many characters is flushed. */
  const MaxBufferLen: nat := 200

  /** A buffer is flushed once more than this many milliseconds passed since the last flush. */
  const FlushPauseMs: int := 500

  predicate IsPunct(c: char) { c == '.' || c == '!' || c == '?' }

  /** Punctuation marks are not whitespace. */
  lemma PunctNotSpace(c: char)
    requires IsPunct(c)
    ensures !IsSpace(c)
  {
    if c == '.' {
      assert !IsSpace('.');
    } else if c == '!' {
      assert !IsSpace('!');
    } else {
      assert !IsSpace('?');
    }
  }

  predicate HasPunct(s: string) {
    exists i :: 0 <= i < |s| && IsPunct(s[i])
  }

  // ---------------------------------------------------------------- patterns

  /** Length of the run of characters of `s` from its start that satisfy `IsPunct`. */
  function PunctRun(s: string): (n: nat)
    ensures n <= |s|
    ensures n < |s| ==> !IsPunct(s[n])
  {
    if |s| > 0 && IsPunct(s[0]) then 1 + PunctRun(s[1..]) else 0
  }

  /** Every character of the leading punctuation run is a punctuation mark. */
  lemma {:induction false} PunctRunMarks(s: string)
    ensures forall k :: 0 <= k < PunctRun(s) ==> IsPunct(s[k])
  {
    if |s| > 0 && IsPunct(s[0]) {
      PunctRunMarks(s[1..]);
      assert forall k :: 1 <= k < PunctRun(s) ==> s[k] == s[1..][k - 1];
    }
  }

  /** Length of the leading run of `#`. */
  function HashRun(s: string): (n: nat)
    ensures n <= |s|
    ensures forall k :: 0 <= k < n ==> s[k] == '#'
    ensures n < |s| ==> s[n] != '#'
  {
    if |s| > 0 && s[0] == '#' then 1 + HashRun(s[1..]) else 0
  }

  /**
   * `re.search(r'[.!?]+\s*', s)`: the start of the leftmost match, which is the
   * first punctuation mark (the match itself is that mark's run and the
   * whitespace after it).
   */
  function SentenceSearch(s: string): (r: Option<nat>)
    ensures r.Some? ==> r.value < |s| && IsPunct(s[r.value])
    ensures r.Some? ==> forall k :: 0 <= k < r.value ==> !IsPunct(s[k])
    ensures r.None? <==> !HasPunct(s)
  {
    if |s| == 0 then None
    else if IsPunct(s[0]) then Some(0)
    else
      match SentenceSearch(s[1..])
      case None =>
        assert forall k :: 1 <= k < |s| ==> s[k] == s[1..][k - 1];
        None
      case Some(i) => Some(i + 1)
  }

  /** Length of the match of `[.!?]+\s*` that starts at the beginning of `s`. */
  function MatchLen(s: string): (n: nat)
    requires |s| > 0 && IsPunct(s[0])
    ensures 1 <= n <= |s|
  {
    var p := PunctRun(s);
    p + LeadingSpaces(s[p..])
  }

  /** `re.match(r'^\d+\.\s*', s)`: digits, then a point. */
  predicate NumberedMatch(s: string) {
    var n := DigitRun(s);
    0 < n < |s| && s[n] == '.'
  }

  /** `re.match(r'^\*\s*', s)`: a leading `*`. */
  predicate BulletMatch(s: string) {
    |s| > 0 && s[0] == '*'
  }

  /**
   * `re.match(r'^#{1,6}\s+', s)`: one to six `#` and then whitespace. Backtracking
   * inside the `#` run cannot help, since a shorter run is followed by `#`.
   */
  predicate HeaderMatch(s: string) {
    var n := HashRun(s);
    1 <= n <= 6 && n < |s| && IsSpace(s[n])
  }

  // ---------------------------------------------------------------- flush policy

  /** `_should_flush_buffer(buffer, time_since_last)`, with the pause in milliseconds. */
  function ShouldFlushBuffer(buffer: string, elapsedMs: int): (r: bool)
    ensures r ==> !IsBlank(buffer)
    ensures !IsBlank(buffer) && (|buffer| > MaxBufferLen || elapsedMs > FlushPauseMs) ==> r
  {
    if IsBlank(buffer) then false
    else if SentenceSearch(buffer).Some? then true
    else if NumberedMatch(Strip(buffer)) then true
    else if BulletMatch(Strip(buffer)) then true
    else if HeaderMatch(Strip(buffer)) then true
    else if Contains(buffer, "\n\n") then true
    else if |buffer| > MaxBufferLen then true
    else elapsedMs > FlushPauseMs
  }

  /** The flush rules that look at the text alone (all but the pause rule). */
  predicate FlushesOnContent(buffer: string) {
    HasPunct(buffer) || BulletMatch(Strip(buffer)) || HeaderMatch(Strip(buffer))
    || Contains(buffer, "\n\n") || |buffer| > MaxBufferLen
  }

  /**
   * The numbered-list rule never decides anything: a numbered item holds a point,
   * and the sentence rule already fires on any point.
   */
  lemma NumberedImpliesSentence(buffer: string)
    requires NumberedMatch(Strip(buffer))
    ensures HasPunct(buffer)
  {
    var c := Strip(buffer);
    var n := DigitRun(c);
    assert buffer[LeadingSpaces(buffer) + n] == c[n] == '.';
  }

  /**
   * The whole policy: never for a blank buffer; otherwise exactly when the
   * buffer holds a punctuation mark, starts (after stripping) with a bullet or a
   * header, holds a blank line, is longer than 200 characters, or more than
   * 500 ms passed.
   */
  lemma ShouldFlushCharacterisation(buffer: string, elapsedMs: int)
    ensures ShouldFlushBuffer(buffer, elapsedMs)
      <==> !IsBlank(buffer) && (FlushesOnContent(buffer) || elapsedMs > FlushPauseMs)
  {
    if NumberedMatch(Strip(buffer)) {
      NumberedImpliesSentence(buffer);
    }
  }

  // ---------------------------------------------------------------- formatters

  /** `content` followed by a newline unless it already ends with one. */
  function EnsureNewline(content: string): (r: string)
    ensures 1 <= |r| && |content| <= |r| <= |content| + 1 && r[..|content|] == content && r[|r| - 1] == '\n'
  {
    if EndsWith(content, "\n") then
      assert content[|content| - 1..] == "\n";
      content
    else content + "\n"
  }

  /** `_format_numbered_item`: the item on its own line, set off by a blank line on either side. */
  function FormatNumberedItem(content: string): (r: string)
    ensures |content| + 2 <= |r| <= |content| + 3
    ensures r[0] == '\n' && r[1..|content| + 1] == content && r[|r| - 2] == r[|r| - 1] == '\n'
  {
    var e := EnsureNewline(content);
    assert ("\n" + e + "\n")[1..|content| + 1] == e[..|content|];
    "\n" + e + "\n"
  }

  /** `_format_bullet_point`: the bullet, then a blank line. */
  function FormatBulletPoint(content: string): (r: string)
    ensures 2 <= |r| && |content| + 1 <= |r| <= |content| + 2
    ensures r[..|content|] == content && r[|r| - 2] == r[|r| - 1] == '\n'
  {
    var e := EnsureNewline(content);
    assert (e + "\n")[..|content|] == e[..|content|];
    e + "\n"
  }

  /** `_format_header`: the header, set off by a blank line on either side. */
  function FormatHeader(content: string): (r: string)
    ensures |content| + 2 <= |r| <= |content| + 3
    ensures r[0] == '\n' && r[1..|content| + 1] == content && r[|r| - 2] == r[|r| - 1] == '\n'
  {
    var e := EnsureNewline(content);
    assert ("\n" + e + "\n")[1..|content| + 1] == e[..|content|];
    "\n" + e + "\n"
  }

  /** `re.split(r'[.!?]+\s*', s)`: the text between successive leftmost matches. */
  function SplitSentences(s: string): (r: seq<string>)
    ensures |r| >= 1
    decreases |s|
  {
    match SentenceSearch(s)
    case None => [s]
    case Some(i) =>
      var m := MatchLen(s[i..]);
      [s[..i]] + SplitSentences(s[i + m..])
  }

  /**
   * `self.sentence_endings.search(t).group().strip()`, or "" when there is no
   * match: the punctuation run of the first match in `t` (`StripMatchGroup`
   * shows that stripping the whole match leaves exactly this run).
   */
  function PunctuationIn(t: string): (p: string)
    ensures |p| > 0 ==> !IsSpace(p[0]) && !IsSpace(p[|p| - 1])
  {
    match SentenceSearch(t)
    case None => ""
    case Some(i) =>
      var u := t[i..];
      PunctRunMarks(u);
      assert u[..PunctRun(u)] == t[i..i + PunctRun(u)];
      t[i..i + PunctRun(u)]
  }

  /** After its punctuation run, a match of `[.!?]+\s*` holds only whitespace. */
  lemma MatchGroupTail(u: string)
    requires |u| > 0 && IsPunct(u[0])
    ensures IsBlank(u[..MatchLen(u)][PunctRun(u)..])
  {
    var p := PunctRun(u);
    var w := u[p..];
    assert u[..MatchLen(u)][p..] == w[..LeadingSpaces(w)];
  }

  /** The stripped match of `[.!?]+\s*` is its run of punctuation marks. */
  lemma StripMatchGroup(u: string, g: string)
    requires |u| > 0 && IsPunct(u[0])
    requires g == u[..MatchLen(u)]
    ensures Strip(g) == u[..PunctRun(u)]
  {
    var p := PunctRun(u);
    MatchGroupTail(u);
    assert IsBlank(g[p..]);
    GroupEnds(u, g);
    StripBlankTail(g, p);
    assert g[..p] == u[..p];
  }

  /** A match starts and ends its punctuation run with a mark. */
  lemma GroupEnds(u: string, g: string)
    requires |u| > 0 && IsPunct(u[0])
    requires g == u[..MatchLen(u)]
    ensures 0 < PunctRun(u) <= |g|
    ensures !IsSpace(g[0]) && !IsSpace(g[PunctRun(u) - 1])
    ensures g[..PunctRun(u)] == u[..PunctRun(u)]
  {
    var p := PunctRun(u);
    PunctRunMarks(u);
    assert g[p - 1] == u[p - 1];
    PunctNotSpace(g[0]);
    PunctNotSpace(g[p - 1]);
  }

  /**
   * The list `formatted_sentences` after the first `n` turns of the loop in
   * `_format_paragraph`: each non-blank piece, stripped, followed by the
   * punctuation `puncts` gives for it (see `Punctuations`).
   */
  function ParagraphItems(pieces: seq<string>, puncts: seq<string>, n: nat): seq<string>
    requires n <= |pieces| == |puncts|
  {
    if n == 0 then []
    else
      var prev := ParagraphItems(pieces, puncts, n - 1);
      var i := n - 1;
      if IsBlank(pieces[i]) then prev
      else prev + [Strip(pieces[i]) + puncts[i]]
  }

  /**
   * The punctuation for each piece: none for the last; otherwise the
   * punctuation found in `content` from offset `len(''.join(sentences[:i+1]))`
   * on. That offset leaves out the separators already passed, so it lags
   * behind the piece it is meant to follow.
   */
  function Punctuations(content: string, pieces: seq<string>): seq<string> {
    seq(|pieces|, i requires 0 <= i < |pieces| => ItemPunctuation(content, pieces, i))
  }

  /** Each string is empty, or neither starts nor ends with whitespace. */
  predicate NoOuterSpace(ps: seq<string>) {
    forall i :: 0 <= i < |ps| ==> |ps[i]| > 0 ==> !IsSpace(ps[i][0]) && !IsSpace(ps[i][|ps[i]| - 1])
  }

  lemma PunctuationsNoOuterSpace(content: string, pieces: seq<string>)
    ensures |Punctuations(content, pieces)| == |pieces|
    ensures NoOuterSpace(Punctuations(content, pieces))
  {
    var ps := Punctuations(content, pieces);
    forall i | 0 <= i < |ps|
      ensures |ps[i]| > 0 ==> !IsSpace(ps[i][0]) && !IsSpace(ps[i][|ps[i]| - 1])
    {
      var p := ItemPunctuation(content, pieces, i);
      assert ps[i] == p;
    }
  }

  /** The punctuation attached to piece `i`: none for the last piece. */
  function ItemPunctuation(content: string, pieces: seq<string>, i: nat): (p: string)
    requires i < |pieces|
    ensures |p| > 0 ==> !IsSpace(p[0]) && !IsSpace(p[|p| - 1])
  {
    if i < |pieces| - 1 then PunctuationIn(SliceFrom(content, |Concat(pieces[..i + 1])|)) else ""
  }

  /** Non-empty, and neither starts nor ends with whitespace. */
  predicate Trimmed(s: string) {
    |s| > 0 && !IsSpace(s[0]) && !IsSpace(s[|s| - 1])
  }

  /** `_format_paragraph(content)`. */
  function FormatParagraph(content: string): string {
    var pieces := SplitSentences(content);
    var items := ParagraphItems(pieces, Punctuations(content, pieces), |pieces|);
    if |items| > 0 then
      var joined := Join(" ", items);
      if EndsWith(joined, "\n") then joined else joined + "\n\n"
    else content + "\n\n"
  }

  /** `_format_and_flush_buffer(buffer)`. */
  function FormatAndFlushBuffer(buffer: string): string {
    if IsBlank(buffer) then ""
    else
      var content := Strip(buffer);
      if NumberedMatch(content) then FormatNumberedItem(content)
      else if BulletMatch(content) then FormatBulletPoint(content)
      else if HeaderMatch(content) then FormatHeader(content)
      else FormatParagraph(content)
  }

  // ---------------------------------------------------------------- formatter properties

  /** Every item of the paragraph loop is non-empty and neither starts nor ends with whitespace. */
  lemma {:induction false} ParagraphItemsShape(pieces: seq<string>, puncts: seq<string>, n: nat)
    requires n <= |pieces| == |puncts| && NoOuterSpace(puncts)
    ensures forall k :: 0 <= k < |ParagraphItems(pieces, puncts, n)| ==> Trimmed(ParagraphItems(pieces, puncts, n)[k])
  {
    if n > 0 {
      ParagraphItemsShape(pieces, puncts, n - 1);
      var prev := ParagraphItems(pieces, puncts, n - 1);
      var i := n - 1;
      if !IsBlank(pieces[i]) {
        var body := Strip(pieces[i]);
        assert |puncts[i]| > 0 ==> !IsSpace(puncts[i][0]) && !IsSpace(puncts[i][|puncts[i]| - 1]);
        TrimmedAppend(body, puncts[i]);
        TrimmedSnoc(prev, body + puncts[i]);
      }
    }
  }

  lemma TrimmedAppend(body: string, punct: string)
    requires Trimmed(body)
    requires |punct| > 0 ==> !IsSpace(punct[0]) && !IsSpace(punct[|punct| - 1])
    ensures Trimmed(body + punct)
  {
    var item := body + punct;
    assert item[0] == body[0];
    assert item[|item| - 1] == if |punct| > 0 then punct[|punct| - 1] else body[|body| - 1];
  }

  lemma TrimmedSnoc(prev: seq<string>, item: string)
    requires forall k :: 0 <= k < |prev| ==> Trimmed(prev[k])
    requires Trimmed(item)
    ensures forall k :: 0 <= k < |prev + [item]| ==> Trimmed((prev + [item])[k])
  {
    forall k | 0 <= k < |prev + [item]|
      ensures Trimmed((prev + [item])[k])
    {
      if k < |prev| {
        assert (prev + [item])[k] == prev[k];
      }
    }
  }

  /**
   * `_format_paragraph` always ends with a blank line, and its output starts
   * with a non-whitespace character whenever its input does.
   */
  lemma FormatParagraphShape(content: string)
    ensures EndsWith(FormatParagraph(content), "\n\n")
    ensures |content| > 0 && !IsSpace(content[0]) ==>
      |FormatParagraph(content)| > 0 && !IsSpace(FormatParagraph(content)[0])
  {
    var pieces := SplitSentences(content);
    var puncts := Punctuations(content, pieces);
    PunctuationsNoOuterSpace(content, pieces);
    var items := ParagraphItems(pieces, puncts, |pieces|);
    ParagraphItemsShape(pieces, puncts, |pieces|);
    if |items| > 0 {
      var joined := Join(" ", items);
      JoinEnds(" ", items);
      var last := items[|items| - 1];
      assert joined[|joined| - 1] == last[|last| - 1];
      assert !EndsWith(joined, "\n");
      assert joined[0] == items[0][0];
    }
  }

  /**
   * `_format_and_flush_buffer`: "" for a blank buffer; otherwise, with `c` the
   * stripped buffer, the first rule that matches `c` decides, in the order
   * numbered item, bullet, header, paragraph.
   */
  lemma FormatAndFlushCases(buffer: string)
    ensures IsBlank(buffer) ==> FormatAndFlushBuffer(buffer) == ""
    ensures !IsBlank(buffer) && NumberedMatch(Strip(buffer)) ==>
      FormatAndFlushBuffer(buffer) == "\n" + Strip(buffer) + "\n\n"
    ensures !IsBlank(buffer) && !NumberedMatch(Strip(buffer)) && BulletMatch(Strip(buffer)) ==>
      FormatAndFlushBuffer(buffer) == Strip(buffer) + "\n\n"
    ensures (!IsBlank(buffer) && !NumberedMatch(Strip(buffer)) && !BulletMatch(Strip(buffer))
             && HeaderMatch(Strip(buffer))) ==>
      FormatAndFlushBuffer(buffer) == "\n" + Strip(buffer) + "\n\n"
    ensures (!IsBlank(buffer) && !NumberedMatch(Strip(buffer)) && !BulletMatch(Strip(buffer))
             && !HeaderMatch(Strip(buffer))) ==>
      FormatAndFlushBuffer(buffer) == FormatParagraph(Strip(buffer))
  {
    if !IsBlank(buffer) {
      var c := Strip(buffer);
      EnsureNewlineAdds(c);
      assert "\n" + (c + "\n") + "\n" == "\n" + c + "\n\n";
      assert (c + "\n") + "\n" == c + "\n\n";
    }
  }

  /** Content that does not end with whitespace gets its newline added. */
  lemma EnsureNewlineAdds(c: string)
    requires |c| > 0 && !IsSpace(c[|c| - 1])
    ensures EnsureNewline(c) == c + "\n"
  {
    assert c[|c| - 1..] == [c[|c| - 1]];
  }

  /** A non-blank buffer is always emitted as a non-empty chunk that ends with a blank line. */
  lemma FormatAndFlushNonBlank(buffer: string)
    requires !IsBlank(buffer)
    ensures |FormatAndFlushBuffer(buffer)| > 0
    ensures EndsWith(FormatAndFlushBuffer(buffer), "\n\n")
  {
    FormatAndFlushCases(buffer);
    FormatParagraphShape(Strip(buffer));
  }

  /**
   * The punctuation offset lags: "A!! B." splits into "A", "B" and "", and the
   * piece "B", which the text ends with ".", is given "!", the second mark of
   * the separator after "A".
   */
  lemma ParagraphPunctuationDrift()
    ensures SplitSentences("A!! B.") == ["A", "B", ""]
    ensures ItemPunctuation("A!! B.", ["A", "B", ""], 0) == "!!"
    ensures ItemPunctuation("A!! B.", ["A", "B", ""], 1) == "!"
  {
    DriftPieces();
    DriftOffsets("A!! B.", ["A", "B", ""]);
  }

  lemma DriftPieces()
    ensures SplitSentences("A!! B.") == ["A", "B", ""]
  {
    var s := "A!! B.";
    DriftSearch();
    DriftMatch();
    assert s[1..] == "!! B.";
    assert s[..1] == "A";
    assert s[4..] == "B.";
    DriftPiecesTail();
  }

  lemma DriftSearch()
    ensures SentenceSearch("A!! B.") == Some(1)
  {
    assert !IsPunct('A') && IsPunct('!');
    assert "A!! B."[1..] == "!! B.";
  }

  lemma DriftMatch()
    ensures MatchLen("!! B.") == 3
  {
    DriftRun();
    assert "!! B."[2..] == " B.";
    DriftLeading();
  }

  lemma DriftRun()
    ensures PunctRun("!! B.") == 2
  {
    assert "!! B."[1..] == "! B.";
    assert "! B."[1..] == " B.";
    assert !IsPunct(' ');
  }

  lemma DriftLeading()
    ensures LeadingSpaces(" B.") == 1
  {
    assert IsSpace(' ') && !IsSpace('B');
    assert " B."[1..] == "B.";
  }

  lemma DriftPiecesTail()
    ensures SplitSentences("B.") == ["B", ""]
  {
    assert SentenceSearch("B.") == Some(1);
    assert "B."[1..] == ".";
    assert MatchLen(".") == 1;
    assert "B."[..1] == "B";
    assert "B."[2..] == "";
  }

  lemma DriftMarks()
    ensures PunctuationIn("!! B.") == "!!"
    ensures PunctuationIn("! B.") == "!"
  {
    assert SentenceSearch("!! B.") == Some(0);
    assert PunctRun("!! B.") == 2;
    assert SentenceSearch("! B.") == Some(0);
    assert PunctRun("! B.") == 1;
  }

  lemma DriftOffsets(content: string, pieces: seq<string>)
    requires content == "A!! B." && pieces == ["A", "B", ""]
    ensures ItemPunctuation(content, pieces, 0) == "!!"
    ensures ItemPunctuation(content, pieces, 1) == "!"
  {
    assert pieces[..1] == ["A"];
    assert Concat(pieces[..1]) == "A";
    assert pieces[..2] == ["A", "B"];
    assert Concat(pieces[..2]) == "AB";
    assert SliceFrom(content, 1) == "!! B.";
    assert SliceFrom(content, 2) == "! B.";
    DriftMarks();
  }

  // ---------------------------------------------------------------- tool results

  /** A dict key as `_format_tool_result` shows it: `_` as spaces, then title case. */
  function KeyLabel(k: string): string {
    Title(ReplaceChar(k, '_', ' '))
  }

  function KeyValueLine(k: string, x: Value): string {
    "\U{2022} **" + KeyLabel(k) + ":** " + Str(x)
  }

  /** One `KeyValueLine` per pair. */
  function EntryLines(shown: seq<(string, Value)>): (r: seq<string>)
    ensures |r| == |shown|
  {
    seq(|shown|, j requires 0 <= j < |shown| => KeyValueLine(shown[j].0, shown[j].1))
  }

  /** The pairs of a dict whose values are truthy, in insertion order. */
  function TruthyEntries(es: seq<(string, Value)>): (r: seq<(string, Value)>)
    ensures |r| <= |es|
  {
    if |es| == 0 then []
    else
      var prev := TruthyEntries(es[..|es| - 1]);
      if Truthy(es[|es| - 1].1) then prev + [es[|es| - 1]] else prev
  }

  /**
   * `TruthyEntries` keeps exactly the pairs with a truthy value, in their order:
   * it is the image of an increasing list of indexes that covers every truthy pair.
   */
  lemma {:induction false} TruthyEntriesSelect(es: seq<(string, Value)>) returns (idx: seq<nat>)
    ensures |idx| == |TruthyEntries(es)|
    ensures forall j :: 0 <= j < |idx| ==> idx[j] < |es| && TruthyEntries(es)[j] == es[idx[j]]
    ensures forall j, k :: 0 <= j < k < |idx| ==> idx[j] < idx[k]
    ensures forall i :: 0 <= i < |es| ==> (Truthy(es[i].1) <==> i in idx)
  {
    if |es| == 0 {
      idx := [];
    } else {
      var n := |es| - 1;
      var init := es[..n];
      var prevIdx := TruthyEntriesSelect(init);
      assert forall i :: 0 <= i < n ==> init[i] == es[i];
      if Truthy(es[n].1) {
        assert TruthyEntries(es) == TruthyEntries(init) + [es[n]];
        idx := prevIdx + [n];
        assert forall j :: 0 <= j < |prevIdx| ==> idx[j] == prevIdx[j];
      } else {
        assert TruthyEntries(es) == TruthyEntries(init);
        idx := prevIdx;
      }
    }
  }

  /** `_format_tool_result(result)`. */
  function FormatToolResult(v: Value): string {
    match v
    case VStr(s) => s
    case VDict(es) => Join("\n", EntryLines(TruthyEntries(es)))
    case VList(xs) =>
      Join("\n", seq(|xs|, i requires 0 <= i < |xs| =>
        NatToString(i + 1) + ". " + (if xs[i].VDict? then FormatToolResult(xs[i]) else Str(xs[i]))))
    case _ => Str(v)
  }

  /** A dict pair with a falsy value adds nothing to the rendering. */
  lemma ToolResultSkipsFalsy(es: seq<(string, Value)>, k: string, x: Value)
    requires !Truthy(x)
    ensures FormatToolResult(VDict(es + [(k, x)])) == FormatToolResult(VDict(es))
  {
    assert (es + [(k, x)])[..|es|] == es;
  }

  /** A dict pair with a truthy value adds one line `• **Label:** value` at the end. */
  lemma ToolResultAddsLine(es: seq<(string, Value)>, k: string, x: Value)
    requires Truthy(x)
    ensures FormatToolResult(VDict(es + [(k, x)])) ==
      var before := FormatToolResult(VDict(es));
      if TruthyEntries(es) == [] then KeyValueLine(k, x) else before + "\n" + KeyValueLine(k, x)
  {
    var es' := es + [(k, x)];
    assert es'[..|es|] == es;
    var shown := TruthyEntries(es);
    assert TruthyEntries(es') == shown + [(k, x)];
    var lines' := EntryLines(shown + [(k, x)]);
    assert lines'[..|lines'| - 1] == EntryLines(shown);
  }

  /**
   * A list payload gives one line per item, joined by newlines: the `i`-th line
   * is `i. ` counted from 1, followed by the nested rendering of a dict item or
   * by `str()` of any other item.
   */
  lemma ToolResultListNumbering(xs: seq<Value>) returns (lines: seq<string>)
    ensures FormatToolResult(VList(xs)) == Join("\n", lines)
    ensures |lines| == |xs|
    ensures forall i :: 0 <= i < |xs| ==> StartsWith(lines[i], NatToString(i + 1) + ". ")
    ensures forall i :: 0 <= i < |xs| && xs[i].VDict? ==>
      lines[i] == NatToString(i + 1) + ". " + FormatToolResult(xs[i])
    ensures forall i :: 0 <= i < |xs| && !xs[i].VDict? ==>
      lines[i] == NatToString(i + 1) + ". " + Str(xs[i])
  {
    lines := seq(|xs|, i requires 0 <= i < |xs| =>
      NatToString(i + 1) + ". " + (if xs[i].VDict? then FormatToolResult(xs[i]) else Str(xs[i])));
    forall i | 0 <= i < |xs|
      ensures StartsWith(lines[i], NatToString(i + 1) + ". ")
      ensures xs[i].VDict? ==> lines[i] == NatToString(i + 1) + ". " + FormatToolResult(xs[i])
      ensures !xs[i].VDict? ==> lines[i] == NatToString(i + 1) + ". " + Str(xs[i])
    {
      var body := if xs[i].VDict? then FormatToolResult(xs[i]) else Str(xs[i]);
      assert lines[i] == NatToString(i + 1) + ". " + body;
      PrefixStarts(NatToString(i + 1) + ". ", body);
    }
  }

  /** Anything that is neither a string, a dict nor a list renders as `str()`. */
  lemma ToolResultScalar(v: Value)
    requires !v.VStr? && !v.VDict? && !v.VList?
    ensures FormatToolResult(v) == Str(v) == Repr(v)
  {
  }
}
