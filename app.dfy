/**
 * The accumulation in `process_message` (app.py): the client grows one
 * response text from the agent's stream of chunks, like the server-side
 * formatter but with its own rules, and cleans it up at the end.
 *
 * A chunk is a Python value: a dict carrying "tool_call" or "tool_result",
 * or a string. The stream itself is a parameter (None when the agent gives
 * no iterator); the display updates are not modelled.
 */
module App {
  import opened Wrappers
  import opened PyStrings
  import opened PyValue
  import StreamFormat

  const NoIteratorApology: string := "I apologize, but I'm having trouble generating a response. Please try again."
  const ToolCallOpen: string := "\n\n\U{1F527} **Using "
  const ToolCallClose: string := "...**\n\n"
  const ResultsHeader: string := "\n\n\U{1F4CA} **Results:**\n"

  /** `f"\n\n🔧 **Using {name}...**\n\n"`. */
  function ToolCallText(name: Value): string {
    ToolCallOpen + Str(name) + ToolCallClose
  }

  // ---------------------------------------------------------------- tool results

  /** `f"* **{formatted_key}:** {value}\n"`. */
  function ResultLine(e: (string, Value)): string {
    "* **" + StreamFormat.KeyLabel(e.0) + ":** " + Str(e.1) + "\n"
  }

  /** The line of one dict pair, or nothing when the value is falsy. */
  function ShownLine(e: (string, Value)): string {
    if Truthy(e.1) then ResultLine(e) else ""
  }

  /** What a dict result appends. */
  function DictResultText(es: seq<(string, Value)>): string {
    ResultsHeader + ConcatMap(es, ShownLine) + "\n"
  }

  /** A dict result shows exactly its truthy pairs, in order. */
  lemma {:induction false} ShownLinesAreTruthy(es: seq<(string, Value)>)
    ensures ConcatMap(es, ShownLine) == ConcatMap(StreamFormat.TruthyEntries(es), ResultLine)
    decreases |es|
  {
    if |es| > 0 {
      var init := es[..|es| - 1];
      ShownLinesAreTruthy(init);
      var shown := StreamFormat.TruthyEntries(init);
      if Truthy(es[|es| - 1].1) {
        assert (shown + [es[|es| - 1]])[..|shown|] == shown;
      }
    }
  }

  /** `f"**{formatted_key}:** {v}, "`. */
  function PairText(e: (string, Value)): string {
    "**" + StreamFormat.KeyLabel(e.0) + ":** " + Str(e.1) + ", "
  }

  const CommaSpace: set<char> := {',', ' '}

  /**
   * Item `i` of a list result. For a dict item the whole accumulated text is
   * `rstrip(", ")`-ed before the newline, which removes the trailing ", " and
   * any commas or spaces the last value itself ends with.
   */
  function ItemText(acc: string, i: nat, item: Value): string {
    if item.VDict? then RStripChars(acc + NatToString(i) + ". " + ConcatMap(item.entries, PairText), CommaSpace) + "\n"
    else acc + NatToString(i) + ". " + Str(item) + "\n"
  }

  /** The items numbered from 1 after `acc`, each applied to the text so far. */
  function ListItemsText(acc: string, items: seq<Value>): string
    decreases |items|
  {
    if |items| == 0 then acc
    else ItemText(ListItemsText(acc, items[..|items| - 1]), |items|, items[|items| - 1])
  }

  /** An empty dict in a list loses the space after its number: `"i.\n"`. */
  lemma EmptyDictItem(acc: string, i: nat)
    ensures ItemText(acc, i, VDict([])) == acc + NatToString(i) + ".\n"
  {
    var x := acc + NatToString(i) + ".";
    assert acc + NatToString(i) + ". " + ConcatMap([], PairText) == x + " ";
    assert (x + " ")[..|x|] == x;
    assert (x + " ")[|x|] == ' ' && ' ' in CommaSpace;
    assert x[|x| - 1] == '.' && '.' !in CommaSpace;
  }

  /** A `tool_result` payload: a dict, a list, or anything else by `str()`. */
  function ResultText(full: string, result: Value): string {
    if result.VDict? then full + DictResultText(result.entries)
    else if result.VList? then ListItemsText(full + ResultsHeader, result.items) + "\n"
    else full + ResultsHeader + Str(result) + "\n\n"
  }

  // ---------------------------------------------------------------- text chunks

  /** `text.startswith(("1.", ..., "0."))`: one digit, then a dot. */
  predicate NumberedStart(text: string) {
    |text| >= 2 && IsDigit(text[0]) && text[1] == '.'
  }

  /** The separator before a plain chunk: one space unless the text ends in a newline or a space. */
  function Separator(full: string): string {
    if EndsWith(full, "\n") || EndsWith(full, " ") then "" else " "
  }

  /** A stripped, non-empty text chunk. */
  function TextAppend(full: string, text: string): string {
    if NumberedStart(text) then full + "\n" + text
    else if |text| > 0 && text[0] == '*' then full + "\n" + text
    else if |text| > 0 && text[0] == '#' then full + "\n\n" + text + "\n"
    else full + Separator(full) + text
  }

  /** One step of the `async for` loop. */
  function AppendChunk(full: string, chunk: Value): string {
    match chunk
    case VDict(es) =>
      if DictHas(es, "tool_call") then full + ToolCallText(DictGet(es, "tool_call").value)
      else if DictHas(es, "tool_result") then ResultText(full, DictGet(es, "tool_result").value)
      else full
    case VStr(s) => if IsBlank(s) then full else TextAppend(full, Strip(s))
    case _ => full
  }

  /** `full_response` after the given chunks. */
  function Accumulate(chunks: seq<Value>): string
    decreases |chunks|
  {
    if |chunks| == 0 then "" else AppendChunk(Accumulate(chunks[..|chunks| - 1]), chunks[|chunks| - 1])
  }

  /** The final cleanup: one pass of `replace("\n\n\n", "\n\n")`, then `strip()`. */
  function Cleanup(full: string): string {
    Strip(ReplaceAll(full, "\n\n\n", "\n\n"))
  }

  /** `process_message`'s result. */
  function ProcessMessageText(stream: Option<seq<Value>>): (r: string)
    ensures stream.None? ==> r == NoIteratorApology
  {
    match stream
    case None => NoIteratorApology
    case Some(chunks) => Cleanup(Accumulate(chunks))
  }

  // ---------------------------------------------------------------- properties

  /** Blank strings, dicts with neither key and values of other types change nothing. */
  lemma IgnoredChunk(full: string, chunk: Value)
    requires (chunk.VStr? && IsBlank(chunk.s))
      || (chunk.VDict? && !DictHas(chunk.entries, "tool_call") && !DictHas(chunk.entries, "tool_result"))
      || !(chunk.VStr? || chunk.VDict?)
    ensures AppendChunk(full, chunk) == full
  {
  }

  /** A chunk starting with two digits, such as "10. x", is plain text, not a list item. */
  lemma MultiDigitIsPlain(full: string, s: string)
    requires |Strip(s)| >= 2 && IsDigit(Strip(s)[0]) && IsDigit(Strip(s)[1])
    ensures AppendChunk(full, VStr(s)) == full + Separator(full) + Strip(s)
  {
    assert !IsBlank(s);
  }

  /** Header and bullet chunks get their fixed line breaks; a header line is closed by one newline. */
  lemma MarkupChunks(full: string, s: string)
    requires !IsBlank(s) && !NumberedStart(Strip(s))
    ensures Strip(s)[0] == '*' ==> AppendChunk(full, VStr(s)) == full + "\n" + Strip(s)
    ensures Strip(s)[0] == '#' ==> AppendChunk(full, VStr(s)) == full + "\n\n" + Strip(s) + "\n"
  {
  }

  /** Apart from list results, whose `rstrip` may reach back, every chunk only appends. */
  lemma AppendExtends(full: string, chunk: Value)
    requires !(chunk.VDict? && !DictHas(chunk.entries, "tool_call") && DictHas(chunk.entries, "tool_result")
               && DictGet(chunk.entries, "tool_result").value.VList?)
    ensures StartsWith(AppendChunk(full, chunk), full)
  {
    assert full + "" == full;
    match chunk
    case VDict(es) =>
      if DictHas(es, "tool_call") {
        PrefixStarts(full, ToolCallText(DictGet(es, "tool_call").value));
      } else if DictHas(es, "tool_result") {
        var res := DictGet(es, "tool_result").value;
        if res.VDict? {
          PrefixStarts(full, DictResultText(res.entries));
        } else {
          assert ResultText(full, res) == full + (ResultsHeader + Str(res) + "\n\n");
          PrefixStarts(full, ResultsHeader + Str(res) + "\n\n");
        }
      } else {
        PrefixStarts(full, "");
      }
    case VStr(s) =>
      if IsBlank(s) {
        PrefixStarts(full, "");
      } else {
        TextAppendExtends(full, Strip(s));
      }
    case _ =>
      PrefixStarts(full, "");
  }

  /** Every text chunk only appends to the reply. */
  lemma TextAppendExtends(full: string, text: string)
    ensures StartsWith(TextAppend(full, text), full)
  {
    if NumberedStart(text) || (|text| > 0 && text[0] == '*') {
      assert TextAppend(full, text) == full + ("\n" + text);
      PrefixStarts(full, "\n" + text);
    } else if |text| > 0 && text[0] == '#' {
      assert TextAppend(full, text) == full + ("\n\n" + text + "\n");
      PrefixStarts(full, "\n\n" + text + "\n");
    } else {
      assert TextAppend(full, text) == full + (Separator(full) + text);
      PrefixStarts(full, Separator(full) + text);
    }
  }

  /** Without list results, the text so far is always a prefix of the final text. */
  lemma {:induction false} AccumulateExtends(chunks: seq<Value>, k: nat)
    requires k <= |chunks|
    requires forall j :: 0 <= j < |chunks| ==>
      !(chunks[j].VDict? && !DictHas(chunks[j].entries, "tool_call") && DictHas(chunks[j].entries, "tool_result")
        && DictGet(chunks[j].entries, "tool_result").value.VList?)
    ensures StartsWith(Accumulate(chunks), Accumulate(chunks[..k]))
    decreases |chunks| - k
  {
    if k == |chunks| {
      assert chunks[..k] == chunks;
    } else {
      var n := |chunks|;
      AccumulateExtends(chunks[..n - 1], if k < n then k else n - 1);
      assert chunks[..n - 1][..k] == chunks[..k];
      assert forall j :: 0 <= j < n - 1 ==> chunks[..n - 1][j] == chunks[j];
      AppendExtends(Accumulate(chunks[..n - 1]), chunks[n - 1]);
    }
  }

  /** The replacement is one left-to-right pass: four newlines become three, not two. */
  lemma FourNewlines()
    ensures ReplaceAll("\n\n\n\n", "\n\n\n", "\n\n") == "\n\n\n"
  {
    assert StartsWith("\n\n\n\n", "\n\n\n");
    assert "\n\n\n\n"[3..] == "\n";
    assert !StartsWith("\n", "\n\n\n");
    assert "\n"[1..] == "";
  }

  // ---------------------------------------------------------------- the loop

  /** The loop over a dict result's items. */
  method AppendDictResult(full: string, es: seq<(string, Value)>) returns (r: string)
    ensures r == full + DictResultText(es)
  {
    r := full + ResultsHeader;
    var i := 0;
    while i < |es|
      invariant 0 <= i <= |es|
      invariant r == full + ResultsHeader + ConcatMap(es[..i], ShownLine)
    {
      ConcatMapStep(es, ShownLine, i);
      Assoc(full + ResultsHeader, ConcatMap(es[..i], ShownLine), ShownLine(es[i]));
      var (key, value) := es[i];
      if Truthy(value) {
        r := r + ResultLine((key, value));
      }
      i := i + 1;
    }
    assert es[..i] == es;
    r := r + "\n";
    Assoc3(full, ResultsHeader, ConcatMap(es, ShownLine), "\n");
  }

  /** One item of a list result; for a dict item, its pairs and then the `rstrip`. */
  method AppendItem(acc: string, i: nat, item: Value) returns (r: string)
    ensures r == ItemText(acc, i, item)
  {
    r := acc + NatToString(i) + ". ";
    if item.VDict? {
      r := AppendMapped(r, item.entries, PairText);
      r := RStripChars(r, CommaSpace) + "\n";
    } else {
      r := r + Str(item) + "\n";
    }
  }

  /** The loop over a list result's items, numbered from 1. */
  method AppendListResult(full: string, items: seq<Value>) returns (r: string)
    ensures r == ListItemsText(full + ResultsHeader, items) + "\n"
  {
    r := full + ResultsHeader;
    var i := 0;
    while i < |items|
      invariant 0 <= i <= |items|
      invariant r == ListItemsText(full + ResultsHeader, items[..i])
    {
      assert items[..i + 1][..i] == items[..i];
      r := AppendItem(r, i + 1, items[i]);
      i := i + 1;
    }
    assert items[..i] == items;
    r := r + "\n";
  }

  /** One pass of the chunk loop: tool calls, tool results, then text. */
  method AddChunk(full: string, chunk: Value) returns (r: string)
    ensures r == AppendChunk(full, chunk)
  {
    r := full;
    if chunk.VDict? {
      if DictHas(chunk.entries, "tool_call") {
        r := full + ToolCallText(DictGet(chunk.entries, "tool_call").value);
      } else if DictHas(chunk.entries, "tool_result") {
        var result := DictGet(chunk.entries, "tool_result").value;
        if result.VDict? {
          r := AppendDictResult(full, result.entries);
        } else if result.VList? {
          r := AppendListResult(full, result.items);
        } else {
          r := full + ResultsHeader + Str(result) + "\n\n";
        }
      }
    } else if chunk.VStr? && !IsBlank(chunk.s) {
      r := TextAppend(full, Strip(chunk.s));
    }
  }

  /** `process_message`: the chunk loop and the final cleanup. */
  method ProcessMessage(stream: Option<seq<Value>>) returns (r: string)
    ensures r == ProcessMessageText(stream)
  {
    if stream.None? {
      return NoIteratorApology;
    }
    var chunks := stream.value;
    var full := "";
    var i := 0;
    while i < |chunks|
      invariant 0 <= i <= |chunks|
      invariant full == Accumulate(chunks[..i])
    {
      assert chunks[..i + 1][..i] == chunks[..i];
      full := AddChunk(full, chunks[i]);
      i := i + 1;
    }
    assert chunks[..i] == chunks;
    r := Cleanup(full);
  }
}
