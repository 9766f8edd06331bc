/**
 * The parts of Python's `str` that the modelled code relies on: whitespace as
 * `str.isspace` sees it, `strip`, `lower`, `title`, `split`, `in`,
 * `startswith`/`endswith`, `join`, `replace` and integer formatting.
 * Letters are cased over ASCII only.
 */
module PyStrings {

  /** The characters for which Python's `str.isspace()` is true (and which `\s` matches). */
  predicate IsSpace(c: char) {
    c == ' ' || c == '\t' || c == '\n' || c == '\r' || c == '\U{0B}' || c == '\U{0C}'
    || ('\U{1C}' <= c <= '\U{1F}') || c == '\U{85}' || c == '\U{A0}' || c == '\U{1680}'
    || ('\U{2000}' <= c <= '\U{200A}') || c == '\U{2028}' || c == '\U{2029}'
    || c == '\U{202F}' || c == '\U{205F}' || c == '\U{3000}'
  }

  predicate IsDigit(c: char) { '0' <= c <= '9' }

  predicate IsUpper(c: char) { 'A' <= c <= 'Z' }

  predicate IsLower(c: char) { 'a' <= c <= 'z' }

  predicate IsLetter(c: char) { IsUpper(c) || IsLower(c) }

  function ToLower(c: char): (r: char)
    ensures !IsUpper(r)
    ensures !IsUpper(c) ==> r == c
  {
    if IsUpper(c) then (c as int + 32) as char else c
  }

  function ToUpper(c: char): (r: char)
    ensures !IsLower(r)
    ensures !IsLower(c) ==> r == c
  {
    if IsLower(c) then (c as int - 32) as char else c
  }

  /** A string made of whitespace only (the empty string included). */
  predicate IsBlank(s: string) {
    forall i :: 0 <= i < |s| ==> IsSpace(s[i])
  }

  predicate HasChar(s: string, c: char) {
    exists i :: 0 <= i < |s| && s[i] == c
  }

  // ---------------------------------------------------------------- strip

  lemma BlankCons(c: char, s: string)
    requires IsSpace(c) && IsBlank(s)
    ensures IsBlank([c] + s)
  {
    assert forall i :: 1 <= i < 1 + |s| ==> ([c] + s)[i] == s[i - 1];
  }

  lemma BlankSnoc(s: string, c: char)
    requires IsBlank(s) && IsSpace(c)
    ensures IsBlank(s + [c])
  {
    assert forall i :: 0 <= i < |s| ==> (s + [c])[i] == s[i];
  }

  /** Number of whitespace characters at the start of `s`. */
  function LeadingSpaces(s: string): (n: nat)
    ensures n <= |s|
    ensures IsBlank(s[..n])
    ensures n < |s| ==> !IsSpace(s[n])
  {
    if |s| > 0 && IsSpace(s[0]) then
      var m := LeadingSpaces(s[1..]);
      assert s[..1 + m] == [s[0]] + s[1..][..m];
      BlankCons(s[0], s[1..][..m]);
      1 + m
    else 0
  }

  /** Number of whitespace characters at the end of `s`. */
  function TrailingSpaces(s: string): (n: nat)
    ensures n <= |s|
    ensures IsBlank(s[|s| - n..])
    ensures n < |s| ==> !IsSpace(s[|s| - n - 1])
  {
    if |s| > 0 && IsSpace(s[|s| - 1]) then
      var t := s[..|s| - 1];
      var m := TrailingSpaces(t);
      assert s[|s| - (1 + m)..] == t[|t| - m..] + [s[|s| - 1]];
      BlankSnoc(t[|t| - m..], s[|s| - 1]);
      1 + m
    else 0
  }

  function LStrip(s: string): string {
    s[LeadingSpaces(s)..]
  }

  function RStrip(s: string): string {
    s[..|s| - TrailingSpaces(s)]
  }

  /** What `RStrip` removes is whitespace, and what it keeps does not end with whitespace. */
  lemma RStripFacts(l: string)
    ensures |RStrip(l)| <= |l| && RStrip(l) == l[..|RStrip(l)|]
    ensures forall k :: |RStrip(l)| <= k < |l| ==> IsSpace(l[k])
    ensures |RStrip(l)| > 0 ==> !IsSpace(RStrip(l)[|RStrip(l)| - 1])
  {
    var n := TrailingSpaces(l);
    assert forall k :: |l| - n <= k < |l| ==> l[k] == l[|l| - n..][k - (|l| - n)];
  }

  /** Python `s.strip()`. */
  function Strip(s: string): (r: string)
    ensures r == "" <==> IsBlank(s)
    ensures |r| > 0 ==> !IsSpace(r[0]) && !IsSpace(r[|r| - 1])
    ensures LeadingSpaces(s) + |r| <= |s|
    ensures forall k :: 0 <= k < |r| ==> r[k] == s[LeadingSpaces(s) + k]
  {
    StripEmptyIffBlank(s);
    StripInside(s);
    StripEnds(s);
    RStrip(LStrip(s))
  }

  /** `lstrip` leaves the part after the leading whitespace, empty exactly for a blank string. */
  lemma LStripFacts(s: string)
    ensures |LStrip(s)| == |s| - LeadingSpaces(s)
    ensures forall k :: 0 <= k < |LStrip(s)| ==> LStrip(s)[k] == s[LeadingSpaces(s) + k]
    ensures LStrip(s) == "" <==> IsBlank(s)
    ensures |LStrip(s)| > 0 ==> !IsSpace(LStrip(s)[0])
  {
    var n := LeadingSpaces(s);
    if n == |s| {
      assert s[..n] == s;
    }
  }

  /** `rstrip` after `lstrip` is empty exactly for a blank string. */
  lemma StripEmptyIffBlank(s: string)
    ensures RStrip(LStrip(s)) == "" <==> IsBlank(s)
  {
    var l := LStrip(s);
    LStripFacts(s);
    if |l| > 0 {
      RStripFacts(l);
      assert !IsSpace(l[0]);
      assert RStrip(l) != "";
    }
  }

  /** `rstrip` after `lstrip` leaves the characters after the leading whitespace, in place. */
  lemma StripInside(s: string)
    ensures LeadingSpaces(s) + |RStrip(LStrip(s))| <= |s|
    ensures forall k :: 0 <= k < |RStrip(LStrip(s))| ==> RStrip(LStrip(s))[k] == s[LeadingSpaces(s) + k]
  {
    var l := LStrip(s);
    LStripFacts(s);
    var r := RStrip(l);
    assert forall k :: 0 <= k < |r| ==> r[k] == l[k];
  }

  /** A non-empty result of `rstrip` after `lstrip` starts and ends with a non-space. */
  lemma StripEnds(s: string)
    ensures var r := RStrip(LStrip(s)); |r| > 0 ==> !IsSpace(r[0]) && !IsSpace(r[|r| - 1])
  {
    var l := LStrip(s);
    LStripFacts(s);
    RStripFacts(l);
    var r := RStrip(l);
    if |r| > 0 {
      assert r[0] == l[0];
    }
  }

  /** A blank tail after a non-space character is exactly what `rstrip` removes. */
  lemma {:induction false} TrailingBlank(s: string, n: nat)
    requires n <= |s| && IsBlank(s[n..])
    requires n > 0 ==> !IsSpace(s[n - 1])
    ensures TrailingSpaces(s) == |s| - n
    decreases |s|
  {
    if |s| > n {
      var t := s[..|s| - 1];
      assert s[|s| - 1] == s[n..][|s| - 1 - n];
      assert t[n..] == s[n..][..|s| - 1 - n];
      assert n > 0 ==> t[n - 1] == s[n - 1];
      TrailingBlank(t, n);
    }
  }

  /** Stripping a string made of a part without leading or trailing whitespace and then blanks. */
  lemma StripBlankTail(s: string, n: nat)
    requires 0 < n <= |s| && IsBlank(s[n..])
    requires !IsSpace(s[0]) && !IsSpace(s[n - 1])
    ensures Strip(s) == s[..n]
  {
    assert LeadingSpaces(s) == 0;
    assert LStrip(s) == s;
    TrailingBlank(s, n);
  }

  /** Everything `strip` removes after the kept text is whitespace. */
  lemma StripDropsSpaces(s: string)
    ensures forall k :: LeadingSpaces(s) + |Strip(s)| <= k < |s| ==> IsSpace(s[k])
  {
    var n := LeadingSpaces(s);
    var l := LStrip(s);
    RStripFacts(l);
    assert forall k :: 0 <= k < |l| ==> l[k] == s[n + k];
  }

  /** Stripping a string that neither starts nor ends with whitespace changes nothing. */
  lemma StripNoOp(s: string)
    requires |s| > 0 ==> !IsSpace(s[0]) && !IsSpace(s[|s| - 1])
    ensures Strip(s) == s
  {
  }

  /** `strip` is idempotent. */
  lemma StripIdempotent(s: string)
    ensures Strip(Strip(s)) == Strip(s)
  {
    StripNoOp(Strip(s));
  }

  /** Python `s.rstrip(chars)`: remove trailing characters that belong to `chars`. */
  function RStripChars(s: string, chars: set<char>): (r: string)
    ensures |r| <= |s| && r == s[..|r|]
    ensures |r| > 0 ==> r[|r| - 1] !in chars
    ensures forall k :: |r| <= k < |s| ==> s[k] in chars
  {
    if |s| > 0 && s[|s| - 1] in chars then RStripChars(s[..|s| - 1], chars) else s
  }

  /** `rstrip` of a concatenation stops inside the second part when that part holds a kept character. */
  lemma {:induction false} RStripCharsAppend(a: string, b: string, chars: set<char>)
    requires exists k :: 0 <= k < |b| && b[k] !in chars
    ensures RStripChars(a + b, chars) == a + RStripChars(b, chars)
  {
    var k :| 0 <= k < |b| && b[k] !in chars;
    if b[|b| - 1] in chars {
      assert k < |b| - 1;
      assert (a + b)[..|a + b| - 1] == a + b[..|b| - 1];
      RStripCharsAppend(a, b[..|b| - 1], chars);
    }
  }

  // ---------------------------------------------------------------- case

  /** Python `s.lower()`, over ASCII letters. */
  function Lower(s: string): (r: string)
    ensures |r| == |s|
    ensures forall i :: 0 <= i < |s| ==> r[i] == ToLower(s[i])
  {
    seq(|s|, i requires 0 <= i < |s| => ToLower(s[i]))
  }

  lemma LowerIdempotent(s: string)
    ensures Lower(Lower(s)) == Lower(s)
  {
  }

  /**
   * Python `s.title()`, over ASCII letters: a letter is upper-cased when the
   * character before it is not a letter, lower-cased otherwise.
   */
  function Title(s: string): (r: string)
    ensures |r| == |s|
  {
    seq(|s|, i requires 0 <= i < |s| =>
      if !IsLetter(s[i]) then s[i]
      else if i > 0 && IsLetter(s[i - 1]) then ToLower(s[i])
      else ToUpper(s[i]))
  }

  /** Python `s.replace(a, b)` for single characters. */
  function ReplaceChar(s: string, a: char, b: char): (r: string)
    ensures |r| == |s|
    ensures forall i :: 0 <= i < |s| ==> r[i] == (if s[i] == a then b else s[i])
  {
    seq(|s|, i requires 0 <= i < |s| => if s[i] == a then b else s[i])
  }

  // ---------------------------------------------------------------- search

  predicate StartsWith(s: string, p: string) {
    |p| <= |s| && s[..|p|] == p
  }

  lemma PrefixStarts(p: string, t: string)
    ensures StartsWith(p + t, p)
  {
    assert (p + t)[..|p|] == p;
  }

  /** A prefix of a prefix is a prefix. */
  lemma StartsWithTrans(s: string, b: string, a: string)
    requires StartsWith(s, b) && StartsWith(b, a)
    ensures StartsWith(s, a)
  {
    assert s[..|a|] == s[..|b|][..|a|];
  }

  predicate EndsWith(s: string, p: string) {
    |p| <= |s| && s[|s| - |p|..] == p
  }

  /** `sub` occurs in `s` starting at index `i`. */
  predicate OccursAt(s: string, sub: string, i: int) {
    0 <= i <= |s| - |sub| && s[i..i + |sub|] == sub
  }

  /** Python `sub in s`. */
  predicate Contains(s: string, sub: string)
    decreases |s|
  {
    StartsWith(s, sub) || (|s| > 0 && Contains(s[1..], sub))
  }

  /** `sub in s` holds exactly when `sub` occurs at some index of `s`. */
  lemma {:induction false} ContainsAt(s: string, sub: string)
    ensures Contains(s, sub) <==> exists i :: OccursAt(s, sub, i)
    decreases |s|
  {
    if StartsWith(s, sub) {
      assert OccursAt(s, sub, 0);
    }
    if |s| > 0 {
      ContainsAt(s[1..], sub);
      if Contains(s[1..], sub) {
        var i :| OccursAt(s[1..], sub, i);
        assert s[i + 1..i + 1 + |sub|] == s[1..][i..i + |sub|];
        assert OccursAt(s, sub, i + 1);
      }
      if exists i :: OccursAt(s, sub, i) {
        var i :| OccursAt(s, sub, i);
        if i > 0 {
          assert s[1..][i - 1..i - 1 + |sub|] == s[i..i + |sub|];
          assert OccursAt(s[1..], sub, i - 1);
        } else {
          assert StartsWith(s, sub);
        }
      }
    } else {
      if exists i :: OccursAt(s, sub, i) {
        var i :| OccursAt(s, sub, i);
        assert StartsWith(s, sub);
      }
    }
  }

  /** A keyword with a character the text lacks does not occur in it. */
  lemma MissingChar(s: string, sub: string, k: nat)
    requires k < |sub| && forall i :: 0 <= i < |s| ==> s[i] != sub[k]
    ensures !Contains(s, sub)
  {
    forall i
      ensures !OccursAt(s, sub, i)
    {
      if 0 <= i <= |s| - |sub| {
        assert s[i..i + |sub|][k] == s[i + k];
      }
    }
    ContainsAt(s, sub);
  }

  /** Python `c in s` for a single character `c`. */
  lemma CharContains(s: string, c: char)
    ensures Contains(s, [c]) <==> HasChar(s, c)
  {
    ContainsAt(s, [c]);
    if HasChar(s, c) {
      var i :| 0 <= i < |s| && s[i] == c;
      assert OccursAt(s, [c], i);
    }
    if Contains(s, [c]) {
      var i :| OccursAt(s, [c], i);
      assert s[i] == s[i..i + 1][0];
    }
  }

  /** A substring of a part is a substring of the whole. */
  lemma ContainsInfix(a: string, s: string, b: string, sub: string)
    requires Contains(s, sub)
    ensures Contains(a + s + b, sub)
  {
    ContainsAt(s, sub);
    var i :| OccursAt(s, sub, i);
    assert (a + s + b)[|a| + i..|a| + i + |sub|] == s[i..i + |sub|];
    assert OccursAt(a + s + b, sub, |a| + i);
    ContainsAt(a + s + b, sub);
  }

  /** A substring of a substring is a substring. */
  lemma ContainsTrans(s: string, mid: string, sub: string)
    requires Contains(s, mid) && Contains(mid, sub)
    ensures Contains(s, sub)
  {
    ContainsAt(s, mid);
    ContainsAt(mid, sub);
    var i :| OccursAt(s, mid, i);
    var j :| OccursAt(mid, sub, j);
    forall k | 0 <= k < |sub|
      ensures s[i + j + k] == sub[k]
    {
      assert mid[j..j + |sub|][k] == mid[j + k];
      assert s[i..i + |mid|][j + k] == s[i + j + k];
    }
    assert s[i + j..i + j + |sub|] == sub;
    assert OccursAt(s, sub, i + j);
    ContainsAt(s, sub);
  }

  // ---------------------------------------------------------------- replace

  /** Python `s.replace(pat, rep)`: left-to-right, non-overlapping. */
  function ReplaceAll(s: string, pat: string, rep: string): (r: string)
    requires |pat| > 0
    decreases |s|
  {
    if |s| == 0 then ""
    else if StartsWith(s, pat) then rep + ReplaceAll(s[|pat|..], pat, rep)
    else [s[0]] + ReplaceAll(s[1..], pat, rep)
  }

  /** Replacing a pattern that does not occur leaves the string unchanged. */
  lemma {:induction false} ReplaceAllAbsent(s: string, pat: string, rep: string)
    requires |pat| > 0 && !Contains(s, pat)
    ensures ReplaceAll(s, pat, rep) == s
    decreases |s|
  {
    if |s| > 0 {
      ReplaceAllAbsent(s[1..], pat, rep);
      assert [s[0]] + s[1..] == s;
    }
  }

  // ---------------------------------------------------------------- slices

  /** Python `s[:n]` for `n >= 0`. */
  function Take<T>(s: seq<T>, n: nat): (r: seq<T>)
    ensures |r| == if n < |s| then n else |s|
    ensures r == s[..|r|]
  {
    if n < |s| then s[..n] else s
  }

  /** Python `s[start:]` for any integer `start` (negative counts from the end). */
  function SliceFrom<T>(s: seq<T>, start: int): (r: seq<T>)
    ensures |r| <= |s| && r == s[|s| - |r|..]
  {
    if start < 0 then (if -start <= |s| then s[|s| + start..] else s)
    else if start <= |s| then s[start..]
    else []
  }

  // ---------------------------------------------------------------- joins

  /** Concatenation of all the strings of `parts`, in order. */
  function Concat(parts: seq<string>): string {
    if |parts| == 0 then "" else Concat(parts[..|parts| - 1]) + parts[|parts| - 1]
  }

  lemma {:induction false} ConcatAppend(a: seq<string>, b: seq<string>)
    ensures Concat(a + b) == Concat(a) + Concat(b)
    decreases |b|
  {
    if |b| == 0 {
      assert a + b == a;
    } else {
      var init := b[..|b| - 1];
      var last := b[|b| - 1];
      assert (a + b)[..|a + b| - 1] == a + init;
      assert (a + b)[|a + b| - 1] == last;
      ConcatAppend(a, init);
      Assoc(Concat(a), Concat(init), last);
    }
  }

  lemma ConcatSingle(s: string)
    ensures Concat([s]) == s
  {
    assert [s][..0] == [];
  }

  lemma Assoc(a: string, b: string, c: string)
    ensures a + (b + c) == a + b + c
  {
  }

  lemma Assoc3(s: string, a: string, b: string, c: string)
    ensures s + a + b + c == s + (a + b + c)
  {
  }

  /** `"".join(line(x) for x in xs)`. */
  function ConcatMap<T>(xs: seq<T>, line: T -> string): string
    decreases |xs|
  {
    if |xs| == 0 then "" else ConcatMap(xs[..|xs| - 1], line) + line(xs[|xs| - 1])
  }

  lemma ConcatMapStep<T>(xs: seq<T>, line: T -> string, i: nat)
    requires i < |xs|
    ensures ConcatMap(xs[..i + 1], line) == ConcatMap(xs[..i], line) + line(xs[i])
  {
    assert xs[..i + 1][..i] == xs[..i];
  }

  /** Every element's image occurs in the concatenation. */
  lemma {:induction false} ConcatMapShows<T>(xs: seq<T>, line: T -> string, i: nat)
    requires i < |xs|
    ensures Contains(ConcatMap(xs, line), line(xs[i]))
    decreases |xs|
  {
    var n := |xs|;
    var front := ConcatMap(xs[..n - 1], line);
    var last := line(xs[n - 1]);
    if i == n - 1 {
      ContainsInfix(front, last, "", last);
      assert front + last + "" == front + last;
    } else {
      assert xs[..n - 1][i] == xs[i];
      ConcatMapShows(xs[..n - 1], line, i);
      ContainsInfix("", front, last, line(xs[i]));
      assert "" + front + last == front + last;
    }
  }

  /** Appends the image of each element to `prefix`, one `+=` per element. */
  method AppendMapped<T>(prefix: string, xs: seq<T>, line: T -> string) returns (r: string)
    ensures r == prefix + ConcatMap(xs, line)
  {
    r := prefix;
    var i := 0;
    while i < |xs|
      invariant 0 <= i <= |xs|
      invariant r == prefix + ConcatMap(xs[..i], line)
    {
      ConcatMapStep(xs, line, i);
      Assoc(prefix, ConcatMap(xs[..i], line), line(xs[i]));
      r := r + line(xs[i]);
      i := i + 1;
    }
    assert xs[..i] == xs;
  }

  /** Python `sep.join(parts)`. */
  function Join(sep: string, parts: seq<string>): string {
    if |parts| == 0 then ""
    else if |parts| == 1 then parts[0]
    else Join(sep, parts[..|parts| - 1]) + sep + parts[|parts| - 1]
  }

  lemma JoinPair(sep: string, a: string, b: string)
    ensures Join(sep, [a, b]) == a + sep + b
  {
    assert [a, b][..1] == [a];
  }

  /** Joining a non-empty list puts the first part first and the last part last. */
  lemma {:induction false} JoinEnds(sep: string, parts: seq<string>)
    requires |parts| > 0
    ensures StartsWith(Join(sep, parts), parts[0])
    ensures EndsWith(Join(sep, parts), parts[|parts| - 1])
  {
    if |parts| > 1 {
      var init := parts[..|parts| - 1];
      JoinEnds(sep, init);
      var j := Join(sep, init);
      assert (j + sep + parts[|parts| - 1])[..|parts[0]|] == j[..|parts[0]|];
    }
  }

  // ---------------------------------------------------------------- split

  /** Length of the run of non-whitespace characters at the start of `s`. */
  function TokenLen(s: string): (n: nat)
    ensures n <= |s|
    ensures forall k :: 0 <= k < n ==> !IsSpace(s[k])
    ensures n < |s| ==> IsSpace(s[n])
  {
    if |s| > 0 && !IsSpace(s[0]) then 1 + TokenLen(s[1..]) else 0
  }

  /** Python `s.split()`: the maximal runs of non-whitespace characters. */
  function Split(s: string): (r: seq<string>)
    decreases |s|
  {
    var t := LStrip(s);
    if t == "" then []
    else
      var n := TokenLen(t);
      [t[..n]] + Split(t[n..])
  }

  lemma SplitBlank(s: string)
    requires IsBlank(s)
    ensures Split(s) == []
  {
  }

  /** Splitting `ws + tok + rest`, where `tok` is a whole token, yields `tok` first. */
  lemma SplitCons(ws: string, tok: string, rest: string)
    requires IsBlank(ws)
    requires |tok| > 0 && forall k :: 0 <= k < |tok| ==> !IsSpace(tok[k])
    requires |rest| > 0 ==> IsSpace(rest[0])
    ensures Split(ws + tok + rest) == [tok] + Split(rest)
  {
    Assoc(ws, tok, rest);
    StripBeforeToken(ws, tok + rest);
    TokenPrefix(tok, rest);
    SplitUnfold(ws + (tok + rest));
    assert (tok + rest)[..|tok|] == tok && (tok + rest)[|tok|..] == rest;
  }

  /** Leading whitespace followed by a non-space is exactly what `lstrip()` removes. */
  lemma StripBeforeToken(ws: string, t: string)
    requires IsBlank(ws) && |t| > 0 && !IsSpace(t[0])
    ensures LStrip(ws + t) == t
  {
    LeadingPrefix(ws, t);
    assert (ws + t)[|ws|..] == t;
  }

  /** `split()` takes the first token after the leading whitespace. */
  lemma SplitUnfold(s: string)
    requires LStrip(s) != ""
    ensures Split(s) == [LStrip(s)[..TokenLen(LStrip(s))]] + Split(LStrip(s)[TokenLen(LStrip(s))..])
  {
  }

  lemma {:induction false} LeadingPrefix(ws: string, t: string)
    requires IsBlank(ws)
    requires |t| > 0 ==> !IsSpace(t[0])
    ensures LeadingSpaces(ws + t) == |ws|
    decreases |ws|
  {
    if |ws| > 0 {
      assert (ws + t)[1..] == ws[1..] + t;
      LeadingPrefix(ws[1..], t);
    }
  }

  lemma {:induction false} TokenPrefix(tok: string, rest: string)
    requires forall k :: 0 <= k < |tok| ==> !IsSpace(tok[k])
    requires |rest| > 0 ==> IsSpace(rest[0])
    ensures TokenLen(tok + rest) == |tok|
    decreases |tok|
  {
    if |tok| > 0 {
      assert (tok + rest)[1..] == tok[1..] + rest;
      TokenPrefix(tok[1..], rest);
    }
  }

  /** Python `s.split(c)` for a single separator character: never an empty list. */
  function SplitOn(s: string, c: char): (r: seq<string>)
    ensures |r| >= 1
  {
    if |s| == 0 then [""]
    else
      var rest := SplitOn(s[1..], c);
      if s[0] == c then [""] + rest else [[s[0]] + rest[0]] + rest[1..]
  }

  /** `split` and `join` with the same separator are inverse. */
  lemma {:induction false} SplitOnJoin(s: string, c: char)
    ensures Join([c], SplitOn(s, c)) == s
  {
    if |s| > 0 {
      SplitOnJoin(s[1..], c);
      var rest := SplitOn(s[1..], c);
      assert s == [s[0]] + s[1..];
      if s[0] == c {
        JoinCons([c], "", rest);
        assert "" + [c] + s[1..] == s;
      } else {
        var h, t := rest[0], rest[1..];
        assert [h] + t == rest;
        JoinCons([c], h, t);
        JoinCons([c], [s[0]] + h, t);
        if |t| > 0 {
          Assoc3([s[0]], h, [c], Join([c], t));
        }
      }
    }
  }

  /** No piece of `s.split(c)` holds the separator. */
  lemma {:induction false} SplitOnPieces(s: string, c: char)
    ensures forall i :: 0 <= i < |SplitOn(s, c)| ==> !HasChar(SplitOn(s, c)[i], c)
  {
    if |s| > 0 {
      SplitOnPieces(s[1..], c);
      var rest := SplitOn(s[1..], c);
      if s[0] != c {
        var h := [s[0]] + rest[0];
        assert !HasChar(rest[0], c);
        assert forall k :: 0 < k < |h| ==> h[k] == rest[0][k - 1];
        assert !HasChar(h, c);
      }
    }
  }

  /** `join` of a list with a first element split off. */
  lemma {:induction false} JoinCons(sep: string, x: string, xs: seq<string>)
    ensures Join(sep, [x] + xs) == if |xs| == 0 then x else x + sep + Join(sep, xs)
    decreases |xs|
  {
    if |xs| > 1 {
      var l := [x] + xs;
      assert l[..|l| - 1] == [x] + xs[..|xs| - 1];
      JoinCons(sep, x, xs[..|xs| - 1]);
    } else if |xs| == 1 {
      assert ([x] + xs)[..1] == [x];
    }
  }

  // ---------------------------------------------------------------- numbers

  function DigitChar(d: nat): (c: char)
    requires d < 10
    ensures IsDigit(c)
  {
    ('0' as int + d) as char
  }

  function DigitValue(c: char): (d: nat)
    requires IsDigit(c)
    ensures d < 10 && DigitChar(d) == c
  {
    c as int - '0' as int
  }

  /** Length of the leading run of ASCII digits. */
  function DigitRun(s: string): (n: nat)
    ensures n <= |s|
    ensures forall k :: 0 <= k < n ==> IsDigit(s[k])
    ensures n < |s| ==> !IsDigit(s[n])
  {
    if |s| > 0 && IsDigit(s[0]) then 1 + DigitRun(s[1..]) else 0
  }

  predicate AllDigits(s: string) {
    forall i :: 0 <= i < |s| ==> IsDigit(s[i])
  }

  /** Decimal digits of a natural number, most significant first, no leading zeros. */
  function NatToString(n: nat): (r: string)
    ensures |r| > 0 && AllDigits(r)
  {
    if n < 10 then [DigitChar(n)] else NatToString(n / 10) + [DigitChar(n % 10)]
  }

  /** Python `str(n)` for an `int`. */
  function IntToString(n: int): string {
    if n < 0 then "-" + NatToString(-n) else NatToString(n)
  }

  /** The value of a string of decimal digits (Python `int(s)`). */
  function ParseDigits(s: string): (n: nat)
    requires AllDigits(s)
  {
    if |s| == 0 then 0 else 10 * ParseDigits(s[..|s| - 1]) + DigitValue(s[|s| - 1])
  }

  /** Printing a number and reading it back gives the number again. */
  lemma {:induction false} ParseNatToString(n: nat)
    ensures ParseDigits(NatToString(n)) == n
  {
    if n >= 10 {
      ParseNatToString(n / 10);
      var s := NatToString(n);
      assert s[..|s| - 1] == NatToString(n / 10);
    }
  }
}
