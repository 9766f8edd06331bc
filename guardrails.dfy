/**
 * guardrails.py: the goal-string recogniser, the injury-description check and
 * the field validators of the `GoalInput`, `DietaryInput` and `WorkoutPlan`
 * records.
 *
 * The goal regex `^(lose|gain)\s+\d+(\.\d+)?\s*(kg|lbs)\s+in\s+\d+\s+(weeks?|months?)$`
 * is modelled as a list of pattern elements and a deterministic matcher that
 * takes, at each element, the longest run or the first alternative in the
 * regex's own order. For this pattern that choice is the only one that can
 * succeed, because no element can start with a character that ends the one
 * before it; `GoalStringComplete` proves that every string of the shape is
 * accepted, `GoalStringSound` that nothing else is.
 */
module Guardrails {
  import opened Wrappers
  import opened PyStrings
  import opened PyValue

  // ---------------------------------------------------------------- a small regex matcher

  datatype Elem =
    | Word(alts: seq<string>)  // `(a|b|...)`, tried in order
    | Spaces(min: nat)         // `\s*` (min 0) or `\s+` (min 1)
    | Digits                   // `\d+`
    | Fraction                 // `(\.\d+)?`
    | EndOfInput               // `$`: the end, or a final newline

  /** The language of one element. */
  predicate InLang(e: Elem, part: string) {
    match e
    case Word(alts) => part in alts
    case Spaces(min) => IsBlank(part) && |part| >= min
    case Digits => |part| > 0 && AllDigits(part)
    case Fraction => part == "" || (|part| >= 2 && part[0] == '.' && AllDigits(part[1..]))
    case EndOfInput => part == "" || part == "\n"
  }

  /** The index of the first alternative that `s` starts with. */
  function FirstPrefix(alts: seq<string>, s: string): (r: Option<nat>)
    ensures r.Some? ==> r.value < |alts| && StartsWith(s, alts[r.value])
    ensures r.Some? ==> forall j :: 0 <= j < r.value ==> !StartsWith(s, alts[j])
    ensures r.None? ==> forall j :: 0 <= j < |alts| ==> !StartsWith(s, alts[j])
  {
    if |alts| == 0 then None
    else if StartsWith(s, alts[0]) then Some(0)
    else
      match FirstPrefix(alts[1..], s)
      case None => None
      case Some(j) => Some(j + 1)
  }

  /** How many characters of `s` one element consumes, if it matches at the start of `s`. */
  function MatchElem(e: Elem, s: string): (r: Option<nat>)
    ensures r.Some? ==> r.value <= |s|
  {
    match e
    case Word(alts) =>
      (match FirstPrefix(alts, s)
       case Some(j) => Some(|alts[j]|)
       case None => None)
    case Spaces(min) =>
      var n := LeadingSpaces(s);
      if n >= min then Some(n) else None
    case Digits =>
      var n := DigitRun(s);
      if n > 0 then Some(n) else None
    case Fraction =>
      if |s| > 0 && s[0] == '.' && DigitRun(s[1..]) > 0 then Some(1 + DigitRun(s[1..])) else Some(0)
    case EndOfInput =>
      if s == "" || s == "\n" then Some(|s|) else None
  }

  /** Matches the whole of `s` against the elements in order; the parts matched, one per element. */
  function Match(p: seq<Elem>, s: string): Option<seq<string>>
    decreases |p|
  {
    if |p| == 0 then (if s == "" then Some([]) else None)
    else
      match MatchElem(p[0], s)
      case None => None
      case Some(n) =>
        match Match(p[1..], s[n..])
        case None => None
        case Some(rest) => Some([s[..n]] + rest)
  }

  lemma ConcatCons(x: string, xs: seq<string>)
    ensures Concat([x] + xs) == x + Concat(xs)
  {
    ConcatAppend([x], xs);
    ConcatSingle(x);
  }

  lemma ConcatFrom(parts: seq<string>, i: nat)
    requires i < |parts|
    ensures Concat(parts[i..]) == parts[i] + Concat(parts[i + 1..])
  {
    assert parts[i..] == [parts[i]] + parts[i + 1..];
    ConcatCons(parts[i], parts[i + 1..]);
  }

  lemma MatchElemSound(e: Elem, s: string)
    requires MatchElem(e, s).Some?
    ensures InLang(e, s[..MatchElem(e, s).value])
  {
    match e
    case Word(alts) =>
    case Spaces(min) =>
    case Digits =>
    case Fraction =>
      var n := MatchElem(e, s).value;
      if n > 0 {
        assert s[..n][1..] == s[1..][..n - 1];
      }
    case EndOfInput =>
  }

  /** One step of a successful match: the first element takes `n` characters, the rest match the remainder. */
  lemma MatchStep(p: seq<Elem>, s: string) returns (n: nat)
    requires |p| > 0 && Match(p, s).Some?
    ensures MatchElem(p[0], s) == Some(n) && n <= |s|
    ensures Match(p[1..], s[n..]).Some?
    ensures Match(p, s).value == [s[..n]] + Match(p[1..], s[n..]).value
  {
    n := MatchElem(p[0], s).value;
  }

  lemma ConcatSplit(s: string, n: nat, rest: seq<string>)
    requires n <= |s| && Concat(rest) == s[n..]
    ensures Concat([s[..n]] + rest) == s
  {
    ConcatCons(s[..n], rest);
    assert s[..n] + s[n..] == s;
  }

  /** Element-wise membership carries over from the tail to the whole when the heads agree. */
  lemma LangCons(p: seq<Elem>, parts: seq<string>, part: string, rest: seq<string>)
    requires |p| > 0 && parts == [part] + rest && |rest| == |p| - 1
    requires InLang(p[0], part)
    requires forall i :: 0 <= i < |p| - 1 ==> InLang(p[1..][i], rest[i])
    ensures forall i :: 0 <= i < |p| ==> InLang(p[i], parts[i])
  {
    forall i | 0 <= i < |p|
      ensures InLang(p[i], parts[i])
    {
      if i > 0 {
        assert p[i] == p[1..][i - 1] && parts[i] == rest[i - 1];
      }
    }
  }

  /** Whatever the matcher accepts is a concatenation of one word of each element's language. */
  lemma {:induction false} MatchSound(p: seq<Elem>, s: string)
    requires Match(p, s).Some?
    ensures var parts := Match(p, s).value;
      |parts| == |p| && Concat(parts) == s
      && forall i :: 0 <= i < |p| ==> InLang(p[i], parts[i])
    decreases |p|
  {
    if |p| > 0 {
      var n := MatchStep(p, s);
      MatchElemSound(p[0], s);
      MatchSound(p[1..], s[n..]);
      var rest := Match(p[1..], s[n..]).value;
      ConcatSplit(s, n, rest);
      LangCons(p, Match(p, s).value, s[..n], rest);
    }
  }

  /** `part`, followed by `rest`, is exactly what the matcher takes for element `e`. */
  predicate Stops(e: Elem, part: string, rest: string) {
    match e
    case Word(alts) =>
      exists j :: 0 <= j < |alts| && alts[j] == part && forall i :: 0 <= i < j ==> !StartsWith(part + rest, alts[i])
    case Spaces(_) => rest == "" || !IsSpace(rest[0])
    case Digits => rest == "" || !IsDigit(rest[0])
    case Fraction =>
      if part == "" then !(|rest| > 0 && rest[0] == '.' && DigitRun(rest[1..]) > 0)
      else rest == "" || !IsDigit(rest[0])
    case EndOfInput => rest == ""
  }

  lemma {:induction false} DigitPrefix(d: string, rest: string)
    requires AllDigits(d)
    requires rest == "" || !IsDigit(rest[0])
    ensures DigitRun(d + rest) == |d|
    decreases |d|
  {
    if |d| > 0 {
      assert (d + rest)[1..] == d[1..] + rest;
      DigitPrefix(d[1..], rest);
    } else {
      assert d + rest == rest;
    }
  }

  lemma {:induction false} FirstPrefixIs(alts: seq<string>, s: string, j: nat)
    requires j < |alts| && StartsWith(s, alts[j])
    requires forall i :: 0 <= i < j ==> !StartsWith(s, alts[i])
    ensures FirstPrefix(alts, s) == Some(j)
    decreases j
  {
    if j > 0 {
      FirstPrefixIs(alts[1..], s, j - 1);
    }
  }

  lemma MatchElemGreedy(e: Elem, part: string, rest: string)
    requires InLang(e, part) && Stops(e, part, rest)
    ensures MatchElem(e, part + rest) == Some(|part|)
  {
    var s := part + rest;
    assert s[..|part|] == part;
    match e
    case Word(alts) =>
      var j :| 0 <= j < |alts| && alts[j] == part && forall i :: 0 <= i < j ==> !StartsWith(s, alts[i]);
      FirstPrefixIs(alts, s, j);
    case Spaces(_) =>
      LeadingPrefix(part, rest);
    case Digits =>
      DigitPrefix(part, rest);
    case Fraction =>
      if part != "" {
        assert s[1..] == part[1..] + rest;
        DigitPrefix(part[1..], rest);
      } else {
        assert s == rest;
      }
    case EndOfInput =>
  }

  /** The matcher accepts any concatenation of words of the elements' languages that it would take greedily. */
  lemma {:induction false} MatchComplete(p: seq<Elem>, parts: seq<string>)
    requires |parts| == |p|
    requires forall i :: 0 <= i < |p| ==> InLang(p[i], parts[i]) && Stops(p[i], parts[i], Concat(parts[i + 1..]))
    ensures Match(p, Concat(parts)) == Some(parts)
    decreases |p|
  {
    if |p| > 0 {
      var rest := Concat(parts[1..]);
      ConcatFirst(parts);
      MatchElemGreedy(p[0], parts[0], rest);
      TailGreedy(p, parts);
      MatchComplete(p[1..], parts[1..]);
      MatchCons(p, parts[0], rest, parts[1..]);
      assert [parts[0]] + parts[1..] == parts;
    } else {
      assert parts == [];
    }
  }

  lemma ConcatFirst(parts: seq<string>)
    requires |parts| > 0
    ensures Concat(parts) == parts[0] + Concat(parts[1..])
  {
    ConcatFrom(parts, 0);
    assert parts[0..] == parts;
  }

  /** The greedy conditions of the elements after the first. */
  lemma TailGreedy(p: seq<Elem>, parts: seq<string>)
    requires |parts| == |p| > 0
    requires forall i :: 0 <= i < |p| ==> InLang(p[i], parts[i]) && Stops(p[i], parts[i], Concat(parts[i + 1..]))
    ensures forall i :: 0 <= i < |p[1..]| ==>
      InLang(p[1..][i], parts[1..][i]) && Stops(p[1..][i], parts[1..][i], Concat(parts[1..][i + 1..]))
  {
    forall i | 0 <= i < |p[1..]|
      ensures InLang(p[1..][i], parts[1..][i]) && Stops(p[1..][i], parts[1..][i], Concat(parts[1..][i + 1..]))
    {
      assert parts[1..][i + 1..] == parts[i + 2..];
      assert p[1..][i] == p[i + 1] && parts[1..][i] == parts[i + 1];
    }
  }

  /** The first element takes `part` and the others match `rest` as `ps`: the whole match is `part` then `ps`. */
  lemma MatchCons(p: seq<Elem>, part: string, rest: string, ps: seq<string>)
    requires |p| > 0 && MatchElem(p[0], part + rest) == Some(|part|)
    requires Match(p[1..], rest) == Some(ps)
    ensures Match(p, part + rest) == Some([part] + ps)
  {
    var s := part + rest;
    assert s[..|part|] == part && s[|part|..] == rest;
  }

  // ---------------------------------------------------------------- validate_goal_string

  const GoalPattern: seq<Elem> := [
    Word(["lose", "gain"]), Spaces(1), Digits, Fraction, Spaces(0), Word(["kg", "lbs"]),
    Spaces(1), Word(["in"]), Spaces(1), Digits, Spaces(1), Word(["weeks", "week", "months", "month"]),
    EndOfInput
  ]

  /** `validate_goal_string`: a regex match on the lowercased string. */
  predicate ValidateGoalString(goal: string) {
    Match(GoalPattern, Lower(goal)).Some?
  }

  /** The parts of an accepted goal string, one per pattern element. */
  predicate GoalParts(parts: seq<string>) {
    |parts| == |GoalPattern| && forall i :: 0 <= i < |GoalPattern| ==> InLang(GoalPattern[i], parts[i])
  }

  /** An accepted string is, after lowercasing, a concatenation of words of the pattern's elements. */
  lemma GoalStringSound(goal: string)
    requires ValidateGoalString(goal)
    ensures GoalParts(Match(GoalPattern, Lower(goal)).value)
    ensures Concat(Match(GoalPattern, Lower(goal)).value) == Lower(goal)
  {
    MatchSound(GoalPattern, Lower(goal));
  }

  lemma SpaceNotDigit(c: char)
    requires IsSpace(c)
    ensures !IsDigit(c) && c != '.' && c != 'k' && c != 'l' && c != 'i' && c != 'w' && c != 'm'
  {
  }

  /** Every word that fits the pattern's elements is taken by the matcher element by element. */
  lemma GoalStops(parts: seq<string>, i: nat)
    requires GoalParts(parts) && i < |parts|
    ensures Stops(GoalPattern[i], parts[i], Concat(parts[i + 1..]))
  {
    if i == 0 {
      StopsAtVerb(parts);
    } else if i == 1 || i == 8 {
      StopsBeforeDigits(parts, i);
    } else if i == 2 {
      StopsAfterWhole(parts);
    } else if i == 3 {
      StopsAfterFraction(parts);
    } else if i == 4 {
      StopsBeforeUnit(parts);
    } else if i == 5 {
      StopsAtUnit(parts);
    } else if i == 6 {
      StopsBeforeIn(parts);
    } else if i == 7 {
      assert GoalPattern[7].alts[0] == parts[7];
    } else if i == 9 {
      StopsAfterCount(parts);
    } else if i == 10 {
      StopsBeforePeriod(parts);
    } else if i == 11 {
      StopsAtPeriod(parts);
    } else {
      assert parts[13..] == [];
    }
  }

  /** What follows part `i` starts with the first character of part `i + 1`, when that is not empty. */
  lemma NextStart(parts: seq<string>, i: nat)
    requires i + 1 < |parts| && |parts[i + 1]| > 0
    ensures |Concat(parts[i + 1..])| > 0 && Concat(parts[i + 1..])[0] == parts[i + 1][0]
  {
    ConcatFrom(parts, i + 1);
  }

  lemma StopsAtVerb(parts: seq<string>)
    requires GoalParts(parts)
    ensures Stops(GoalPattern[0], parts[0], Concat(parts[1..]))
  {
    var rest := Concat(parts[1..]);
    assert parts[0] == "lose" || parts[0] == "gain";
    if parts[0] == "gain" {
      assert (parts[0] + rest)[0] == 'g';
      assert GoalPattern[0].alts[1] == parts[0];
    } else {
      assert GoalPattern[0].alts[0] == parts[0];
    }
  }

  lemma StopsBeforeDigits(parts: seq<string>, i: nat)
    requires GoalParts(parts) && (i == 1 || i == 8)
    ensures Stops(GoalPattern[i], parts[i], Concat(parts[i + 1..]))
  {
    assert InLang(GoalPattern[i + 1], parts[i + 1]);
    NextStart(parts, i);
    assert IsDigit(parts[i + 1][0]);
  }

  /** After the number's digits comes a fraction, whitespace or a unit. */
  lemma AfterFractionStart(parts: seq<string>)
    requires GoalParts(parts)
    ensures var r := Concat(parts[4..]);
      |r| > 0 && !IsDigit(r[0]) && r[0] != '.'
  {
    assert InLang(GoalPattern[4], parts[4]) && InLang(GoalPattern[5], parts[5]);
    ConcatFrom(parts, 4);
    if parts[4] != "" {
      SpaceNotDigit(parts[4][0]);
    } else {
      NextStart(parts, 4);
      assert parts[5][0] == 'k' || parts[5][0] == 'l';
    }
  }

  lemma StopsAfterWhole(parts: seq<string>)
    requires GoalParts(parts)
    ensures Stops(GoalPattern[2], parts[2], Concat(parts[3..]))
  {
    ConcatFrom(parts, 3);
    assert InLang(GoalPattern[3], parts[3]);
    if parts[3] == "" {
      AfterFractionStart(parts);
    }
  }

  lemma StopsAfterFraction(parts: seq<string>)
    requires GoalParts(parts)
    ensures Stops(GoalPattern[3], parts[3], Concat(parts[4..]))
  {
    AfterFractionStart(parts);
  }

  lemma StopsBeforeUnit(parts: seq<string>)
    requires GoalParts(parts)
    ensures Stops(GoalPattern[4], parts[4], Concat(parts[5..]))
  {
    assert InLang(GoalPattern[5], parts[5]);
    NextStart(parts, 4);
  }

  lemma StopsAtUnit(parts: seq<string>)
    requires GoalParts(parts)
    ensures Stops(GoalPattern[5], parts[5], Concat(parts[6..]))
  {
    var rest := Concat(parts[6..]);
    if parts[5] == "lbs" {
      assert (parts[5] + rest)[0] == 'l';
      assert GoalPattern[5].alts[1] == parts[5];
    } else {
      assert GoalPattern[5].alts[0] == parts[5];
    }
  }

  lemma StopsBeforeIn(parts: seq<string>)
    requires GoalParts(parts)
    ensures Stops(GoalPattern[6], parts[6], Concat(parts[7..]))
  {
    assert InLang(GoalPattern[7], parts[7]);
    NextStart(parts, 6);
  }

  lemma StopsAfterCount(parts: seq<string>)
    requires GoalParts(parts)
    ensures Stops(GoalPattern[9], parts[9], Concat(parts[10..]))
  {
    assert InLang(GoalPattern[10], parts[10]);
    NextStart(parts, 9);
    SpaceNotDigit(parts[10][0]);
  }

  lemma StopsBeforePeriod(parts: seq<string>)
    requires GoalParts(parts)
    ensures Stops(GoalPattern[10], parts[10], Concat(parts[11..]))
  {
    assert InLang(GoalPattern[11], parts[11]);
    NextStart(parts, 10);
  }

  lemma StopsAtPeriod(parts: seq<string>)
    requires GoalParts(parts)
    ensures Stops(GoalPattern[11], parts[11], Concat(parts[12..]))
  {
    ConcatFrom(parts, 12);
    assert parts[13..] == [];
    assert Concat(parts[12..]) == parts[12];
    assert InLang(GoalPattern[12], parts[12]);
    assert InLang(GoalPattern[11], parts[11]);
    PeriodWordStops(parts[11], parts[12]);
  }

  /** A period word followed by the end of input is the alternative the regex takes. */
  lemma PeriodWordStops(w: string, rest: string)
    requires w in ["weeks", "week", "months", "month"] && (rest == "" || rest == "\n")
    ensures Stops(Word(["weeks", "week", "months", "month"]), w, rest)
  {
    var alts := ["weeks", "week", "months", "month"];
    var s := w + rest;
    if w == "week" {
      assert !StartsWith(s, alts[0]) by { if |s| >= 5 { assert s[4] == '\n'; } }
      assert alts[1] == w;
    } else if w == "months" {
      assert s[0] == 'm';
      assert alts[2] == w;
    } else if w == "month" {
      assert s[0] == 'm';
      assert !StartsWith(s, alts[2]) by { if |s| >= 6 { assert s[5] == '\n'; } }
      assert alts[3] == w;
    } else {
      assert alts[0] == w;
    }
  }

  /** Every string of the pattern's shape is accepted. */
  lemma GoalStringComplete(goal: string, parts: seq<string>)
    requires GoalParts(parts) && Lower(goal) == Concat(parts)
    ensures ValidateGoalString(goal)
    ensures Match(GoalPattern, Lower(goal)) == Some(parts)
  {
    forall i | 0 <= i < |GoalPattern|
      ensures InLang(GoalPattern[i], parts[i]) && Stops(GoalPattern[i], parts[i], Concat(parts[i + 1..]))
    {
      GoalStops(parts, i);
    }
    MatchComplete(GoalPattern, parts);
  }

  // ---------------------------------------------------------------- no accepted goal string says "goal"

  /** No `g` is directly followed by an `o`. */
  predicate NoGo(s: string) {
    forall k :: 0 <= k < |s| - 1 && s[k] == 'g' ==> s[k + 1] != 'o'
  }

  lemma NoGoAppend(a: string, b: string)
    requires NoGo(a) && NoGo(b) && (|b| > 0 ==> b[0] != 'o')
    ensures NoGo(a + b)
  {
    var s := a + b;
    forall k | 0 <= k < |s| - 1 && s[k] == 'g'
      ensures s[k + 1] != 'o'
    {
      if k + 1 < |a| {
        assert s[k] == a[k] && s[k + 1] == a[k + 1];
      } else if k + 1 == |a| {
        assert s[k + 1] == b[0];
      } else {
        assert s[k] == b[k - |a|] && s[k + 1] == b[k + 1 - |a|];
      }
    }
  }

  lemma {:induction false} NoGoConcat(parts: seq<string>)
    requires forall i :: 0 <= i < |parts| ==> NoGo(parts[i]) && (|parts[i]| > 0 ==> parts[i][0] != 'o')
    ensures NoGo(Concat(parts))
  {
    if |parts| > 0 {
      NoGoConcat(parts[..|parts| - 1]);
      NoGoAppend(Concat(parts[..|parts| - 1]), parts[|parts| - 1]);
    }
  }

  /** No word of the pattern's alternatives has a `g` before an `o` or starts with `o`. */
  predicate WordsNoGo(e: Elem) {
    e.Word? ==> forall a :: a in e.alts ==> NoGo(a) && (|a| > 0 ==> a[0] != 'o')
  }

  lemma PatternWordsNoGo(i: nat)
    requires i < |GoalPattern|
    ensures WordsNoGo(GoalPattern[i])
  {
    var w := GoalPattern[i];
    if w.Word? {
      forall a | a in w.alts
        ensures NoGo(a) && (|a| > 0 ==> a[0] != 'o')
      {
        if a == "lose" {
          assert a[0] == 'l' && a[1] == 'o';
        }
      }
    }
  }

  lemma GoalPartNoGo(e: Elem, part: string)
    requires WordsNoGo(e) && InLang(e, part)
    ensures NoGo(part) && (|part| > 0 ==> part[0] != 'o')
  {
  }

  /** A string with no `g` directly before an `o` cannot contain "goal". */
  lemma NoGoNoGoal(s: string)
    requires NoGo(s)
    ensures !Contains(s, "goal")
  {
    forall k | 0 <= k <= |s| - 4
      ensures !OccursAt(s, "goal", k)
    {
      assert s[k..k + 4][0] == s[k] && s[k..k + 4][1] == s[k + 1];
    }
    ContainsAt(s, "goal");
  }

  /**
   * No accepted goal string contains "goal": the agent's goal branch, taken
   * only for messages containing "goal", always sees the analyser reject them.
   */
  lemma GoalWordRejected(goal: string)
    requires Contains(Lower(goal), "goal")
    ensures !ValidateGoalString(goal)
  {
    if ValidateGoalString(goal) {
      var parts := Match(GoalPattern, Lower(goal)).value;
      GoalStringSound(goal);
      forall i | 0 <= i < |parts|
        ensures NoGo(parts[i]) && (|parts[i]| > 0 ==> parts[i][0] != 'o')
      {
        PatternWordsNoGo(i);
        GoalPartNoGo(GoalPattern[i], parts[i]);
      }
      NoGoConcat(parts);
      NoGoNoGoal(Lower(goal));
    }
  }

  // ---------------------------------------------------------------- validate_injury_input

  /** The phrases `validate_injury_input` requires. */
  const RequiredInjuryInfo: seq<string> := ["location", "pain level", "duration"]

  /** `validate_injury_input`: every required phrase, lowercased, occurs in the lowercased description. */
  predicate ValidateInjuryInput(description: string) {
    forall i :: 0 <= i < |RequiredInjuryInfo| ==> Contains(Lower(description), Lower(RequiredInjuryInfo[i]))
  }

  /**
   * A description is accepted exactly when its lowercase form contains
   * "location", "pain level" and "duration".
   */
  lemma InjuryInputPhrases(description: string)
    ensures ValidateInjuryInput(description) <==>
      var d := Lower(description);
      Contains(d, "location") && Contains(d, "pain level") && Contains(d, "duration")
  {
    LowerLetters();
    assert RequiredInjuryInfo[0] == "location" && RequiredInjuryInfo[1] == "pain level" && RequiredInjuryInfo[2] == "duration";
  }

  lemma LowerLetters()
    ensures Lower("location") == "location" && Lower("pain level") == "pain level" && Lower("duration") == "duration"
  {
  }

  /** A description that names the pain but not where it is, its level or how long, is rejected. */
  lemma KneePainRejected()
    ensures !ValidateInjuryInput("my knee pain")
  {
    var d := "my knee pain";
    assert Lower(d) == d;
    InjuryInputPhrases(d);
    KneePainNoLocation();
  }

  lemma KneePainNoLocation()
    ensures !Contains("my knee pain", "location")
  {
    MissingChar("my knee pain", "location", 1);
  }

  /** The check ignores case: a description and its lowercase form are judged alike. */
  lemma InjuryInputIgnoresCase(description: string)
    ensures ValidateInjuryInput(Lower(description)) == ValidateInjuryInput(description)
  {
    LowerIdempotent(description);
  }

  // ---------------------------------------------------------------- field validators

  const ValidGoalTypes: seq<string> := ["weight_loss", "muscle_gain", "endurance", "flexibility", "strength"]
  const ValidUnits: seq<string> := ["kg", "lbs", "km", "miles", "minutes"]
  const ValidPreferences: seq<string> := ["vegetarian", "vegan", "pescatarian", "keto", "paleo", "mediterranean"]
  const ValidDifficulties: seq<string> := ["beginner", "intermediate", "advanced"]

  /** Python's rendering of a list of strings, as in the validators' error messages. */
  function ListRepr(xs: seq<string>): string {
    Repr(VList(seq(|xs|, i requires 0 <= i < |xs| => VStr(xs[i]))))
  }

  /** A validator that accepts a value whose lowercase form is listed, and returns that form. */
  function OneOf(v: string, valid: seq<string>, message: string): (r: Result<string, PyError>)
    ensures r.Ok? <==> Lower(v) in valid
    ensures r.Ok? ==> r.value == Lower(v)
    ensures r.Err? ==> r.error == ValueError(message)
  {
    if Lower(v) in valid then Ok(Lower(v)) else Err(ValueError(message))
  }

  /** `GoalInput.validate_goal_type`. */
  function ValidateGoalType(v: string): (r: Result<string, PyError>)
    ensures r.Ok? <==> Lower(v) in ValidGoalTypes
    ensures r.Ok? ==> r.value == Lower(v)
    ensures r.Err? ==> r.error.ValueError?
  {
    OneOf(v, ValidGoalTypes, "Goal type must be one of " + ListRepr(ValidGoalTypes))
  }

  /** `GoalInput.validate_unit`. */
  function ValidateUnit(v: string): (r: Result<string, PyError>)
    ensures r.Ok? <==> Lower(v) in ValidUnits
    ensures r.Ok? ==> r.value == Lower(v)
    ensures r.Err? ==> r.error.ValueError?
  {
    OneOf(v, ValidUnits, "Unit must be one of " + ListRepr(ValidUnits))
  }

  /** `WorkoutPlan.validate_difficulty`. */
  function ValidateDifficulty(v: string): (r: Result<string, PyError>)
    ensures r.Ok? <==> Lower(v) in ValidDifficulties
    ensures r.Ok? ==> r.value == Lower(v)
    ensures r.Err? ==> r.error.ValueError?
  {
    OneOf(v, ValidDifficulties, "Difficulty must be one of " + ListRepr(ValidDifficulties))
  }

  /** A value a membership validator returns is accepted again, unchanged. */
  lemma OneOfIdempotent(v: string, valid: seq<string>, message: string)
    requires OneOf(v, valid, message).Ok?
    ensures OneOf(OneOf(v, valid, message).value, valid, message) == OneOf(v, valid, message)
  {
    LowerIdempotent(v);
  }

  lemma GoalTypeIdempotent(v: string)
    requires ValidateGoalType(v).Ok?
    ensures ValidateGoalType(ValidateGoalType(v).value) == ValidateGoalType(v)
  {
    OneOfIdempotent(v, ValidGoalTypes, "Goal type must be one of " + ListRepr(ValidGoalTypes));
  }

  lemma UnitIdempotent(v: string)
    requires ValidateUnit(v).Ok?
    ensures ValidateUnit(ValidateUnit(v).value) == ValidateUnit(v)
  {
    OneOfIdempotent(v, ValidUnits, "Unit must be one of " + ListRepr(ValidUnits));
  }

  lemma DifficultyIdempotent(v: string)
    requires ValidateDifficulty(v).Ok?
    ensures ValidateDifficulty(ValidateDifficulty(v).value) == ValidateDifficulty(v)
  {
    OneOfIdempotent(v, ValidDifficulties, "Difficulty must be one of " + ListRepr(ValidDifficulties));
  }

  /**
   * `DietaryInput.validate_preferences`: the first invalid preference, in its
   * original spelling, is reported; otherwise the list is lowercased.
   */
  function ValidatePreferences(v: seq<string>): (r: Result<seq<string>, PyError>)
    ensures r.Ok? <==> forall i :: 0 <= i < |v| ==> Lower(v[i]) in ValidPreferences
    ensures r.Ok? ==> |r.value| == |v| && forall i :: 0 <= i < |v| ==> r.value[i] == Lower(v[i])
    ensures r.Err? ==> exists i :: (0 <= i < |v| && Lower(v[i]) !in ValidPreferences
      && r.error == ValueError("Invalid dietary preference: " + v[i])
      && forall j :: 0 <= j < i ==> Lower(v[j]) in ValidPreferences)
  {
    if |v| == 0 then Ok([])
    else if Lower(v[0]) !in ValidPreferences then Err(ValueError("Invalid dietary preference: " + v[0]))
    else
      match ValidatePreferences(v[1..])
      case Err(e) =>
        assert forall i :: 1 <= i < |v| ==> v[1..][i - 1] == v[i];
        Err(e)
      case Ok(rest) =>
        assert forall i :: 1 <= i < |v| ==> v[1..][i - 1] == v[i];
        Ok([Lower(v[0])] + rest)
  }

  /** `DietaryInput`: only the preferences are validated; restrictions and allergies pass through. */
  datatype DietaryInput = DietaryInput(preferences: seq<string>, restrictions: seq<string>, allergies: seq<string>)

  function MakeDietaryInput(preferences: seq<string>, restrictions: seq<string>, allergies: seq<string>)
    : (r: Result<DietaryInput, PyError>)
    ensures r.Ok? <==> ValidatePreferences(preferences).Ok?
    ensures r.Ok? ==> r.value.restrictions == restrictions && r.value.allergies == allergies
    ensures r.Ok? ==> r.value.preferences == ValidatePreferences(preferences).value
  {
    match ValidatePreferences(preferences)
    case Ok(p) => Ok(DietaryInput(p, restrictions, allergies))
    case Err(e) => Err(e)
  }
}
