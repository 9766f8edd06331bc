/**
 * tools/goal_analyzer.py: `GoalAnalyzerTool.run`, which validates a goal
 * string, splits it on whitespace and reads the goal by word position.
 *
 * Python's `float()` and `int()` are modelled on plain decimal numerals (the
 * only words that reach them after validation); the target value is an exact
 * decimal rather than a binary float.
 */
module GoalAnalyzer {
  import opened Wrappers
  import opened PyStrings
  import opened PyValue
  import opened Guardrails

  const InvalidGoalFormat: string := "Invalid goal format. Example: 'lose 5kg in 2 months'"

  function Pow10(n: nat): (r: nat)
    ensures r > 0
  {
    if n == 0 then 1 else 10 * Pow10(n - 1)
  }

  /** `float(w)` for `w` made of digits with an optional `.digits` part. */
  function ParseDecimal(w: string): (r: Option<real>)
    ensures r.Some? ==> DigitRun(w) > 0
  {
    var n := DigitRun(w);
    if n == 0 then None
    else if n == |w| then Some(ParseDigits(w) as real)
    else if w[n] == '.' && n + 1 < |w| && AllDigits(w[n + 1..]) then
      Some(ParseDigits(w[..n]) as real + ParseDigits(w[n + 1..]) as real / Pow10(|w| - n - 1) as real)
    else None
  }

  /** `int(w)` for `w` made of digits. */
  function ParseInt(w: string): (r: Option<nat>)
    ensures r.Some? <==> |w| > 0 && AllDigits(w)
  {
    if |w| > 0 && AllDigits(w) then Some(ParseDigits(w)) else None
  }

  /** The value of an amount written as its digits and its `(\.\d+)?` part. */
  function DecimalValue(whole: string, frac: string): real
    requires AllDigits(whole)
    requires frac == "" || (|frac| >= 2 && frac[0] == '.' && AllDigits(frac[1..]))
  {
    if frac == "" then ParseDigits(whole) as real
    else ParseDigits(whole) as real + ParseDigits(frac[1..]) as real / Pow10(|frac| - 1) as real
  }

  /** `duration * 4 if "month" in period else duration`. */
  function DurationWeeks(count: nat, period: string): nat {
    if Contains(period, "month") then count * 4 else count
  }

  /** `GoalInput(...).dict()`: the record after its field validators ran. */
  function GoalRecord(goalType: string, target: real, unit: string, weeks: nat): (r: Result<Value, PyError>)
    ensures r.Ok? <==> ValidateGoalType(goalType).Ok? && ValidateUnit(unit).Ok?
  {
    match ValidateGoalType(goalType)
    case Err(e) => Err(ValidationError(e.message))
    case Ok(t) =>
      match ValidateUnit(unit)
      case Err(e) => Err(ValidationError(e.message))
      case Ok(u) =>
        Ok(VDict([("goal_type", VStr(t)), ("target_value", VFloat(target)), ("unit", VStr(u)),
                  ("duration_weeks", VInt(weeks))]))
  }

  /** The message of the `ValueError` that `float(w)` raises. */
  function FloatError(w: string): string {
    "could not convert string to float: '" + w + "'"
  }

  /** The message of the `ValueError` that `int(w)` raises. */
  function IntError(w: string): string {
    "invalid literal for int() with base 10: '" + w + "'"
  }

  /** The body of `GoalAnalyzerTool.run` after validation, on the words of the lowercase goal. */
  function Analyze(parts: seq<string>): (r: Result<Value, PyError>)
    ensures |parts| < 2 ==> r == Err(IndexError)
    ensures r.Ok? ==> |parts| >= 6 && ParseDecimal(parts[1]).Some? && ParseInt(parts[4]).Some?
  {
    if |parts| < 2 then Err(IndexError)
    else
      var goalType := if parts[0] == "lose" then "weight_loss" else "muscle_gain";
      match ParseDecimal(parts[1])
      case None => Err(ValueError(FloatError(parts[1])))
      case Some(target) =>
        if |parts| < 5 then Err(IndexError)
        else
          match ParseInt(parts[4])
          case None => Err(ValueError(IntError(parts[4])))
          case Some(duration) =>
            if |parts| < 6 then Err(IndexError)
            else GoalRecord(goalType, target, parts[2], DurationWeeks(duration, parts[5]))
  }

  /** `GoalAnalyzerTool.run`. */
  function Run(goal: string): (r: Result<Value, PyError>)
    ensures !ValidateGoalString(goal) ==> r == Err(ValueError(InvalidGoalFormat))
  {
    if !ValidateGoalString(goal) then Err(ValueError(InvalidGoalFormat))
    else Analyze(Split(Lower(goal)))
  }

  // ---------------------------------------------------------------- the words of an accepted goal string

  /** A whitespace-free, non-empty word, as `split()` returns them. */
  predicate IsWord(s: string) {
    |s| > 0 && forall k :: 0 <= k < |s| ==> !IsSpace(s[k])
  }

  lemma WordAppend(a: string, b: string)
    requires IsWord(a) && IsWord(b)
    ensures IsWord(a + b)
  {
    forall k | 0 <= k < |a + b|
      ensures !IsSpace((a + b)[k])
    {
      if k >= |a| {
        assert (a + b)[k] == b[k - |a|];
      }
    }
  }

  /** The number's text, its digits followed by its fractional part, is one word. */
  lemma AmountWord(whole: string, frac: string)
    requires |whole| > 0 && AllDigits(whole)
    requires frac == "" || (|frac| >= 2 && frac[0] == '.' && AllDigits(frac[1..]))
    ensures IsWord(whole + frac)
  {
    forall k | 0 <= k < |whole + frac|
      ensures !IsSpace((whole + frac)[k])
    {
      if k < |whole| {
        assert (whole + frac)[k] == whole[k];
      } else if k > |whole| {
        assert (whole + frac)[k] == frac[1..][k - |whole| - 1];
      }
    }
  }

  /** What the pattern fixes about the parts up to the unit. */
  lemma HeadParts(parts: seq<string>)
    requires GoalParts(parts)
    ensures parts[0] in ["lose", "gain"] && IsBlank(parts[1]) && |parts[1]| >= 1
    ensures |parts[2]| > 0 && AllDigits(parts[2])
    ensures parts[3] == "" || (|parts[3]| >= 2 && parts[3][0] == '.' && AllDigits(parts[3][1..]))
    ensures IsBlank(parts[4]) && parts[5] in ["kg", "lbs"]
  {
    assert InLang(GoalPattern[0], parts[0]) && InLang(GoalPattern[1], parts[1]);
    assert InLang(GoalPattern[2], parts[2]) && InLang(GoalPattern[3], parts[3]);
    assert InLang(GoalPattern[4], parts[4]) && InLang(GoalPattern[5], parts[5]);
  }

  /** What the pattern fixes about the parts after the unit. */
  lemma TailParts(parts: seq<string>)
    requires GoalParts(parts)
    ensures IsBlank(parts[6]) && |parts[6]| >= 1 && parts[7] == "in"
    ensures IsBlank(parts[8]) && |parts[8]| >= 1 && |parts[9]| > 0 && AllDigits(parts[9])
    ensures IsBlank(parts[10]) && |parts[10]| >= 1 && parts[11] in ["weeks", "week", "months", "month"]
    ensures IsBlank(parts[12])
  {
    assert InLang(GoalPattern[6], parts[6]) && InLang(GoalPattern[7], parts[7]);
    assert InLang(GoalPattern[8], parts[8]) && InLang(GoalPattern[9], parts[9]);
    assert InLang(GoalPattern[10], parts[10]) && InLang(GoalPattern[11], parts[11]);
    assert InLang(GoalPattern[12], parts[12]);
  }

  lemma ConcatHead(parts: seq<string>)
    requires |parts| == 13
    ensures Concat(parts) == parts[0] + (parts[1] + ((parts[2] + parts[3]) + (parts[4] + (parts[5] + Concat(parts[6..])))))
  {
    assert Concat(parts) == parts[0] + Concat(parts[1..]) by {
      ConcatFrom(parts, 0);
      assert parts[0..] == parts;
    }
    assert Concat(parts[1..]) == parts[1] + Concat(parts[2..]) by {
      ConcatFrom(parts, 1);
    }
    assert Concat(parts[2..]) == (parts[2] + parts[3]) + Concat(parts[4..]) by {
      ConcatFrom(parts, 2);
      ConcatFrom(parts, 3);
      Assoc(parts[2], parts[3], Concat(parts[4..]));
    }
    assert Concat(parts[4..]) == parts[4] + Concat(parts[5..]) by {
      ConcatFrom(parts, 4);
    }
    assert Concat(parts[5..]) == parts[5] + Concat(parts[6..]) by {
      ConcatFrom(parts, 5);
    }
  }

  lemma ConcatTail(parts: seq<string>)
    requires |parts| == 13
    ensures Concat(parts[6..]) == parts[6] + (parts[7] + (parts[8] + (parts[9] + (parts[10] + (parts[11] + parts[12])))))
  {
    ConcatFrom(parts, 6);
    ConcatFrom(parts, 7);
    ConcatFrom(parts, 8);
    ConcatFrom(parts, 9);
    ConcatFrom(parts, 10);
    ConcatFrom(parts, 11);
    ConcatFrom(parts, 12);
    assert parts[13..] == [];
  }

  lemma Cons3(a: string, b: string, c: string, t: seq<string>)
    ensures [a] + ([b] + ([c] + t)) == [a, b, c] + t
  {
  }

  lemma Cons2(a: string, b: string, t: seq<string>)
    ensures [a] + ([b] + t) == [a, b] + t
  {
  }

  /** `split()` of a whole word after whitespace, followed by whitespace or nothing. */
  lemma SplitWord(ws: string, tok: string, rest: string)
    requires IsBlank(ws) && IsWord(tok)
    requires |rest| > 0 ==> IsSpace(rest[0])
    ensures Split(ws + (tok + rest)) == [tok] + Split(rest)
  {
    Assoc(ws, tok, rest);
    SplitCons(ws, tok, rest);
  }

  /** `split()` of three words, each after a run of whitespace, with trailing whitespace. */
  lemma SplitThree(a: string, u: string, b: string, v: string, c: string, w: string, e: string)
    requires IsBlank(a) && |a| > 0 && IsWord(u)
    requires IsBlank(b) && |b| > 0 && IsWord(v)
    requires IsBlank(c) && |c| > 0 && IsWord(w) && IsBlank(e)
    ensures Split(a + (u + (b + (v + (c + (w + e)))))) == [u, v, w]
  {
    var r2 := c + (w + e);
    assert Split(r2) == [w] by {
      SplitBlank(e);
      SplitWord(c, w, e);
    }
    var r1 := b + (v + r2);
    assert Split(r1) == [v, w] by {
      assert r2[0] == c[0];
      SplitWord(b, v, r2);
    }
    assert r1[0] == b[0];
    SplitWord(a, u, r1);
  }

  /** `split()` of a verb, whitespace, the amount, whitespace and the unit: three words. */
  lemma SplitHeadApart(verb: string, ws1: string, amount: string, ws2: string, unit: string, tail: string)
    requires IsWord(verb) && IsBlank(ws1) && |ws1| > 0 && IsWord(amount)
    requires IsBlank(ws2) && |ws2| > 0 && IsWord(unit)
    requires |tail| > 0 && IsSpace(tail[0])
    ensures Split(verb + (ws1 + (amount + (ws2 + (unit + tail))))) == [verb, amount, unit] + Split(tail)
  {
    var r3 := ws2 + (unit + tail);
    var r1 := ws1 + (amount + r3);
    assert "" + (verb + r1) == verb + r1;
    assert r3[0] == ws2[0];
    assert r1[0] == ws1[0];
    SplitWord(ws2, unit, tail);
    SplitWord(ws1, amount, r3);
    SplitWord("", verb, r1);
    Cons3(verb, amount, unit, Split(tail));
  }

  /** With no whitespace between the amount and the unit, the two are one word. */
  lemma SplitHeadJoined(verb: string, ws1: string, amount: string, unit: string, tail: string)
    requires IsWord(verb) && IsBlank(ws1) && |ws1| > 0 && IsWord(amount) && IsWord(unit)
    requires |tail| > 0 && IsSpace(tail[0])
    ensures Split(verb + (ws1 + (amount + ("" + (unit + tail))))) == [verb, amount + unit] + Split(tail)
  {
    var r1 := ws1 + (amount + ("" + (unit + tail)));
    assert "" + (verb + r1) == verb + r1;
    assert "" + (unit + tail) == unit + tail;
    Assoc(amount, unit, tail);
    assert r1[0] == ws1[0];
    WordAppend(amount, unit);
    SplitWord(ws1, amount + unit, tail);
    SplitWord("", verb, r1);
    Cons2(verb, amount + unit, Split(tail));
  }

  lemma Concat33(a: seq<string>, b: seq<string>)
    requires |a| == 3 && |b| == 3
    ensures a + b == [a[0], a[1], a[2], b[0], b[1], b[2]]
  {
  }

  lemma Concat23(a: seq<string>, b: seq<string>)
    requires |a| == 2 && |b| == 3
    ensures a + b == [a[0], a[1], b[0], b[1], b[2]]
  {
  }

  /** The pattern's literal alternatives are words. */
  lemma LiteralWords(verb: string, unit: string, period: string)
    requires verb in ["lose", "gain"] && unit in ["kg", "lbs"]
    requires period in ["weeks", "week", "months", "month"]
    ensures IsWord(verb) && IsWord(unit) && IsWord("in") && IsWord(period)
  {
  }

  /** `split()` of the thirteen parts of a match, given what the pattern fixes about each. */
  lemma SplitParts(p0: string, p1: string, p2: string, p3: string, p4: string, p5: string, p6: string,
                   p7: string, p8: string, p9: string, p10: string, p11: string, p12: string)
    requires IsWord(p0) && IsBlank(p1) && |p1| > 0 && IsWord(p2 + p3) && IsBlank(p4) && IsWord(p5)
    requires IsBlank(p6) && |p6| > 0 && IsWord(p7) && IsBlank(p8) && |p8| > 0 && IsWord(p9)
    requires IsBlank(p10) && |p10| > 0 && IsWord(p11) && IsBlank(p12)
    ensures var s := p0 + (p1 + ((p2 + p3) + (p4 + (p5 + (p6 + (p7 + (p8 + (p9 + (p10 + (p11 + p12))))))))));
      (p4 != "" ==> Split(s) == [p0, p2 + p3, p5, p7, p9, p11])
      && (p4 == "" ==> Split(s) == [p0, p2 + p3 + p5, p7, p9, p11])
  {
    var tail := p6 + (p7 + (p8 + (p9 + (p10 + (p11 + p12)))));
    assert tail[0] == p6[0];
    assert Split(tail) == [p7, p9, p11] by {
      SplitThree(p6, p7, p8, p9, p10, p11, p12);
    }
    if p4 != "" {
      SplitHeadApart(p0, p1, p2 + p3, p4, p5, tail);
      Concat33([p0, p2 + p3, p5], [p7, p9, p11]);
    } else {
      SplitHeadJoined(p0, p1, p2 + p3, p5, tail);
      Concat23([p0, p2 + p3 + p5], [p7, p9, p11]);
    }
  }

  /**
   * `goal.lower().split()` on an accepted goal string: six words, or five when
   * no whitespace separates the number from its unit.
   */
  lemma SplitGoal(parts: seq<string>)
    requires GoalParts(parts)
    ensures parts[4] != "" ==>
      Split(Concat(parts)) == [parts[0], parts[2] + parts[3], parts[5], parts[7], parts[9], parts[11]]
    ensures parts[4] == "" ==>
      Split(Concat(parts)) == [parts[0], parts[2] + parts[3] + parts[5], parts[7], parts[9], parts[11]]
  {
    HeadParts(parts);
    TailParts(parts);
    ConcatHead(parts);
    ConcatTail(parts);
    AmountWord(parts[2], parts[3]);
    LiteralWords(parts[0], parts[5], parts[11]);
    SplitParts(parts[0], parts[1], parts[2], parts[3], parts[4], parts[5], parts[6],
               parts[7], parts[8], parts[9], parts[10], parts[11], parts[12]);
  }

  /** `float()` reads the amount's digits and fraction. */
  lemma ParseAmount(whole: string, frac: string)
    requires |whole| > 0 && AllDigits(whole)
    requires frac == "" || (|frac| >= 2 && frac[0] == '.' && AllDigits(frac[1..]))
    ensures ParseDecimal(whole + frac) == Some(DecimalValue(whole, frac))
  {
    var w := whole + frac;
    var n := |whole|;
    if frac == "" {
      assert w == whole;
      DigitPrefix(whole, "");
      assert whole + "" == whole;
    } else {
      DigitPrefix(whole, frac);
      assert w[..n] == whole && w[n] == '.' && w[n + 1..] == frac[1..];
    }
  }

  /** A word that runs a unit into the number is not a decimal numeral. */
  lemma ParseAmountWithUnit(whole: string, frac: string, unit: string)
    requires |whole| > 0 && AllDigits(whole)
    requires frac == "" || (|frac| >= 2 && frac[0] == '.' && AllDigits(frac[1..]))
    requires unit in ["kg", "lbs"]
    ensures ParseDecimal(whole + frac + unit) == None
  {
    var w := whole + frac + unit;
    var n := |whole|;
    assert !IsDigit(unit[0]) && unit[0] != '.';
    if frac == "" {
      assert w == whole + unit;
      DigitPrefix(whole, unit);
      assert w[n] == unit[0];
    } else {
      assert w == whole + (frac + unit);
      DigitPrefix(whole, frac + unit);
      assert w[n] == '.';
      assert w[n + 1..][|w| - |unit| - n - 1] == unit[0];
    }
  }

  lemma DurationOfPeriod(count: nat, period: string)
    requires period in ["weeks", "week", "months", "month"]
    ensures DurationWeeks(count, period) == if period[0] == 'm' then 4 * count else count
  {
    if period[0] == 'm' {
      assert StartsWith(period, "month");
    } else if period == "week" {
      assert !Contains("week", "month");
    } else {
      assert !Contains("weeks", "month");
    }
  }

  /** What `run` returns for a goal string whose lowercase form has these parts. */
  function Expected(parts: seq<string>): Result<Value, PyError>
    requires GoalParts(parts)
  {
    HeadParts(parts);
    TailParts(parts);
    if parts[4] == "" then
      Err(ValueError(FloatError(parts[2] + parts[3] + parts[5])))
    else
      var count := ParseDigits(parts[9]);
      Ok(VDict([
        ("goal_type", VStr(if parts[0] == "lose" then "weight_loss" else "muscle_gain")),
        ("target_value", VFloat(DecimalValue(parts[2], parts[3]))),
        ("unit", VStr(parts[5])),
        ("duration_weeks", VInt(if parts[11][0] == 'm' then 4 * count else count))]))
  }

  lemma GoalTypeAccepted(goalType: string)
    requires goalType in ["weight_loss", "muscle_gain"]
    ensures ValidateGoalType(goalType) == Ok(goalType)
  {
    assert Lower(goalType) == goalType;
  }

  lemma UnitAccepted(unit: string)
    requires unit in ["kg", "lbs"]
    ensures ValidateUnit(unit) == Ok(unit)
  {
    assert Lower(unit) == unit;
  }

  /** The record `run` builds passes its field validators unchanged. */
  lemma GoalRecordAccepted(goalType: string, target: real, unit: string, weeks: nat)
    requires goalType in ["weight_loss", "muscle_gain"] && unit in ["kg", "lbs"]
    ensures GoalRecord(goalType, target, unit, weeks) == Ok(VDict([
              ("goal_type", VStr(goalType)), ("target_value", VFloat(target)), ("unit", VStr(unit)),
              ("duration_weeks", VInt(weeks))]))
  {
    GoalTypeAccepted(goalType);
    UnitAccepted(unit);
  }

  /** Six words whose second and fifth are numerals reach the record's validators. */
  lemma AnalyzeSix(parts: seq<string>, target: real, duration: nat)
    requires |parts| == 6 && ParseDecimal(parts[1]) == Some(target) && ParseInt(parts[4]) == Some(duration)
    ensures Analyze(parts)
      == GoalRecord(if parts[0] == "lose" then "weight_loss" else "muscle_gain", target, parts[2],
                    DurationWeeks(duration, parts[5]))
  {
  }

  /** The five words of a goal whose number runs into the unit. */
  lemma AnalyzeJoined(verb: string, whole: string, frac: string, unit: string, inWord: string,
                      count: string, period: string)
    requires |whole| > 0 && AllDigits(whole)
    requires frac == "" || (|frac| >= 2 && frac[0] == '.' && AllDigits(frac[1..]))
    requires unit in ["kg", "lbs"]
    ensures Analyze([verb, whole + frac + unit, inWord, count, period])
      == Err(ValueError(FloatError(whole + frac + unit)))
  {
    ParseAmountWithUnit(whole, frac, unit);
  }

  /**
   * For every way of reading the lowercase goal as the pattern's parts, the
   * string is accepted and `run` returns the goal type from the verb, the
   * decimal amount, the unit and the count in weeks (times 4 for months) when
   * whitespace separates the number from the unit; otherwise `float()`
   * rejects the word that joins them.
   */
  lemma RunAccepted(goal: string, parts: seq<string>)
    requires GoalParts(parts) && Lower(goal) == Concat(parts)
    ensures ValidateGoalString(goal)
    ensures Run(goal) == Expected(parts)
  {
    GoalStringComplete(goal, parts);
    assert Run(goal) == Analyze(Split(Concat(parts)));
    SplitGoal(parts);
    if parts[4] != "" {
      AnalyzeApartParts(parts);
    } else {
      AnalyzeJoinedParts(parts);
    }
  }

  /** With whitespace between number and unit, the six words give the record. */
  lemma AnalyzeApartParts(parts: seq<string>)
    requires GoalParts(parts) && parts[4] != ""
    ensures Analyze([parts[0], parts[2] + parts[3], parts[5], parts[7], parts[9], parts[11]]) == Expected(parts)
  {
    HeadParts(parts);
    TailParts(parts);
    var words := [parts[0], parts[2] + parts[3], parts[5], parts[7], parts[9], parts[11]];
    var count := ParseDigits(parts[9]);
    ParseAmount(parts[2], parts[3]);
    assert ParseInt(words[4]) == Some(count);
    AnalyzeSix(words, DecimalValue(parts[2], parts[3]), count);
    DurationOfPeriod(count, parts[11]);
    GoalRecordAccepted(if parts[0] == "lose" then "weight_loss" else "muscle_gain",
                       DecimalValue(parts[2], parts[3]), parts[5], DurationWeeks(count, parts[11]));
  }

  /** With the number run into the unit, `float()` rejects the joined word. */
  lemma AnalyzeJoinedParts(parts: seq<string>)
    requires GoalParts(parts) && parts[4] == ""
    ensures Analyze([parts[0], parts[2] + parts[3] + parts[5], parts[7], parts[9], parts[11]]) == Expected(parts)
  {
    HeadParts(parts);
    AnalyzeJoined(parts[0], parts[2], parts[3], parts[5], parts[7], parts[9], parts[11]);
  }

  /** The parts of "lose 5kg in 2 months", read against the pattern. */
  function ExampleParts(): seq<string> {
    ["lose", " ", "5", "", "", "kg", " ", "in", " ", "2", " ", "months", ""]
  }

  lemma ExampleMatches()
    ensures GoalParts(ExampleParts())
    ensures Concat(ExampleParts()) == "lose 5kg in 2 months"
  {
    ExampleInLang();
    ExampleConcat();
  }

  lemma ExampleInLang()
    ensures GoalParts(ExampleParts())
  {
    var parts := ExampleParts();
    forall i | 0 <= i < |GoalPattern|
      ensures InLang(GoalPattern[i], parts[i])
    {
    }
  }

  lemma ExampleConcat()
    ensures Concat(ExampleParts()) == "lose 5kg in 2 months"
  {
    var parts := ExampleParts();
    ConcatHead(parts);
    ExampleTail();
    ExampleHead();
  }

  lemma ExampleTail()
    ensures Concat(ExampleParts()[6..]) == " in 2 months"
  {
    var parts := ExampleParts();
    ConcatTail(parts);
    assert parts[6] + (parts[7] + (parts[8] + (parts[9] + (parts[10] + (parts[11] + parts[12])))))
      == " " + ("in" + (" " + ("2" + (" " + ("months" + "")))));
  }

  lemma ExampleHead()
    ensures "lose" + (" " + (("5" + "") + ("" + ("kg" + " in 2 months")))) == "lose 5kg in 2 months"
  {
  }

  /**
   * The example in the tool's own error message passes validation but is
   * rejected by `run`, because "5kg" is one word.
   */
  lemma ExampleInMessageFails(goal: string)
    requires Lower(goal) == "lose 5kg in 2 months"
    ensures ValidateGoalString(goal)
    ensures Run(goal) == Err(ValueError(FloatError("5kg")))
  {
    ExampleMatches();
    RunAccepted(goal, ExampleParts());
    ExampleRejected();
  }

  lemma ExampleRejected()
    ensures Expected(ExampleParts()) == Err(ValueError(FloatError("5kg")))
  {
    ExampleInLang();
    var parts := ExampleParts();
    assert parts[4] == "" && parts[2] + parts[3] + parts[5] == "5kg";
  }
}
