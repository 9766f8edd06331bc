/**
 * `MessageClassifier.classify_message` (utils/agent_utils.py): keyword
 * routing over the lowercased message, by substring, where the first
 * category with a matching keyword wins.
 */
module MessageClassifier {
  import opened PyStrings

  const GoalKeywords: seq<string> := ["goal", "target", "objective", "want to", "trying to", "aim to", "hope to"]
  const NutritionKeywords: seq<string> :=
    ["meal", "food", "diet", "nutrition", "eat", "recipe", "calories", "diabetic", "allergy"]
  const FitnessKeywords: seq<string> :=
    ["workout", "exercise", "fitness", "training", "gym", "cardio", "strength", "muscle"]
  const ProgressKeywords: seq<string> := ["progress", "track", "check-in", "update", "how am i doing", "results"]
  const InjuryKeywords: seq<string> := ["injury", "pain", "hurt", "sore", "strain", "sprain", "recovery", "medical"]
  const HealthKeywords: seq<string> := ["health", "wellness", "healthy", "tips", "advice", "help"]

  /** Python `any(keyword in text for keyword in keywords)`. */
  function AnyIn(keywords: seq<string>, text: string): (r: bool)
    ensures r <==> exists k :: 0 <= k < |keywords| && Contains(text, keywords[k])
  {
    if |keywords| == 0 then false
    else
      assert forall k :: 1 <= k < |keywords| ==> keywords[k] == keywords[1..][k - 1];
      Contains(text, keywords[0]) || AnyIn(keywords[1..], text)
  }

  /** The categories in the order they are tested, with their keywords. */
  const Categories: seq<(string, seq<string>)> := [
    ("goal", GoalKeywords), ("nutrition", NutritionKeywords), ("fitness", FitnessKeywords),
    ("progress", ProgressKeywords), ("injury", InjuryKeywords), ("health", HealthKeywords)]

  /**
   * `classify_message`: the tests in source order, each an `any(...)` over
   * one category's keywords, written as a first match over `Categories`.
   */
  function ClassifyMessage(message: string): (r: string)
    ensures r == "general" || exists j :: 0 <= j < |Categories| && r == Categories[j].0
  {
    FirstMatch(Categories, Lower(message))
  }

  /** The category of the first row of `table` whose keywords occur in `text`. */
  function FirstMatch(table: seq<(string, seq<string>)>, text: string): (r: string)
    ensures r == "general" || exists j :: 0 <= j < |table| && r == table[j].0
    decreases |table|
  {
    if |table| == 0 then "general"
    else if AnyIn(table[0].1, text) then table[0].0
    else FirstMatch(table[1..], text)
  }

  /** No row before row `i` matches. */
  predicate NoEarlierMatch(table: seq<(string, seq<string>)>, text: string, i: nat)
    requires i <= |table|
  {
    forall j :: 0 <= j < i ==> !AnyIn(table[j].1, text)
  }

  /** No row before `i` matches iff the first does not and no row of the tail before `i - 1` does. */
  lemma NoEarlierMatchTail(table: seq<(string, seq<string>)>, text: string, i: nat)
    requires 0 < i <= |table|
    ensures NoEarlierMatch(table, text, i) <==> !AnyIn(table[0].1, text) && NoEarlierMatch(table[1..], text, i - 1)
  {
    assert forall j :: 1 <= j < i ==> table[j] == table[1..][j - 1];
  }

  /** `FirstMatch` returns a row's label only when that row matches and no earlier row does. */
  lemma {:induction false} FirstMatchIs(table: seq<(string, seq<string>)>, text: string, i: nat)
    requires i < |table|
    requires forall j :: 0 <= j < |table| ==> table[j].0 != "general"
    requires forall j, l :: 0 <= j < l < |table| ==> table[j].0 != table[l].0
    ensures FirstMatch(table, text) == table[i].0 <==> AnyIn(table[i].1, text) && NoEarlierMatch(table, text, i)
    decreases i
  {
    if AnyIn(table[0].1, text) {
      if i > 0 {
        assert table[0].0 != table[i].0;
        assert !NoEarlierMatch(table, text, i);
      }
    } else if |table| == 1 {
      assert FirstMatch(table, text) == "general";
    } else if i == 0 {
      TailLabelNotFirst(table, text);
    } else {
      var tail := table[1..];
      assert forall j :: 0 <= j < |tail| ==> tail[j] == table[j + 1];
      FirstMatchIs(tail, text, i - 1);
      NoEarlierMatchTail(table, text, i);
      assert tail[i - 1] == table[i];
    }
  }

  /** What the rows after the first return is never the first row's label. */
  lemma TailLabelNotFirst(table: seq<(string, seq<string>)>, text: string)
    requires |table| > 1
    requires forall j :: 0 <= j < |table| ==> table[j].0 != "general"
    requires forall j, l :: 0 <= j < l < |table| ==> table[j].0 != table[l].0
    ensures FirstMatch(table[1..], text) != table[0].0
  {
    var r := FirstMatch(table[1..], text);
    if r != "general" {
      var j :| 0 <= j < |table| - 1 && r == table[1..][j].0;
      assert r == table[j + 1].0;
    }
  }

  /** `FirstMatch` falls through to "general" exactly when no row matches. */
  lemma {:induction false} FirstMatchGeneral(table: seq<(string, seq<string>)>, text: string)
    requires forall j :: 0 <= j < |table| ==> table[j].0 != "general"
    ensures FirstMatch(table, text) == "general" <==> forall j :: 0 <= j < |table| ==> !AnyIn(table[j].1, text)
    decreases |table|
  {
    if |table| > 0 && !AnyIn(table[0].1, text) {
      FirstMatchGeneral(table[1..], text);
      assert forall j :: 1 <= j < |table| ==> table[j] == table[1..][j - 1];
    }
  }

  /** The labels of `Categories` are distinct and none is "general". */
  lemma CategoriesDistinct()
    ensures forall j :: 0 <= j < |Categories| ==> Categories[j].0 != "general"
    ensures forall j, l :: 0 <= j < l < |Categories| ==> Categories[j].0 != Categories[l].0
  {
  }

  /**
   * The message gets category `i` exactly when a keyword of that category is
   * a substring of the lowercased message and no keyword of an earlier
   * category is.
   */
  lemma ClassifyFirstCategory(message: string, i: nat)
    requires i < |Categories|
    ensures ClassifyMessage(message) == Categories[i].0
      <==> (exists k :: 0 <= k < |Categories[i].1| && Contains(Lower(message), Categories[i].1[k]))
           && forall j :: 0 <= j < i ==> !AnyIn(Categories[j].1, Lower(message))
  {
    CategoriesDistinct();
    FirstMatchIs(Categories, Lower(message), i);
  }

  /** "general" is returned exactly when no keyword of any category occurs. */
  lemma ClassifyGeneral(message: string)
    ensures ClassifyMessage(message) == "general"
      <==> forall j, k :: 0 <= j < |Categories| && 0 <= k < |Categories[j].1| ==> !Contains(Lower(message), Categories[j].1[k])
  {
    CategoriesDistinct();
    FirstMatchGeneral(Categories, Lower(message));
  }

  /** Classification ignores case. */
  lemma ClassifyIgnoresCase(message: string)
    ensures ClassifyMessage(Lower(message)) == ClassifyMessage(message)
  {
    LowerIdempotent(message);
  }

  /** Matching is by substring: "great" is about nutrition because it contains "eat". */
  lemma GreatIsNutrition()
    ensures ClassifyMessage("great") == "nutrition"
  {
    LowerGreat();
    GreatHasEat();
    GreatHasNoGoalKeyword();
    assert Categories[0].1 == GoalKeywords && Categories[1].1 == NutritionKeywords;
    ClassifyFirstCategory("great", 1);
  }

  lemma LowerGreat()
    ensures Lower("great") == "great"
  {
  }

  lemma GreatHasEat()
    ensures AnyIn(NutritionKeywords, "great")
  {
    var s := "great";
    assert OccursAt(s, "eat", 2);
    ContainsAt(s, "eat");
    assert Contains(s, NutritionKeywords[4]);
  }

  lemma GreatHasNoGoalKeyword()
    ensures !AnyIn(GoalKeywords, "great")
  {
    var s := "great";
    var ks := GoalKeywords;
    forall k | 0 <= k < |ks|
      ensures !Contains(s, ks[k])
    {
      if k == 0 {
        MissingChar(s, ks[k], 1);
      } else if k == 1 {
        ContainsAt(s, ks[k]);
      } else if k == 2 || k == 3 || k == 6 {
        MissingChar(s, ks[k], 0);
      } else if k == 4 {
        MissingChar(s, ks[k], 2);
      } else {
        MissingChar(s, ks[k], 1);
      }
    }
  }
}
