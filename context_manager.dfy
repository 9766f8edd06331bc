/**
 * `ContextManager` (utils/agent_utils.py): a key/value context and a
 * bounded history of interactions, rendered as a prompt prefix.
 */
module ContextManager {
  import opened PyStrings
  import opened PyValue

  const MaxHistory: nat := 50
  const PreviewLength: nat := 100
  const RecentHeader: string := "Recent conversation:\n"

  /** One history entry; the timestamp is the caller's ISO-formatted clock reading. */
  datatype Interaction = Interaction(message: string, response: string, timestamp: string)

  /** Only the newest `MaxHistory` interactions are kept, oldest first. */
  function KeepRecent(h: seq<Interaction>): (r: seq<Interaction>)
    ensures |r| <= MaxHistory && |r| <= |h|
    ensures r == h[|h| - |r|..]
    ensures |h| <= MaxHistory ==> r == h
    ensures |h| > MaxHistory ==> |r| == MaxHistory
  {
    if |h| > MaxHistory then SliceFrom(h, -(MaxHistory as int)) else h
  }

  /**
   * Adding to a history within the bound appends the new entry, dropping the
   * oldest one exactly when the history was full.
   */
  lemma AddDropsOldest(h: seq<Interaction>, e: Interaction)
    requires |h| <= MaxHistory
    ensures KeepRecent(h + [e]) == if |h| < MaxHistory then h + [e] else h[1..] + [e]
  {
    if |h| == MaxHistory {
      assert (h + [e])[1..] == h[1..] + [e];
    }
  }

  /** The rendering of one interaction, with both texts cut to 100 characters. */
  function RenderEntry(e: Interaction): (r: string)
    ensures |r| == 26 + |Take(e.message, PreviewLength)| + |Take(e.response, PreviewLength)|
    ensures |r| <= 226
  {
    "User: " + Take(e.message, PreviewLength) + "...\n"
    + "Assistant: " + Take(e.response, PreviewLength) + "...\n\n"
  }

  function RenderAll(es: seq<Interaction>): string
    decreases |es|
  {
    if |es| == 0 then "" else RenderAll(es[..|es| - 1]) + RenderEntry(es[|es| - 1])
  }

  /** The interactions `get_recent_context(limit)` shows: Python's `history[-limit:]`. */
  function RecentEntries(h: seq<Interaction>, limit: int): seq<Interaction> {
    SliceFrom(h, -limit)
  }

  /**
   * A positive limit shows the newest `limit` interactions (all when there
   * are fewer); a limit of 0 shows the whole history, because `-0` is `0`;
   * a negative limit drops that many of the oldest.
   */
  lemma RecentEntriesAre(h: seq<Interaction>, limit: int)
    ensures limit > 0 ==> RecentEntries(h, limit) == h[|h| - Min(limit, |h|)..]
    ensures limit == 0 ==> RecentEntries(h, limit) == h
    ensures limit < 0 ==> RecentEntries(h, limit) == h[Min(-limit, |h|)..]
  {
  }

  function Min(a: int, b: int): int {
    if a < b then a else b
  }

  /** `get_recent_context`: empty without history, otherwise the header and one block per recent interaction. */
  function RecentContext(h: seq<Interaction>, limit: int): string {
    if |h| == 0 then "" else RecentHeader + RenderAll(RecentEntries(h, limit))
  }

  /** Each block is at most 226 characters, however long the messages are. */
  lemma {:induction false} RenderAllBound(es: seq<Interaction>)
    ensures |RenderAll(es)| <= 226 * |es|
    decreases |es|
  {
    if |es| > 0 {
      RenderAllBound(es[..|es| - 1]);
    }
  }

  /** The recent context is bounded by the number of interactions it shows. */
  lemma RecentContextBound(h: seq<Interaction>, limit: int)
    ensures |RecentContext(h, limit)| <= |RecentHeader| + 226 * |RecentEntries(h, limit)|
    ensures |h| > 0 ==> RecentContext(h, limit)[..|RecentHeader|] == RecentHeader
  {
    RenderAllBound(RecentEntries(h, limit));
  }

  lemma RenderAllAppend(es: seq<Interaction>, i: nat)
    requires i < |es|
    ensures RenderAll(es[..i + 1]) == RenderAll(es[..i]) + RenderEntry(es[i])
  {
    assert es[..i + 1][..i] == es[..i];
  }

  class ContextManager {
    var context: seq<(string, Value)>
    var history: seq<Interaction>

    /** The history never holds more than 50 interactions. */
    predicate Valid()
      reads this
    {
      |history| <= MaxHistory
    }

    constructor ()
      ensures context == [] && history == [] && Valid()
    {
      context := [];
      history := [];
    }

    /** `update_context`: assigns the key in the context dict. */
    method UpdateContext(key: string, value: Value)
      modifies this
      ensures context == DictPut(old(context), key, value)
      ensures history == old(history)
    {
      context := DictPut(context, key, value);
    }

    /** `get_context`: the key's value, or the default. */
    function GetContext(key: string, default: Value): Value
      reads this
    {
      GetOr(context, key, default)
    }

    /** `add_to_history`: appends the interaction and keeps the newest 50. */
    method AddToHistory(message: string, response: string, timestamp: string)
      requires Valid()
      modifies this
      ensures Valid()
      ensures history == KeepRecent(old(history) + [Interaction(message, response, timestamp)])
      ensures context == old(context)
    {
      history := history + [Interaction(message, response, timestamp)];
      if |history| > MaxHistory {
        history := SliceFrom(history, -(MaxHistory as int));
      }
    }

    /** `get_recent_context`: built block by block as the source does. */
    method GetRecentContext(limit: int) returns (r: string)
      ensures r == RecentContext(history, limit)
    {
      if |history| == 0 {
        return "";
      }
      var recent := RecentEntries(history, limit);
      r := RecentHeader;
      var i := 0;
      while i < |recent|
        invariant 0 <= i <= |recent|
        invariant r == RecentHeader + RenderAll(recent[..i])
      {
        RenderAllAppend(recent, i);
        Assoc(RecentHeader, RenderAll(recent[..i]), RenderEntry(recent[i]));
        r := r + RenderEntry(recent[i]);
        i := i + 1;
      }
      assert recent[..i] == recent;
    }
  }

  /** `get_context` after `update_context` reads the new value for that key and the old value for every other key. */
  lemma GetAfterUpdate(context: seq<(string, Value)>, key: string, value: Value, k2: string, default: Value)
    ensures GetOr(DictPut(context, key, value), k2, default) == if k2 == key then value else GetOr(context, k2, default)
  {
    DictGetPut(context, key, value, k2);
  }
}
