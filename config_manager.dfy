/**
 * `ConfigManager` (utils/agent_utils.py): a nested configuration dictionary
 * read and written through dotted keys such as "model.default_model".
 *
 * The configuration is the manager's own value; the source walks and
 * mutates nested dicts in place, which here is one value rebuilt along the
 * key path.
 */
module ConfigManager {
  import opened Wrappers
  import opened PyStrings
  import opened PyValue

  const DefaultModel: string := "mistralai/mistral-7b-instruct:free"
  const AvailableModelNames: seq<string> := [
    "mistralai/mistral-7b-instruct:free", "meta-llama/llama-2-13b-chat:free",
    "openchat/openchat-7b:free", "phind/phind-codellama-34b:free"]

  /** `ConfigManager.DEFAULT_CONFIG`. */
  const DefaultConfig: Value := VDict([
    ("model", VDict([
      ("provider", VStr("openrouter")),
      ("available_models", VList([VStr(AvailableModelNames[0]), VStr(AvailableModelNames[1]),
                                  VStr(AvailableModelNames[2]), VStr(AvailableModelNames[3])])),
      ("default_model", VStr(DefaultModel)),
      ("temperature", VFloat(0.7)),
      ("max_tokens", VInt(500))])),
    ("openrouter", VDict([
      ("api_key", VNone),
      ("api_base", VStr("https://openrouter.ai/api/v1")),
      ("referer", VStr("https://github.com/OpenRouterTeam/openrouter-python")),
      ("headers", VDict([
        ("HTTP-Referer", VStr("https://github.com/OpenRouterTeam/openrouter-python")),
        ("X-Title", VStr("Health Agent"))]))])),
    ("response_limits", VDict([("max_retries", VInt(3)), ("timeout", VInt(30))])),
    ("features", VDict([
      ("meal_planning", VBool(true)), ("workout_planning", VBool(true)),
      ("goal_setting", VBool(true)), ("progress_tracking", VBool(true))]))])

  // ---------------------------------------------------------------- reading

  /** The value at the end of the key path, if every key is present in a dict. */
  function Walk(v: Value, ks: seq<string>): Option<Value>
    decreases |ks|
  {
    if |ks| == 0 then Some(v)
    else if v.VDict? && DictHas(v.entries, ks[0]) then Walk(DictGet(v.entries, ks[0]).value, ks[1..])
    else None
  }

  /** What `get` returns for the key path `ks`. */
  function Lookup(v: Value, ks: seq<string>, default: Value): (r: Value)
    ensures Walk(v, ks).Some? ==> r == Walk(v, ks).value
    ensures Walk(v, ks).None? ==> r == default
    decreases |ks|
  {
    if |ks| == 0 then v
    else if v.VDict? && DictHas(v.entries, ks[0]) then Lookup(DictGet(v.entries, ks[0]).value, ks[1..], default)
    else default
  }

  /** One step of `get`'s loop: descend into the first key, or give up with the default. */
  lemma LookupStep(v: Value, ks: seq<string>, default: Value)
    requires |ks| > 0
    ensures Lookup(v, ks, default)
      == if v.VDict? && DictHas(v.entries, ks[0]) then Lookup(DictGet(v.entries, ks[0]).value, ks[1..], default) else default
  {
  }

  /** Walking a longer path goes through the node at the end of its prefix. */
  lemma {:induction false} WalkPrefix(v: Value, ks: seq<string>, j: nat)
    requires j <= |ks|
    ensures Walk(v, ks) == if Walk(v, ks[..j]).Some? then Walk(Walk(v, ks[..j]).value, ks[j..]) else None
    decreases j
  {
    if j > 0 {
      assert ks[..j][1..] == ks[1..][..j - 1];
      assert ks[j..] == ks[1..][j - 1..];
      if v.VDict? && DictHas(v.entries, ks[0]) {
        WalkPrefix(DictGet(v.entries, ks[0]).value, ks[1..], j - 1);
      }
    }
  }

  /**
   * `get` returns the default as soon as a key is missing or a value that is
   * not a dict is reached, whatever the rest of the path.
   */
  lemma LookupStops(v: Value, ks: seq<string>, j: nat, default: Value)
    requires j < |ks| && Walk(v, ks[..j]).Some?
    requires var n := Walk(v, ks[..j]).value; !n.VDict? || !DictHas(n.entries, ks[j])
    ensures Lookup(v, ks, default) == default
  {
    WalkPrefix(v, ks, j);
  }

  // ---------------------------------------------------------------- writing

  /** A chain of single-key dicts along `ks` ending in `x`. */
  function Nested(ks: seq<string>, x: Value): Value
    decreases |ks|
  {
    if |ks| == 0 then x else VDict([(ks[0], Nested(ks[1..], x))])
  }

  /**
   * What `set` does to the configuration: each missing key before the last
   * becomes an empty dict, and the last key is assigned. Reaching a value
   * that is not a dict raises `TypeError` (its `in` test or its item
   * assignment fails), before anything was created.
   */
  function SetPath(v: Value, ks: seq<string>, x: Value): (r: Result<Value, PyError>)
    requires |ks| >= 1
    ensures r.Err? ==> r.error == TypeError
    ensures r.Ok? ==> r.value.VDict? && v.VDict?
    ensures r.Ok? ==> Keys(r.value.entries) == if ks[0] in Keys(v.entries) then Keys(v.entries) else Keys(v.entries) + [ks[0]]
    decreases |ks|
  {
    if !v.VDict? then Err(TypeError)
    else
      var es := v.entries;
      DictPutKeys(es, ks[0], x);
      if |ks| == 1 then Ok(VDict(DictPut(es, ks[0], x)))
      else
        var child := if DictHas(es, ks[0]) then DictGet(es, ks[0]).value else VDict([]);
        match SetPath(child, ks[1..], x)
        case Err(e) => Err(e)
        case Ok(c) =>
          DictPutKeys(es, ks[0], c);
          Ok(VDict(DictPut(es, ks[0], c)))
  }

  /** `get(k)` after a successful `set(k, x)` returns `x`. */
  lemma {:induction false} GetAfterSet(v: Value, ks: seq<string>, x: Value, default: Value)
    requires |ks| >= 1 && SetPath(v, ks, x).Ok?
    ensures Lookup(SetPath(v, ks, x).value, ks, default) == x
    decreases |ks|
  {
    var es := v.entries;
    SetOwnKey(es, ks, x);
    if |ks| > 1 {
      var child := if DictHas(es, ks[0]) then DictGet(es, ks[0]).value else VDict([]);
      GetAfterSet(child, ks[1..], x, default);
    }
  }

  /** After `set`, the first key holds the value or the updated child dict. */
  lemma SetOwnKey(es: seq<(string, Value)>, ks: seq<string>, x: Value)
    requires |ks| >= 1 && SetPath(VDict(es), ks, x).Ok?
    ensures var child := if DictHas(es, ks[0]) then DictGet(es, ks[0]).value else VDict([]);
      DictGet(SetPath(VDict(es), ks, x).value.entries, ks[0])
      == Some(if |ks| == 1 then x else SetPath(child, ks[1..], x).value)
  {
    if |ks| == 1 {
      DictGetPut(es, ks[0], x, ks[0]);
    } else {
      var child := if DictHas(es, ks[0]) then DictGet(es, ks[0]).value else VDict([]);
      DictGetPut(es, ks[0], SetPath(child, ks[1..], x).value, ks[0]);
    }
  }

  /** Two key paths that differ at some position before either ends. */
  predicate Diverge(ks: seq<string>, ks2: seq<string>)
    decreases |ks|
  {
    |ks| > 0 && |ks2| > 0 && (ks[0] != ks2[0] || Diverge(ks[1..], ks2[1..]))
  }

  /** `set` leaves every key path that branches off its own unchanged. */
  lemma {:induction false} SetLeavesOthers(v: Value, ks: seq<string>, ks2: seq<string>, x: Value, default: Value)
    requires |ks| >= 1 && SetPath(v, ks, x).Ok? && Diverge(ks, ks2)
    ensures Lookup(SetPath(v, ks, x).value, ks2, default) == Lookup(v, ks2, default)
    decreases |ks|
  {
    var es := v.entries;
    if ks2[0] == ks[0] {
      assert |ks| >= 2 by {
        assert Diverge(ks[1..], ks2[1..]);
      }
      SetLeavesDeeper(es, ks, ks2, x, default);
    } else {
      SetOtherKey(es, ks, x, ks2[0]);
    }
  }

  /** `set` rewrites only the entry of its first key. */
  lemma SetOtherKey(es: seq<(string, Value)>, ks: seq<string>, x: Value, k2: string)
    requires |ks| >= 1 && SetPath(VDict(es), ks, x).Ok? && k2 != ks[0]
    ensures DictGet(SetPath(VDict(es), ks, x).value.entries, k2) == DictGet(es, k2)
  {
    if |ks| == 1 {
      DictGetPut(es, ks[0], x, k2);
    } else {
      var child := if DictHas(es, ks[0]) then DictGet(es, ks[0]).value else VDict([]);
      DictGetPut(es, ks[0], SetPath(child, ks[1..], x).value, k2);
    }
  }

  /** The case of `SetLeavesOthers` where both paths start with the same key. */
  lemma {:induction false} SetLeavesDeeper(es: seq<(string, Value)>, ks: seq<string>, ks2: seq<string>, x: Value, default: Value)
    requires |ks| >= 2 && |ks2| >= 1 && ks2[0] == ks[0] && Diverge(ks[1..], ks2[1..])
    requires SetPath(VDict(es), ks, x).Ok?
    ensures Lookup(SetPath(VDict(es), ks, x).value, ks2, default) == Lookup(VDict(es), ks2, default)
    decreases |ks|, 0
  {
    var child := if DictHas(es, ks[0]) then DictGet(es, ks[0]).value else VDict([]);
    SetOwnKey(es, ks, x);
    SetLeavesOthers(child, ks[1..], ks2[1..], x, default);
    if !DictHas(es, ks[0]) {
      EmptyLookup(ks2[1..], default);
    }
  }

  /** Every non-empty path is missing from an empty dict. */
  lemma EmptyLookup(ks: seq<string>, default: Value)
    requires |ks| > 0
    ensures Lookup(VDict([]), ks, default) == default
  {
  }

  /** `set` into an empty dict builds the chain of dicts along the path. */
  lemma {:induction false} SetEmpty(ks: seq<string>, x: Value)
    requires |ks| >= 1
    ensures SetPath(VDict([]), ks, x) == Ok(Nested(ks, x))
    decreases |ks|
  {
    if |ks| > 1 {
      SetEmpty(ks[1..], x);
    } else {
      assert ks[1..] == [];
    }
  }

  lemma DictPutMissing(es: seq<(string, Value)>, k: string, x: Value)
    requires !DictHas(es, k)
    ensures DictPut(es, k, x) == es + [(k, x)]
    decreases |es|
  {
    if |es| > 0 {
      DictPutMissing(es[1..], k, x);
      assert es == [es[0]] + es[1..];
    }
  }

  /**
   * `set` with a first key the dict lacks appends that key, holding the
   * missing intermediate dicts down to the assigned value.
   */
  lemma SetCreatesPath(es: seq<(string, Value)>, ks: seq<string>, x: Value)
    requires |ks| >= 1 && !DictHas(es, ks[0])
    ensures SetPath(VDict(es), ks, x) == Ok(VDict(es + [(ks[0], Nested(ks[1..], x))]))
  {
    if |ks| > 1 {
      SetEmpty(ks[1..], x);
    } else {
      assert ks[1..] == [];
    }
    DictPutMissing(es, ks[0], Nested(ks[1..], x));
  }

  /** `set` fails when the path reaches a value that is not a dict before its last key. */
  lemma {:induction false} SetBlocked(v: Value, ks: seq<string>, j: nat, x: Value)
    requires j < |ks| && Walk(v, ks[..j]).Some? && !Walk(v, ks[..j]).value.VDict?
    ensures SetPath(v, ks, x) == Err(TypeError)
    decreases j
  {
    if j > 0 {
      assert ks[..j][1..] == ks[1..][..j - 1];
      SetBlocked(DictGet(v.entries, ks[0]).value, ks[1..], j - 1, x);
    }
  }

  // ---------------------------------------------------------------- the manager

  /** `config["model"]["available_models"]`. */
  function AvailableModels(config: Value): Result<Value, PyError> {
    match Subscript(config, "model")
    case Err(e) => Err(e)
    case Ok(m) => Subscript(m, "available_models")
  }

  /** `config["model"]["default_model"]`. */
  function CurrentModel(config: Value): Result<Value, PyError> {
    match Subscript(config, "model")
    case Err(e) => Err(e)
    case Ok(m) => Subscript(m, "default_model")
  }

  /** The default configuration offers its own default model. */
  lemma DefaultModelAvailable()
    ensures CurrentModel(DefaultConfig) == Ok(VStr(DefaultModel))
    ensures AvailableModels(DefaultConfig).Ok?
    ensures StrIn(DefaultModel, AvailableModels(DefaultConfig).value) == Ok(true)
  {
    var m := DefaultConfig.entries[0].1;
    assert DictGet(DefaultConfig.entries, "model") == Some(m);
    assert DictGet(m.entries, "available_models") == Some(m.entries[1].1);
    assert DictGet(m.entries[2..], "default_model") == Some(VStr(DefaultModel));
    assert m.entries[1].0 != "default_model";
    assert DictGet(m.entries[1..], "default_model") == Some(VStr(DefaultModel));
    assert m.entries[0].0 != "default_model";
    assert DictGet(m.entries, "default_model") == Some(VStr(DefaultModel));
    assert m.entries[1].1.items[0] == VStr(DefaultModel);
  }

  class ConfigManager {
    var config: Value

    /** A manager holding the default configuration (file, environment and client setup are not modelled). */
    constructor ()
      ensures config == DefaultConfig
    {
      config := DefaultConfig;
    }

    /** `get`: follows the dotted key through nested dicts, or returns the default. */
    method Get(key: string, default: Value) returns (r: Value)
      ensures r == Lookup(config, SplitOn(key, '.'), default)
    {
      var keys := SplitOn(key, '.');
      var value := config;
      var i := 0;
      while i < |keys|
        invariant 0 <= i <= |keys|
        invariant Lookup(config, keys, default) == Lookup(value, keys[i..], default)
      {
        var k := keys[i];
        LookupStep(value, keys[i..], default);
        assert keys[i..][1..] == keys[i + 1..];
        if value.VDict? && DictHas(value.entries, k) {
          value := DictGet(value.entries, k).value;
        } else {
          return default;
        }
        i := i + 1;
      }
      assert keys[i..] == [];
      return value;
    }

    /**
     * `set`: on success the configuration becomes `SetPath` of the old one;
     * on `TypeError` it is unchanged.
     */
    method Set(key: string, value: Value) returns (error: Option<PyError>)
      modifies this
      ensures var res := SetPath(old(config), SplitOn(key, '.'), value);
        (res.Ok? ==> error.None? && config == res.value)
        && (res.Err? ==> error == Some(TypeError) && config == old(config))
    {
      var res := SetPath(config, SplitOn(key, '.'), value);
      if res.Ok? {
        config := res.value;
        error := None;
      } else {
        error := Some(res.error);
      }
    }

    /**
     * `set_model`: a listed name becomes the default model and the result is
     * true; otherwise the result is false and nothing changes. A configuration
     * without the model section raises.
     */
    method SetModel(name: string) returns (r: Result<bool, PyError>)
      modifies this
      ensures AvailableModels(old(config)).Err? ==> r == Err(AvailableModels(old(config)).error)
      ensures AvailableModels(old(config)).Ok? ==>
        r == StrIn(name, AvailableModels(old(config)).value)
      ensures r == Ok(true) ==>
        config == SetPath(old(config), ["model", "default_model"], VStr(name)).value
        && CurrentModel(config) == Ok(VStr(name))
      ensures r != Ok(true) ==> config == old(config)
    {
      var available := AvailableModels(config);
      if available.Err? {
        return Err(available.error);
      }
      r := StrIn(name, available.value);
      if r == Ok(true) {
        var res := SetPath(config, ["model", "default_model"], VStr(name));
        ModelSectionSet(config, name);
        config := res.value;
      }
    }
  }

  /** With a model section present, assigning `default_model` succeeds and reads back. */
  lemma ModelSectionSet(config: Value, name: string)
    requires AvailableModels(config).Ok?
    ensures SetPath(config, ["model", "default_model"], VStr(name)).Ok?
    ensures CurrentModel(SetPath(config, ["model", "default_model"], VStr(name)).value) == Ok(VStr(name))
  {
    var ks := ["model", "default_model"];
    var m := DictGet(config.entries, "model").value;
    assert ks[1..] == ["default_model"];
    var res := SetPath(config, ks, VStr(name));
    assert res.Ok?;
    GetAfterSet(config, ks, VStr(name), VNone);
    var w := res.value;
    DictGetPut(config.entries, "model", VDict(DictPut(m.entries, "default_model", VStr(name))), "model");
    DictGetPut(m.entries, "default_model", VStr(name), "default_model");
  }
}
