/**
 * Python values as the modelled code sees them: JSON-like payloads (tool
 * results, plans, configuration) with Python's truthiness, `str()` and `repr()`,
 * and dictionaries that keep insertion order.
 */
module PyValue {
  import opened Wrappers
  import opened PyStrings

  /**
   * A Python value. A dict is its list of (key, value) pairs in insertion
   * order; keys are strings, as in JSON objects.
   */
  datatype Value =
    | VNone
    | VBool(b: bool)
    | VInt(i: int)
    | VFloat(r: real)
    | VStr(s: string)
    | VList(items: seq<Value>)
    | VDict(entries: seq<(string, Value)>)

  /** The exceptions the modelled code can raise. */
  datatype PyError =
    | KeyError(key: string)
    | TypeError
    | AttributeError
    | ValueError(message: string)
    | IndexError
    | ValidationError(message: string)

  /** Python's `bool(v)`. */
  predicate Truthy(v: Value) {
    match v
    case VNone => false
    case VBool(b) => b
    case VInt(i) => i != 0
    case VFloat(r) => r != 0.0
    case VStr(s) => s != ""
    case VList(xs) => xs != []
    case VDict(es) => es != []
  }

  // ---------------------------------------------------------------- rendering

  /** Python `str(v)`: a string is itself, everything else is its `repr`. */
  function Str(v: Value): string {
    if v.VStr? then v.s else Repr(v)
  }

  /** Python `repr(v)`; strings are always quoted with `'` and never escaped. */
  function Repr(v: Value): string {
    match v
    case VNone => "None"
    case VBool(b) => if b then "True" else "False"
    case VInt(i) => IntToString(i)
    case VFloat(r) => FloatRepr(r)
    case VStr(s) => "'" + s + "'"
    case VList(xs) => "[" + Join(", ", seq(|xs|, i requires 0 <= i < |xs| => Repr(xs[i]))) + "]"
    case VDict(es) =>
      "{" + Join(", ", seq(|es|, i requires 0 <= i < |es| => "'" + es[i].0 + "': " + Repr(es[i].1))) + "}"
  }

  /**
   * Python `repr(float)` for a value written with at most 17 decimals and below
   * 10**16: the integer part, a point, and the decimals without trailing zeros
   * (at least one digit).
   */
  function FloatRepr(r: real): (s: string)
    ensures HasChar(s, '.')
  {
    var a := if r < 0.0 then -r else r;
    var ip := a.Floor;
    var sign := if r < 0.0 then "-" else "";
    var digits := NatToString(ip);
    var s := sign + digits + "." + FracDigits(a - ip as real, 17);
    assert s[|sign| + |digits|] == '.';
    s
  }

  function FracDigits(f: real, n: nat): (s: string)
    requires 0.0 <= f < 1.0
    ensures |s| > 0
    decreases n
  {
    var d := (f * 10.0).Floor;
    var rest := f * 10.0 - d as real;
    if rest == 0.0 || n <= 1 then [DigitChar(d)] else [DigitChar(d)] + FracDigits(rest, n - 1)
  }

  // ---------------------------------------------------------------- dicts

  /** `d.get(k)`: the value of the first pair with key `k`. */
  function DictGet(es: seq<(string, Value)>, k: string): (r: Option<Value>)
    ensures r.Some? <==> exists i :: 0 <= i < |es| && es[i].0 == k
  {
    if |es| == 0 then None
    else if es[0].0 == k then Some(es[0].1)
    else
      var r := DictGet(es[1..], k);
      assert forall i :: 1 <= i < |es| ==> es[i] == es[1..][i - 1];
      r
  }

  predicate DictHas(es: seq<(string, Value)>, k: string) {
    DictGet(es, k).Some?
  }

  /** `d[k] = v`: an existing key keeps its place, a new key goes at the end. */
  function DictPut(es: seq<(string, Value)>, k: string, v: Value): (r: seq<(string, Value)>)
  {
    if |es| == 0 then [(k, v)]
    else if es[0].0 == k then [(k, v)] + es[1..]
    else [es[0]] + DictPut(es[1..], k, v)
  }

  /** After `d[k] = v`, `d[k]` is `v` and every other key reads as before. */
  lemma {:induction false} DictGetPut(es: seq<(string, Value)>, k: string, v: Value, k2: string)
    ensures DictGet(DictPut(es, k, v), k2) == if k2 == k then Some(v) else DictGet(es, k2)
  {
    if |es| > 0 && es[0].0 != k {
      DictGetPut(es[1..], k, v, k2);
      assert DictPut(es, k, v)[1..] == DictPut(es[1..], k, v);
    }
  }

  /** The keys of the pairs, in order. */
  function Keys(es: seq<(string, Value)>): seq<string> {
    seq(|es|, i requires 0 <= i < |es| => es[i].0)
  }

  /** `d[k] = v` keeps the order of the existing keys and adds a new key at the end. */
  lemma {:induction false} DictPutKeys(es: seq<(string, Value)>, k: string, v: Value)
    ensures Keys(DictPut(es, k, v)) == if k in Keys(es) then Keys(es) else Keys(es) + [k]
  {
    if |es| > 0 {
      KeysCons(es[0], es[1..]);
      assert [es[0]] + es[1..] == es;
      if es[0].0 != k {
        DictPutKeys(es[1..], k, v);
        KeysCons(es[0], DictPut(es[1..], k, v));
        assert k in Keys(es) <==> k in Keys(es[1..]);
      } else {
        KeysCons((k, v), es[1..]);
      }
    }
  }

  /** The keys of a dict with one more entry in front. */
  lemma KeysCons(e: (string, Value), rest: seq<(string, Value)>)
    ensures Keys([e] + rest) == [e.0] + Keys(rest)
  {
    assert forall i :: 1 <= i < 1 + |rest| ==> ([e] + rest)[i] == rest[i - 1];
  }

  /** Python `v[k]` with a string key. */
  function Subscript(v: Value, k: string): (r: Result<Value, PyError>)
    ensures r.Ok? <==> v.VDict? && DictHas(v.entries, k)
    ensures v.VDict? && !DictHas(v.entries, k) ==> r == Err(KeyError(k))
    ensures v.VDict? && DictHas(v.entries, k) ==> r == Ok(DictGet(v.entries, k).value)
  {
    match v
    case VDict(es) =>
      (match DictGet(es, k)
       case Some(x) => Ok(x)
       case None => Err(KeyError(k)))
    case _ => Err(TypeError)
  }

  /** `d.get(k, default)`. */
  function GetOr(es: seq<(string, Value)>, k: string, default: Value): Value {
    match DictGet(es, k)
    case Some(x) => x
    case None => default
  }

  /** Python `needle in container` for a string needle. */
  function StrIn(needle: string, container: Value): (r: Result<bool, PyError>)
    ensures container.VList? ==> r == Ok(VStr(needle) in container.items)
    ensures container.VDict? ==> r == Ok(DictHas(container.entries, needle))
  {
    match container
    case VList(xs) => Ok(VStr(needle) in xs)
    case VDict(es) => Ok(DictHas(es, needle))
    case VStr(s) => Ok(Contains(s, needle))
    case _ => Err(TypeError)
  }
}
