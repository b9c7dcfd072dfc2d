/**
  The values a configuration file holds once `json.load` has parsed it, and
  the Python operations the executor applies to them: `dict.get` with a
  default, truthiness in an `if`, use as an integer bound of `range`, and the
  comparison `wait >= patience`.
 */
module JsonValues {
  import opened Wrappers

  datatype Json =
    | JNull
    | JBool(b: bool)
    | JInt(i: int)
    | JReal(r: real)
    | JStr(s: string)
    | JArray(items: seq<Json>)
    | JObject(fields: map<string, Json>)

  /** A parsed configuration: option name to value. */
  type Config = map<string, Json>

  /** `config.get(key, default)`. */
  function Get(config: Config, key: string, default: Json): Json {
    if key in config then config[key] else default
  }

  /** Python truthiness: how `if` reads a value. */
  predicate Truthy(v: Json) {
    match v
    case JNull => false
    case JBool(b) => b
    case JInt(i) => i != 0
    case JReal(r) => r != 0.0
    case JStr(s) => |s| > 0
    case JArray(items) => |items| > 0
    case JObject(fields) => |fields| > 0
  }

  /** The integer a value stands for where Python needs one (`epochs + 1`
      inside `range`): a bool is an int in Python, everything else raises
      a TypeError. */
  function AsIndex(v: Json): (r: Option<int>)
    ensures r.Some? <==> v.JInt? || v.JBool?
  {
    match v
    case JInt(i) => Some(i)
    case JBool(b) => Some(if b then 1 else 0)
    case _ => None
  }

  /** Python's `w >= v` for an int `w`: defined for numbers, a TypeError otherwise. */
  function PyAtLeast(w: int, v: Json): Option<bool> {
    match v
    case JReal(r) => Some(w as real >= r)
    case _ => if AsIndex(v).Some? then Some(w >= AsIndex(v).value) else None
  }

  /** The least integer not below r. */
  function Ceil(r: real): int {
    -((-r).Floor)
  }

  /** The integer threshold t with `w >= v` exactly when `w >= t`, for every
      int w; None when the comparison raises. */
  function Threshold(v: Json): (r: Option<int>)
    ensures r.Some? <==> v.JReal? || v.JInt? || v.JBool?
  {
    match v
    case JReal(r) => Some(Ceil(r))
    case _ => AsIndex(v)
  }

  /** Comparing the int `wait` with the threshold decides `wait >= patience`
      as Python does, a real-valued patience included. */
  lemma ThresholdExact(v: Json, w: int)
    ensures Threshold(v).Some? <==> PyAtLeast(w, v).Some?
    ensures Threshold(v).Some? ==> PyAtLeast(w, v).value == (w >= Threshold(v).value)
  {
    if v.JReal? {
      var r := v.r;
      var f := (-r).Floor;
      assert f as real <= -r < f as real + 1.0;
      if w >= -f {
        assert w as real >= (-f) as real;
      } else {
        assert w <= -f - 1;
        assert w as real <= (-f - 1) as real;
      }
    }
  }
}
