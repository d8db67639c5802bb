/**
 * `getDefined` and the environment lookups. A JavaScript object with
 * string keys is a map from its keys to the values below.
 */
module ObjectUtil {
  import opened JsCommon

  /** The property values the library puts into option and header objects. */
  datatype JsValue = UndefinedValue | NullValue | Bool(b: bool) | Num(n: int) | Str(s: string)

  predicate IsDefined(v: JsValue) {
    v != UndefinedValue && v != NullValue
  }

  /** What `getDefined` returns: the entries whose value is neither `null` nor `undefined`. */
  function DefinedEntries(obj: map<string, JsValue>): (r: map<string, JsValue>)
    ensures r.Keys <= obj.Keys
    ensures forall k :: k in r ==> r[k] == obj[k] && IsDefined(r[k])
    ensures forall k :: k in obj && IsDefined(obj[k]) ==> k in r
  {
    map k | k in obj && IsDefined(obj[k]) :: obj[k]
  }

  /**
   * `getDefined(obj)`: walks the entries and assigns each defined one
   * into the accumulator object.
   */
  method GetDefined(obj: map<string, JsValue>) returns (acc: map<string, JsValue>)
    ensures acc == DefinedEntries(obj)
  {
    acc := map[];
    var remaining := obj.Keys;
    while remaining != {}
      invariant remaining <= obj.Keys
      invariant forall k :: k in acc <==> k in obj && k !in remaining && IsDefined(obj[k])
      invariant forall k :: k in acc ==> acc[k] == obj[k]
      decreases remaining
    {
      var key :| key in remaining;
      var value := obj[key];
      if value != NullValue && value != UndefinedValue {
        acc := acc[key := value];
      }
      remaining := remaining - {key};
    }
  }

  /** Applying `getDefined` twice changes nothing more. */
  lemma DefinedEntriesIdempotent(obj: map<string, JsValue>)
    ensures DefinedEntries(DefinedEntries(obj)) == DefinedEntries(obj)
  {
  }

  /** Falsy but defined values (0, '', false) survive. */
  lemma DefinedEntriesKeepsFalsy(obj: map<string, JsValue>, k: string)
    requires k in obj && obj[k] in {Num(0), Str(""), Bool(false)}
    ensures k in DefinedEntries(obj) && DefinedEntries(obj)[k] == obj[k]
  {
  }

  /** An entry set to `null` or `undefined` is dropped, whatever else is in the object. */
  lemma DefinedEntriesDrops(obj: map<string, JsValue>, k: string)
    requires k in obj && !IsDefined(obj[k])
    ensures k !in DefinedEntries(obj)
  {
  }

  /** `getEnv(key)`: a lookup in the process environment, given here as a map. */
  function GetEnv(env: map<string, string>, key: string): Option<string> {
    if key in env then Some(env[key]) else None
  }

  /**
   * `getDefinedEnv(key)`: the value, or the thrown message when the
   * variable is unset or empty.
   */
  function GetDefinedEnv(env: map<string, string>, key: string): (r: Result<string, string>)
    ensures r.Ok? <==> key in env && env[key] != ""
    ensures r.Ok? ==> r.value == env[key]
    ensures r.Err? ==> r.error == "Error!! Required env: " + key + " is not defined."
  {
    var envValue := GetEnv(env, key);
    if envValue.None? || envValue.value == "" then
      Err("Error!! Required env: " + key + " is not defined.")
    else
      Ok(envValue.value)
  }
}
