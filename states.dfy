/**
 * The values the plugin passes around: decoded JSON values, state dictionaries
 * (`dict` from attribute name to value) and MQTT messages, together with the two
 * dictionary operations the core relies on, `dict.get` and `dict.update`.
 */
module States {

  import opened Wrappers

  /** A decoded JSON value. Numbers are exact rationals here (Python keeps int or float). */
  datatype Value =
    | Null
    | Bool(b: bool)
    | Number(n: real)
    | Str(s: string)
    | Array(items: seq<Value>)
    | Object(fields: map<string, Value>)

  /** A device state dictionary: attribute name to the last value reported for it. */
  type State = map<string, Value>

  /**
   * An MQTT message as the discovery subscription receives it. The payload is the
   * result `json.loads` gives for it: `Some(object)` when it decodes to a JSON
   * object, `None` when it raises `JSONDecodeError`.
   */
  datatype Message = Message(topic: string, payload: Option<State>)

  /** `d.get(key)`. */
  function Get(d: State, key: string): (r: Option<Value>)
    ensures r.Some? <==> key in d
    ensures r.Some? ==> r.value == d[key]
  {
    if key in d then Some(d[key]) else None
  }

  /** The dictionary `d` after `d.update(p)`. */
  function Update(d: State, p: State): (r: State)
    ensures r.Keys == d.Keys + p.Keys
    ensures forall k | k in p :: r[k] == p[k]
    ensures forall k | k in d && k !in p :: r[k] == d[k]
  {
    d + p
  }
}
