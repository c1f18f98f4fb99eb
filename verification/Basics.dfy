/** Small shared vocabulary: optional values and map look-ups with the
    truthiness rule the orchestrator uses for state names. */
module Basics {

  datatype Option<+T> = None | Some(value: T)

  function Find<K, V>(m: map<K, V>, k: K): (r: Option<V>) {
    if k in m then Some(m[k]) else None
  }

  /** `if next := transitions.get(k)`: a missing key and an empty name are both falsy. */
  function Truthy(m: map<string, string>, k: string): (r: Option<string>)
    ensures r.Some? <==> k in m && m[k] != ""
    ensures r.Some? ==> r.value in m.Values && r.value != ""
  {
    if k in m && m[k] != "" then Some(m[k]) else None
  }
}
