/** Multi-valued string maps: Go's `url.Values` (query strings and form
    bodies) and `http.Header`. A key maps to the list of its values; `Get`
    reads the first one and `Set` replaces the whole list. */
module UrlValues {

  type MultiMap<V> = map<string, seq<V>>

  type Values = MultiMap<string>

  /** `url.Values.Get`: the first value stored under `key`, or "" when the
      key is absent or has no values. */
  function Get(v: Values, key: string): (s: string)
    ensures s != "" ==> key in v && |v[key]| > 0 && s == v[key][0]
    ensures key !in v ==> s == ""
  {
    if key in v && |v[key]| > 0 then v[key][0] else ""
  }

  /** `url.Values.Set` / `http.Header.Set`: `key` now holds exactly `value`;
      every other key is left as it was. */
  function Set<V>(v: MultiMap<V>, key: string, value: V): (w: MultiMap<V>)
    ensures w.Keys == v.Keys + {key}
    ensures w[key] == [value]
    ensures forall k :: k in v && k != key ==> w[k] == v[k]
  {
    v[key := [value]]
  }

  /** `url.Values.Add` / `http.Header.Add`: `value` is appended after the
      values already stored under `key`. */
  function Add<V>(v: MultiMap<V>, key: string, value: V): (w: MultiMap<V>)
    ensures w.Keys == v.Keys + {key}
    ensures key in v ==> w[key] == v[key] + [value]
    ensures key !in v ==> w[key] == [value]
    ensures forall k :: k in v && k != key ==> w[k] == v[k]
  {
    v[key := (if key in v then v[key] else []) + [value]]
  }
}
