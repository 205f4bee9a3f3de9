/** The part of Go's `net/url.Values` that the app lookup uses: a multimap from
    a key to the ordered list of its values, with `Set` (replace) and `Add`
    (append). Encoding the values into a query string is not modelled. */
module UrlValues {

  type Values = map<string, seq<string>>

  /** All values stored under `key`, empty when the key is absent. Unlike
      `url.Values.Get`, which gives only the first value, this is the whole
      list, as `v[key]` gives it in Go. */
  function ValuesOf(v: Values, key: string): (xs: seq<string>)
    ensures key !in v ==> xs == []
  {
    if key in v then v[key] else []
  }

  /** `v.Set(key, x)`: `key` now holds exactly `[x]`; other keys are untouched. */
  function Set(v: Values, key: string, x: string): (r: Values)
    ensures r.Keys == v.Keys + {key}
    ensures ValuesOf(r, key) == [x]
    ensures forall k :: k in v && k != key ==> k in r && r[k] == v[k]
  {
    v[key := [x]]
  }

  /** `v.Add(key, x)`: `x` is appended after whatever `key` already held;
      other keys are untouched. */
  function Add(v: Values, key: string, x: string): (r: Values)
    ensures r.Keys == v.Keys + {key}
    ensures ValuesOf(r, key) == ValuesOf(v, key) + [x]
    ensures forall k :: k in v && k != key ==> k in r && r[k] == v[k]
  {
    v[key := ValuesOf(v, key) + [x]]
  }
}
