/** Values shared by every component: the JSON-like values that the extension
    stores in its settings record and in workflow graphs, and the two
    failure-compatible wrappers used for JavaScript's `undefined` and for
    thrown errors. */
module Values {

  /** A JavaScript value as it appears in a JSON document. JavaScript numbers
      are modelled as mathematical reals (no floating point). */
  datatype Json =
    | JNull
    | JBool(b: bool)
    | JNum(n: real)
    | JStr(s: string)
    | JArr(items: seq<Json>)
    | JObj(fields: map<string, Json>)

  datatype Option<+T> = None | Some(value: T)

  /** The outcome of code that may throw: `Err` carries the error message. */
  datatype Outcome<+T> = Ok(value: T) | Err(error: string)

  /** Member access `j[key]` on a parsed JSON value; `None` where JavaScript
      would produce `undefined`. */
  function Field(j: Json, key: string): (r: Option<Json>)
    ensures r.Some? <==> j.JObj? && key in j.fields
    ensures r.Some? ==> r.value == j.fields[key]
  {
    if j.JObj? && key in j.fields then Some(j.fields[key]) else None
  }

  /** Element access `j[i]` on a parsed JSON value. */
  function Item(j: Json, i: nat): (r: Option<Json>)
    ensures r.Some? <==> j.JArr? && i < |j.items|
    ensures r.Some? ==> r.value == j.items[i]
  {
    if j.JArr? && i < |j.items| then Some(j.items[i]) else None
  }

  /** One step of a member-access chain such as `data.choices[0].message`. */
  datatype Step = Key(key: string) | Index(i: nat)

  /** The value a member-access chain reaches, `None` where a step hits `undefined`. */
  function Path(j: Json, steps: seq<Step>): Option<Json>
    decreases |steps|
  {
    if steps == [] then Some(j)
    else
      var next := match steps[0] case Key(k) => Field(j, k) case Index(i) => Item(j, i);
      if next.None? then None else Path(next.value, steps[1..])
  }
}
