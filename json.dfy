/**
 * JSON documents as Step Functions sees them, reference paths such as `$.info.receiptsCount`
 * or `$[0].amount`, and the write of a result at a top-level field (a ResultPath `$.field`).
 * Numbers are integers: every number the workflows build or compare is one.
 */
module Json {
  import opened Wrappers

  datatype Json =
    | Null
    | Bool(b: bool)
    | Num(n: int)
    | Str(s: string)
    | Arr(items: seq<Json>)
    | Obj(fields: map<string, Json>)

  /** One step of a reference path: `.name` or `[i]`. */
  datatype Segment = Field(name: string) | Index(i: nat)

  /** A reference path; `[]` is `$`. */
  type Path = seq<Segment>

  /** The value a reference path selects, or `None` when the path does not exist. */
  function Get(doc: Json, path: Path): (r: Option<Json>)
    decreases |path|
  {
    if path == [] then Some(doc)
    else match path[0]
      case Field(k) =>
        if doc.Obj? && k in doc.fields then Get(doc.fields[k], path[1..]) else None
      case Index(i) =>
        if doc.Arr? && i < |doc.items| then Get(doc.items[i], path[1..]) else None
  }

  /**
   * Writes `v` at the top-level field `k`; only an object has fields to write, so any other
   * document gives `None` (the workflows report States.ResultPathMatchFailure there).
   */
  function SetField(doc: Json, k: string, v: Json): (r: Option<Json>)
    ensures r.Some? <==> doc.Obj?
    ensures r.Some? ==> r.value.Obj? && Get(r.value, [Field(k)]) == Some(v)
    ensures r.Some? ==> forall k' :: k' != k ==> Get(r.value, [Field(k')]) == Get(doc, [Field(k')])
    ensures r.Some? ==> r.value.fields.Keys == doc.fields.Keys + {k}
  {
    if doc.Obj? then Some(Obj(doc.fields[k := v])) else None
  }
}
