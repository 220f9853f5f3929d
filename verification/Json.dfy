/** Replies as Python reads them: JSON values, what counts as false among them, and where reading one raises. */
module Json {
  import opened Wrappers

  /** `text` is what str() makes of a value that is no string. */
  datatype Json =
    | Null
    | Bool(b: bool)
    | Number(value: real, text: string)
    | NotFinite(text: string)   // NaN and the infinities
    | Str(s: string)
    | List(items: seq<Json>, text: string)
    | Object(fields: map<string, Json>, text: string)

  /** A body; None is one that is not JSON. */
  type Body = Option<Json>

  predicate Truthy(j: Json) {
    match j
    case Null => false
    case Bool(b) => b
    case Number(v, _) => v != 0.0
    case NotFinite(_) => true
    case Str(s) => s != ""
    case List(items, _) => items != []
    case Object(fields, _) => fields != map[]
  }

  function ToText(j: Json): string {
    match j
    case Null => "None"
    case Bool(b) => if b then "True" else "False"
    case Str(s) => s
    case _ => j.text
  }

  /** `get`: an absent field is None. */
  function Get(fields: map<string, Json>, name: string): Json {
    if name in fields then fields[name] else Null
  }

  /** `j or {}`, of which fields are then asked; None where that raises. */
  function FieldsOf(j: Json): Option<map<string, Json>> {
    if !Truthy(j) then Some(map[]) else if j.Object? then Some(j.fields) else None
  }

  /** What a `for` loop goes through without raising. */
  predicate Iterable(j: Json) { j.List? || j.Str? || j.Object? }

  /** What == says of two values: by value for numbers and truth values, never for NaN. */
  predicate Same(a: Json, b: Json)
    decreases a
  {
    match (a, b)
    case (Null, Null) => true
    case (Str(s), Str(t)) => s == t
    case (NotFinite(s), NotFinite(t)) => s == t && s != "nan"
    case (List(xs, _), List(ys, _)) => |xs| == |ys| && forall i | 0 <= i < |xs| :: Same(xs[i], ys[i])
    case (Object(xs, _), Object(ys, _)) => xs.Keys == ys.Keys && forall k | k in xs :: Same(xs[k], ys[k])
    case _ => ValueOf(a).Some? && ValueOf(a) == ValueOf(b)
  }

  function ValueOf(j: Json): Option<real> {
    match j
    case Bool(b) => Some(if b then 1.0 else 0.0)
    case Number(v, _) => Some(v)
    case _ => None
  }

  /** The false values. */
  lemma FalseIff(j: Json)
    ensures !Truthy(j) <==>
              || j == Null || j == Bool(false) || j == Str("") || (j.Number? && j.value == 0.0)
              || (j.List? && |j.items| == 0) || (j.Object? && |j.fields| == 0)
  {
    if j.Object? { assert |j.fields| == |j.fields.Keys|; }
  }

  /** Texts are equal as texts, numbers by value, and nothing of one kind equals a text. */
  lemma SameIff(a: Json, b: Json)
    ensures a.Str? && b.Str? ==> (Same(a, b) <==> a.s == b.s)
    ensures a.Number? && b.Number? ==> (Same(a, b) <==> a.value == b.value)
    ensures a.Str? != b.Str? ==> !Same(a, b)
  {}
}
