/**
 * Decoded JSON, as json_decode returns it with objects as stdClass instances.
 *
 * An object keeps its `id` and `type` members apart from the others: JSON:API
 * v1.0 ("Identification") requires both to be strings, and the stream files
 * resources under them. `members` holds every other member of the object.
 * A decoded document keeps "id" and "type" out of `members` (WellFormed), so
 * that Has and HasTypeAndId agree with property_exists; the url the stream
 * adds keeps a document well formed (Store.WithUrlKeepsWellFormed).
 */
module Json {
  import opened Wrappers
  import PhpStrings

  datatype Json =
    | Null
    | Bool(b: bool)
    | Int(i: int)
    | Str(s: string)
    | Arr(items: seq<Json>)
    | Obj(id: Option<string>, kind: Option<string>, members: map<string, Json>)

  /** No object, at any depth, keeps "id" or "type" among its other members. */
  predicate WellFormed(v: Json)
  {
    match v
    case Arr(items) => forall k :: 0 <= k < |items| ==> WellFormed(items[k])
    case Obj(_, _, members) =>
      && "id" !in members && "type" !in members
      && forall key :: key in members ==> WellFormed(members[key])
    case _ => true
  }

  /** property_exists(v, key) for a member other than `id` and `type`. */
  predicate Has(v: Json, key: string)
  {
    v.Obj? && key in v.members
  }

  /** property_exists(v, 'type') && property_exists(v, 'id'). */
  predicate HasTypeAndId(v: Json)
  {
    v.Obj? && v.kind.Some? && v.id.Some?
  }

  /**
   * The text PHP interpolates for a decoded value: "" for null and false, "1"
   * for true, the decimal form of an integer, "Array" for an array; an object
   * cannot be converted and PHP throws (None).
   */
  function Interpolate(v: Json): (r: Option<string>)
    ensures r.None? <==> v.Obj?
    ensures v.Str? ==> r == Some(v.s)
    ensures v.Int? ==> r == Some(PhpStrings.IntToString(v.i)) && PhpStrings.ParseInt(r.value) == Some(v.i)
  {
    match v
    case Null => Some("")
    case Bool(b) => Some(if b then "1" else "")
    case Int(i) => PhpStrings.IntRoundTrip(i); Some(PhpStrings.IntToString(i))
    case Str(s) => Some(s)
    case Arr(_) => Some("Array")
    case Obj(_, _, _) => None
  }
}
