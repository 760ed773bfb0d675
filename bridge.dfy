/**
 * The serialisation values the models store: a `BridgeInstance` is null, a
 * string or some other JSON value, and a document is a dictionary of them.
 * A `FamilyTreeDate` is kept as the text it was built from.
 */
module Bridge {
  import opened Wrappers

  /** `BridgeInstance`: `new()` is `Null`, `new(text)` is `Str(text)`; numbers, arrays and objects are `Other`. */
  datatype BridgeInstance = Null | Str(text: string) | Other

  /** `IDictionary<string, BridgeInstance>` as a value. */
  type Document = map<string, BridgeInstance>

  /** `FamilyTreeDate`, known by its text. */
  datatype Date = Date(text: string)

  /** `instance.TryGetString(out s) ? new(s) : null`: the date a stored instance holds. */
  function DateOf(b: BridgeInstance): (r: Option<Date>)
    ensures r.Some? <==> b.Str?
  {
    if b.Str? then Some(Date(b.text)) else None
  }

  /** `value is null ? new() : value.Instance`: how a date setter stores its value. */
  function InstanceOf(d: Option<Date>): (r: BridgeInstance)
    ensures r.Null? <==> d.None?
  {
    if d.Some? then Str(d.value.text) else Null
  }

  /** Storing a date and reading it back gives the same date. */
  lemma DateOfInstanceOf(d: Option<Date>)
    ensures DateOf(InstanceOf(d)) == d
  {
  }

  /** `AsString`: the text of a string instance; any other instance is refused. */
  function AsString(b: BridgeInstance): (r: Result<string>)
    ensures r.Ok? <==> b.Str?
    ensures r.Ok? ==> Str(r.value) == b
  {
    if b.Str? then Ok(b.text) else Err(InvalidOperation("AsString"))
  }

  /**
   * The document a `Person` or `FamilyDynamic` constructor keeps: the given
   * one, with an "id" drawn from `Guid.NewGuid()` (here `generatedId`) added
   * when it has none.
   */
  function WithId(instance: Document, generatedId: string): (r: Document)
    ensures r.Keys == instance.Keys + {"id"}
    ensures forall k :: k in instance ==> r[k] == instance[k]
    ensures "id" !in instance ==> r["id"] == Str(generatedId)
  {
    if "id" in instance then instance else instance["id" := Str(generatedId)]
  }
}
