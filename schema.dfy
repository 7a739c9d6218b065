/**
 * The slice of the Terraform plugin SDK's `schema.ResourceData` the resources use: a map
 * from attribute names to values, and the resource id, both updated in place.
 */
module Schema {
  import opened Wrappers

  /** One element of a `references` set block. */
  datatype RefBlock = RefBlock(id: string, name: string, refType: string)

  /** The attribute values the resources hold: strings, and a set of reference blocks (in the
      order `Set.List()` gives them). */
  datatype Value = Str(s: string) | Refs(items: seq<RefBlock>)

  /** The zero value of an attribute: `GetOk` reports it as not set. */
  predicate IsZero(v: Value)
  {
    match v
    case Str(s) => s == ""
    case Refs(items) => items == []
  }

  /** `GetOk`, on a map of values. */
  function Lookup(values: map<string, Value>, key: string): Option<Value>
  {
    if key in values && !IsZero(values[key]) then Some(values[key]) else None
  }

  /** A string attribute as `Get(key).(string)` reads it: the zero value when unset. */
  function StringOf(values: map<string, Value>, key: string): string
  {
    if key in values && values[key].Str? then values[key].s else ""
  }

  class ResourceData {
    var values: map<string, Value>
    var id: string

    constructor (values: map<string, Value>, id: string)
      ensures this.values == values && this.id == id
    {
      this.values := values;
      this.id := id;
    }

    /** `GetOk`: the value, when it is set to something other than its zero value. */
    function GetOk(key: string): Option<Value>
      reads this
    {
      Lookup(values, key)
    }

    /** `Set`: stores the value; the id is untouched. */
    method Set(key: string, v: Value)
      modifies this
      ensures values == old(values)[key := v] && id == old(id)
    {
      values := values[key := v];
    }

    /** `SetId`: the attribute values are untouched. */
    method SetId(newId: string)
      modifies this
      ensures id == newId && values == old(values)
    {
      id := newId;
    }
  }
}
