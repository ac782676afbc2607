/** Terraform's schema.ResourceData: the state record of one resource. */
module Schema {

  /** An attribute value of the schema types used here. */
  datatype Value = Str(s: string) | Int(i: int)

  /** The string stored under `key`, or the zero value "" when there is none. */
  function StringAt(attrs: map<string, Value>, key: string): string {
    if key in attrs && attrs[key].Str? then attrs[key].s else ""
  }

  /** The int stored under `key`, or the zero value 0 when there is none. */
  function IntAt(attrs: map<string, Value>, key: string): int {
    if key in attrs && attrs[key].Int? then attrs[key].i else 0
  }

  class ResourceData {
    var id: string
    var attrs: map<string, Value>

    constructor (id: string, attrs: map<string, Value>)
      ensures this.id == id && this.attrs == attrs
    {
      this.id := id;
      this.attrs := attrs;
    }

    /** d.Get(key).(string): the zero value "" when the attribute is unset. */
    function GetString(key: string): string
      reads this
    {
      StringAt(attrs, key)
    }

    /** d.Get(key).(int): the zero value 0 when the attribute is unset. */
    function GetInt(key: string): int
      reads this
    {
      IntAt(attrs, key)
    }

    /** d.Set(key, v) */
    method Set(key: string, v: Value)
      modifies this
      ensures attrs == old(attrs)[key := v] && id == old(id)
    {
      attrs := attrs[key := v];
    }

    /** d.SetId(v); SetId("") marks the resource as gone. */
    method SetId(v: string)
      modifies this
      ensures id == v && attrs == old(attrs)
    {
      id := v;
    }
  }
}
