/** Database rows as the Python code sees them: a dictionary from column name to text. */
module Items {
  import opened Wrappers

  /** A row; a column that is absent or NULL has no key. */
  type Item = map<string, string>

  /** `item.get(key)`. */
  function Field(item: Item, key: string): (r: Option<string>)
    ensures r.Some? <==> key in item
    ensures r.Some? ==> r.value == item[key]
  {
    if key in item then Some(item[key]) else None
  }

  /** `item.get(key, default)`. */
  function FieldOr(item: Item, key: string, default: string): (r: string)
    ensures key in item ==> r == item[key]
    ensures key !in item ==> r == default
  {
    if key in item then item[key] else default
  }

  /** Python truthiness of an optional text: present and non-empty. */
  predicate Truthy(v: Option<string>)
  {
    v.Some? && v.value != ""
  }

  /** `x or default` on an optional text: a missing or empty value takes the default. */
  function OrDefault(x: Option<string>, default: string): (r: string)
    ensures r == default || (x.Some? && r == x.value && r != "")
  {
    if x.Some? && x.value != "" then x.value else default
  }
}
