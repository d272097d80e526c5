/** Values exchanged between the storefront page and the checkout endpoints. */
module Wire {

  /** An optional value: a JavaScript field that may be absent (`undefined` or `null`). */
  datatype Option<+T> = None | Some(value: T)

  /** JavaScript truthiness of an optional string: present and not the empty string. */
  predicate Truthy(s: Option<string>)
  {
    s.Some? && s.value != ""
  }

  /** The string held by an optional field, or "" (which is falsy) when it is absent. */
  function OrEmpty(s: Option<string>): (r: string)
    ensures r != "" <==> Truthy(s)
  {
    if s.Some? then s.value else ""
  }

  /**
   * One element of the `items` array of a checkout request body:
   * `{ id, qty, size, color }`. A `qty` of 0 stands for any falsy
   * quantity (0 or absent); quantities are integers, not parsed strings.
   */
  datatype Item = Item(id: string, qty: int, size: Option<string>, color: Option<string>)
}
