/** Optional values, standing for the `field?: T` members, `null` and `undefined` of the TypeScript source. */
module Wrappers {
  datatype Option<T> = None | Some(value: T)

  /** JavaScript truthiness of an optional string: present and not the empty string. */
  predicate Truthy(v: Option<string>) {
    v.Some? && v.value != ""
  }
}
