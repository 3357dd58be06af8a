/** Optional values, in the style the rest of the project uses for nullable columns, absent refs and failed lookups. */
module Options {
  datatype Option<+T> = None | Some(value: T)
}
