/** Optional values, standing for the source's "value or False" fields. */
module Options {

  datatype Option<+T> = None | Some(value: T)
}
