/** Optional values: request fields a client may omit, configuration that may be unset. */
module Optional {

  datatype Option<+T> = None | Some(value: T)
}
