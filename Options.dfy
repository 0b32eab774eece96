/** Optional fields of the records the client and the service exchange. */
module Options {
  datatype Option<+T> = None | Some(value: T)
}
