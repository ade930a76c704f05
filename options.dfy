/** The optional value a lookup returns where the source returns a shared_ptr that may be null. */
module Options {

  datatype Option<+T> = None | Some(value: T)
}
