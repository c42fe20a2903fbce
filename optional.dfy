/** An optional value: JavaScript's `undefined` for an omitted argument. */
module Optional {

  datatype Option<+T> = None | Some(value: T)
}
