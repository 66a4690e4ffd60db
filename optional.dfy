/** Python's `None`-or-a-value, used for the deck's stream and filename. */
module Optional {

  datatype Option<T> = None | Some(value: T)
}
