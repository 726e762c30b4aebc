/** Java's Optional and nullable references, as a value. */
module Optional {

  datatype Option<+T> = None | Some(value: T)

}
