/** An optional value: Go's nil pointer, nil error or absent result. */
module Options {

  datatype Option<+T> = None | Some(value: T)
}
