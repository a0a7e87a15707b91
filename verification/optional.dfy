/** An optional value, for results that may be missing (a failed parse, a
    message without a class). */
module Optional {

  datatype Option<T> = None | Some(value: T)
}
