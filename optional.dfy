/** The value-or-nothing type used for `localStorage.getItem`, which answers
    either a string or `null`. */
module Optional {

  datatype Option<T> = None | Some(value: T)
}
