/** An optional value: the `None` a Python function returns when it has
    nothing to give. */
module Options {

  datatype Option<T> = None | Some(value: T)
}
