/** An optional value: `None` stands for an operation that fails (raises) instead of returning. */
module Options {

  datatype Option<T> = None | Some(value: T)
}
