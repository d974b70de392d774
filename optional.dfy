/** An optional value: `None` stands for Python's `None`. */
module Optional {

  datatype Option<+T> = None | Some(value: T)

}
