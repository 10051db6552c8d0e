/** An optional value. `None` stands for the `null` a Java accessor returns when
    there is nothing to return. */
module Options {

  datatype Option<+T> = None | Some(value: T)
}
