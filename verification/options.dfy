/** An optional value. In the JavaScript model, `None` stands for `undefined`
    (a missing property, or the empty result of an optional chain). */
module Options {

  datatype Option<+T> = None | Some(value: T)
}
