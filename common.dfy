/** The optional value used wherever the TypeScript source has `undefined`,
    `null` or `NaN` standing for "no value". */
module Common {

  datatype Option<+T> = None | Some(value: T)

}
