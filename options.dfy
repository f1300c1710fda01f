/** The optional value used throughout the model: `None` stands for JavaScript's
    `undefined` (an unset filter, a missing label) and, in chart series, for the
    `Number.NaN` "no point here" sentinel. */
module Options {

  datatype Option<+T> = None | Some(value: T)

}
