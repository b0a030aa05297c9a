/** Values carried by filters: the source types them as `interface{}`, which a
    filter may hold as a single value, a list of values or a range. */
module Values {

  /** A value that may be absent, standing for a nil Go interface or pointer. */
  datatype Option<+T> = None | Some(value: T) {
    /** The value, or `default` when there is none. */
    function GetOr(default: T): T {
      match this
      case Some(v) => v
      case None => default
    }
  }

  /** One scalar a filter compares with: a string, a boolean or a number. */
  datatype Scalar = Text(text: string) | Flag(flag: bool) | Number(number: int)

  /** What `Filter.SetValue` may store: nothing (the zero interface), one
      scalar, an ordered list of scalars, or a range whose ends may be unset. */
  datatype Value =
    | Nil
    | Single(scalar: Scalar)
    | List(items: seq<Scalar>)
    | Range(from: Option<Scalar>, to: Option<Scalar>)
}
