/** An optional value: the model's stand-in for a JavaScript value that may be
    `undefined`, `null` or absent from a JSON object or from local storage. */
module Optional {

  datatype Option<+T> = None | Some(value: T) {

    /** The value, or `default` when there is none (JavaScript's `x || default`
        for values that are never falsy when present). */
    function GetOr(default: T): T {
      match this
      case Some(v) => v
      case None => default
    }
  }
}
