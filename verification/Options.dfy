/** The optional values shared by the other modules: a JavaScript `undefined` or `null` is `None`. */
module Options {
  datatype Option<+T> = None | Some(value: T) {
    function GetOr(default: T): T {
      if Some? then value else default
    }
  }
}
