/** The optional values used throughout the model: a nullable column or a Python `None`. */
module Options {

  datatype Option<+T> = None | Some(value: T) {

    function Or(other: T): T {
      if Some? then value else other
    }
  }
}
