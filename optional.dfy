/** A value that may be missing: a key absent from a Python dict, or a list
    position past its end. */
module Optional {

  datatype Option<+T> = None | Some(value: T)

}
