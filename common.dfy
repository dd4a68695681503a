/** Small helper types shared by the battle and overworld models. */
module Common {

  /** A value that may be absent, such as the optional payload handed to a scene. */
  datatype Option<+T> = None | Some(value: T)
}
