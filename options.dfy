/** The optional value used where the simulator returns or stores `None`. */
module Options {
  datatype Option<+T> = None | Some(value: T)
}
