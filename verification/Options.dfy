/** The conventional optional value, used wherever the modelled program uses one. */
module Options {
  datatype Option<+T> = None | Some(value: T)
}
