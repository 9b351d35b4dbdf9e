/** The optional value Python expresses with `None`. */
module Optional {

  datatype Option<+T> = None | Some(value: T)
}
