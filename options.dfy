/** The nullable selection slots of the game state (`null` or a value). */
module Options {
  datatype Option<T> = None | Some(value: T)
}
