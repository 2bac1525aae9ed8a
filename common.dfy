/** Values that the C# code represents with a null reference. */
module Common {

  /** A reference that may be null: a nullable string argument, a lookup that may find nothing. */
  datatype Option<+T> = None | Some(value: T)
}
