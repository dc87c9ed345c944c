/** Values that the Java source represents with a nullable reference. */
module Common {

  /** `None` stands for Java's `null`. */
  datatype Option<+T> = None | Some(value: T)
}
