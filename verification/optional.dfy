/** The null-or-value shape the source expresses with C# null references. */
module Optional {

  datatype Option<+T> = None | Some(value: T)
}
