/** The optional value used for a record's creator (a nullable foreign key). */
module Options {

  datatype Option<+T> = None | Some(value: T)
}
