/** A value that may be absent: the model of a React state cell that holds an object or `null`. */
module Optional {

  datatype Option<T> = None | Some(value: T)
}
