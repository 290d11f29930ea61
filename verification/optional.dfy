/** A slot of the layer stack either names a drawable or is empty (Java `null`). */
module Optional {
  datatype Option<T> = None | Some(value: T)
}
