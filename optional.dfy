/** A value that may be absent: JavaScript's `undefined`, an empty storage
    slot, a colour not yet picked. */
module Optional {
  datatype Option<+T> = None | Some(value: T)
}
