/** Option type shared by the modules that model lookups which can fail. */
module Wrappers {
  datatype Option<T> = None | Some(value: T)
  {
    predicate IsSome() { this.Some? }
  }
}
