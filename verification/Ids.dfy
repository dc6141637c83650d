module Ids {
  /** A vertex ID; only its identity matters. */
  datatype Id = Id(name: string)
}
