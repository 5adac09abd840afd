/** Shared result types. */
module Wrappers {
  datatype Option<+T> = None | Some(value: T) {
    predicate IsFailure() { None? }

    function PropagateFailure<U>(): Option<U>
      requires None?
    { None }

    function Extract(): T
      requires Some?
    { value }
  }

  // A Go slice: a nil slice and an empty one are different JSON documents.
  datatype Slice<+T> = Nil | Items(items: seq<T>) {
    function Elems(): seq<T> {
      if Nil? then [] else items
    }

    function Len(): nat { |Elems()| }
  }
}
