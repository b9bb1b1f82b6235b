/** Opaque names and instants shared by every module.

    Texts (stable IDs, keys, endpoints, report IDs, generations) are only ever compared, so a text is
    a natural number: equality is string equality after trimming, and the order on numbers stands for
    the order on strings. Node and reporter IDs are texts of their own. Instants are integers, and 0 is
    Go's zero time. */
module Names {
  type Text = nat
  type NodeId = nat
  type ReporterId = nat
  type Time = int

  const EMPTY: Text := 0
  /** The text "0", which counts as no identity. */
  const ZERO: Text := 1
  /** The text "unknown". */
  const UNKNOWN: Text := 2
  const NEVER: Time := 0

  datatype Option<+T> = None | Some(value: T) {
    predicate IsFailure() {
      None?
    }

    function PropagateFailure<U>(): Option<U>
      requires None?
    {
      None
    }

    function Extract(): T
      requires Some?
    {
      value
    }
  }

  function Later(left: Time, right: Time): Time {
    if left > right then left else right
  }

  function Earlier(left: Time, right: Time): Time {
    if left < right then left else right
  }
}
