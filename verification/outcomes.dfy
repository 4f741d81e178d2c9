/** How decoders end. */
module Outcomes {

  /** With a value, with an error, or by indexing outside a buffer. */
  datatype Outcome<+T> = Decoded(value: T) | Rejected | Overrun {
    predicate IsFailure() { !Decoded? }

    function PropagateFailure<U>(): Outcome<U>
      requires IsFailure()
    {
      if Rejected? then Rejected else Overrun
    }

    function Extract(): T
      requires !IsFailure()
    {
      value
    }
  }

  /** The same without the value, for decoders that fill in the fields of an object. */
  datatype Status = Done | Failed | OutOfBounds

  predicate Agree<T>(s: Status, o: Outcome<T>)
  {
    (s.Done? <==> o.Decoded?) && (s.Failed? <==> o.Rejected?)
  }
}
