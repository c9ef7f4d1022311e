/** How a call to a store, to the journal or to an adapter can go wrong by itself. */
module Faults {
  /** Raises: the call raises and has no effect. Late: the call takes effect and raises all the same,
      as when the reply is lost. */
  datatype Fault = Fine | Raises | Late
}
