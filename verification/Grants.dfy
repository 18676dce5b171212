/** The stable coherence states. */
module Grants {
  /** The stable grant states of one session or agent on one artifact. */
  datatype Mesi = Modified | Exclusive | SharedState | Invalid

  predicate Writes(m: Mesi) { m.Modified? || m.Exclusive? }
}
