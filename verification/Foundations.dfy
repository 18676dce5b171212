/** Values shared by every part of the model. */
module Foundations {

  newtype Byte = b: int | 0 <= b < 256

  type Bytes = seq<Byte>

  /** A SHA-256 content hash. It is treated as injective: two byte strings
      have the same digest only if they are the same bytes. */
  datatype Digest = Sha256(of: Bytes)

  datatype Option<+T> = None | Some(value: T)

  /** A coordinator session id. Minting is per agent, so two agents never share one. */
  datatype Session = Session(agent: nat, mint: nat)

  ghost predicate Distinct<T>(s: seq<T>) {
    forall i, j :: 0 <= i < j < |s| ==> s[i] != s[j]
  }
}
