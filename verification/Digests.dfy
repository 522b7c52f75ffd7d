/** Canonical JSON objects and their SHA-256 digests.

    A digest is modelled as a value that remembers what was hashed. Two digests are
    therefore equal exactly when the hashed objects are equal: SHA-256 over canonical
    JSON is taken to be free of collisions, and nothing else about it is used. */
module Digests {
  import opened Wrappers

  datatype Json =
    | JNull
    | JBool(flag: bool)
    | JInt(number: int)
    | JText(text: string)
    | JDigest(digest: Digest)

  datatype Digest = Sha256(preimage: map<string, Json>)

  function HashPayload(payload: map<string, Json>): Digest {
    Sha256(payload)
  }

  function TextOrNull(value: Option<string>): Json {
    match value
    case None => JNull
    case Some(text) => JText(text)
  }
}
