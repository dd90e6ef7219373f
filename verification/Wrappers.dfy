/** Optional values and results that carry an error class. */
module Wrappers {

  datatype Option<+T> = None | Some(value: T)

  datatype Result<+T, +E> = Ok(value: T) | Err(error: E)

  /** The error classes the modelled code distinguishes; message text is not kept. */
  datatype Error =
    | SearchFailed
    | InsertFailed
    | NotFound
    | ConfigNotFound
    | UnknownKeyUsage
    | UnknownAlgorithm
    | PresetUnknown
    | GenerateFailed
    | BadKeyId
    | InvalidMasterKey
    | SerializeFailed
    | RandomFailed
    | InvalidCiphertext
    | InvalidSecret
    | NoPublicKey
    | Undecodable
    | Malformed
    | Internal
    | FetchFailed
    | Rejected
}
