/** Shared value types: optional values, results, the SDK's error codes and machine-word bounds. */
module Common {

  datatype Option<+T> = None | Some(value: T)

  /** The error codes the modelled code produces or matches on (api/lib/src/error.rs). */
  datatype HsmError =
    | InvalidArgument
    | InvalidHandle
    | BufferTooSmall
    | InternalError
    | InvalidKey
    | CertChainChanged
    | NotFound
    | IoAborted
    | IoAbortInProgress
    | CredentialsNotEstablished
    | NonceMismatch
    | PartitionNotProvisioned
    | MaskedKeyDecodeFailed
    | EccVerifyFailed
    | SessionNeedsRenegotiation
    | PendingKeyGeneration
    | KeyNotFound
    | PartitionAlreadyProvisioned
    | VaultAppLimitReached
    | RetryExhausted
    | DeviceNotReady
    | OtherError(code: int)

  datatype Result<+T> = Ok(value: T) | Err(error: HsmError)

  const U32_MAX: nat := 0xFFFF_FFFF
  const U64_MAX: nat := 0xFFFF_FFFF_FFFF_FFFF

  type Byte = b: int | 0 <= b < 256

  function Min(a: int, b: int): int {
    if a <= b then a else b
  }
}
