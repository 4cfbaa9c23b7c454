/** Identifiers, times, results and error codes shared by every component. */
module Base {

  /** An opaque entity identifier; an absent one is `None`, never a reserved value. */
  type ID = nat

  /** A SHA-256 digest or fingerprint, compared only for equality. */
  type Digest = nat

  /** An instant. The zero instant is the one that callers may not pass. */
  type Time = int

  const ZERO_TIME: Time := 0

  datatype Option<+T> = None | Some(value: T)

  datatype Code =
    | InvalidArgument
    | NotFound
    | Conflict
    | PermissionDenied
    | InvalidTransition
    | CredentialRevisionConflict
    | IdentityConfirmationRequired
    | ProfileBindingChanged
    | ConfirmationExpired
    | LeaseHeld
    | LeaseRequired
    | StaleLease
    | ReplayUnavailable
    | ProviderFailed
    | VaultCorrupt
    | MaterializationConflict
    | ApprovalUnknown
    | ApprovalDispatchAmbiguous
    | SyncConflict
    | ActiveSessions
    | ProviderCleanupRequired

  /** The result of an operation that may be refused. */
  datatype Outcome<+T> = Ok(value: T) | Err(code: Code)

  datatype Provider = Fake | Codex | Claude
}
