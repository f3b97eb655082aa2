/** Values shared by every model in this project. */
module Base {

  /** An optional field; for a Go string field, None stands for the empty string. */
  datatype Option<+T> = None | Some(value: T)

  /** An identifier handed out by the Warpgate server (never the empty string). */
  type Id = nat

  /** The "Ready" condition of a status: absent, true, or false with its reason. */
  datatype Ready = Unset | IsReady | NotReady(reason: Reason)

  /** Why a status is not Ready. */
  datatype Reason =
    | ClientError
    | UserNotFound
    | SecretNotFound
    | SecretKeyMissing
    | RotateFailed
    | CreateFailed
    | UpdateFailed
    | NotFound
    | BuildError
    | SecretCreateFailed
    | PasswordCredentialFailed
}
