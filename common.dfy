/** Errors, the bearer-token request configuration and JavaScript truthiness of optional strings. */
module Common {
  import opened Wrappers

  /** Every way a call into the client can fail. */
  datatype Error =
    /** A transport or HTTP failure (bad credentials, unknown path, ...), passed on unchanged. */
    | Transport(status: int)
    /** The session was constructed without any credentials object: reading a property of it throws. */
    | AuthMissing
    /** `Prop [<prop>] is required`. */
    | PropRequired(prop: string)
    | EmptyDownloadResponse
    | DownloadDetailsNotFound
    | EmptyUploadResponse
    | UploadDetailsNotFound
    /** `Only standard upload method is implemented`. */
    | UnsupportedUploadMethod
    /** The upload endpoint answered with its `error` flag set. */
    | UploadFailed
    | EmptyItemResponse
    | ItemUrlNotFound
    /** `Could not update the '<field>' field`. */
    | CouldNotUpdate(field: string)
    /** A `null` value in an update request: `Object.keys(null)` throws a TypeError. */
    | NotAnObject(field: string)

  /** The request configuration every authenticated call carries: its `authorization` header. */
  datatype HttpConfig = HttpConfig(authorization: string)

  /** JavaScript truthiness of an optional string: present and not empty. */
  predicate Present(s: Option<string>)
  {
    s.Some? && s.value != ""
  }
}
