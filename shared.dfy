/** Shared vocabulary of the bridge: the wrapper types, the single error shape
    (shared/errors), the configuration and upload-result records
    (shared/types) and the constants of shared/config that the core uses. */
module Shared {

  /** A nullable value: None stands for Go's nil. */
  datatype Option<+T> = None | Some(value: T)

  /** What a Go function returning (value, error) gives back. */
  datatype Result<+T, +E> = Success(value: T) | Failure(error: E)

  /** The closed set of kind codes a BifrostError carries. */
  datatype ErrorCode =
    | ErrBadRequest
    | ErrUnauthorized
    | ErrClientError
    | ErrFileOperationFailed

  /** The underlying cause wrapped by a BifrostError: the core's own messages,
      and opaque failures reported by the vendor SDKs or the filesystem. */
  datatype Cause =
    | ConfigIsNil
    | NoProviderSpecified
    | InvalidProvider(provider: string)
    | JwtRequired
    | CredentialsRejected
    | NoActiveClient
    | FileDoesNotExist(path: string)
    | OpenFailed
    | PutObjectFailed
    | HeadObjectFailed

  /** The only error shape that crosses the bridge's boundary. */
  datatype BifrostError = BifrostError(err: Cause, errorCode: ErrorCode)

  /** The generic configuration record: every field any backend might need.
      DefaultTimeout is in seconds, 0 meaning no timeout. */
  datatype BridgeConfig = BridgeConfig(
    provider: string,
    defaultBucket: string,
    region: string,
    accessKey: string,
    secretKey: string,
    credentialsFile: string,
    project: string,
    pinataJWT: string,
    defaultTimeout: int,
    enableDebug: bool,
    publicRead: bool,
    useAsync: bool)

  /** The backend-native object metadata an upload hands back; for the S3
      adapter, the answer to the follow-up HEAD request. */
  datatype ProviderObject = HeadObjectOutput(contentLength: int)

  /** The record produced by one successful upload. */
  datatype UploadedFile = UploadedFile(
    name: string,
    bucket: string,
    path: string,
    preview: string,
    size: int,
    providerObject: ProviderObject)

  // Option keys and ACL values recognised by the upload options merge.
  // Only the fact that the three keys are distinct matters to the model.
  const OptACL: string := "acl"
  const OptContentType: string := "content_type"
  const OptMetadata: string := "metadata"
  const ACLPublicRead: string := "public-read"
  const ACLPrivate: string := "private"

  /** A format string as fmt.Sprintf reads it: literal text and %s verbs. */
  datatype FormatPiece = Literal(text: string) | StringVerb

  /** The preview URL template of the S3 backend,
      https://%s.s3.%s.amazonaws.com/%s, filled with bucket, region and key. */
  const URLSimpleStorageService: seq<FormatPiece> :=
    [Literal("https://"), StringVerb, Literal(".s3."), StringVerb,
     Literal(".amazonaws.com/"), StringVerb]

  /** fmt.Sprintf restricted to %s verbs: each verb takes the next argument;
      a verb with no argument left prints Go's %!s(MISSING) marker. */
  function Sprintf(format: seq<FormatPiece>, args: seq<string>): (r: string)
    decreases |format|
  {
    if format == [] then []
    else match format[0]
      case Literal(t) => t + Sprintf(format[1..], args)
      case StringVerb =>
        if args == [] then "%!s(MISSING)" + Sprintf(format[1..], args)
        else args[0] + Sprintf(format[1..], args[1..])
  }
}
