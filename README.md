# Bifrost rainbow bridge, modelled in Dafny

Bifrost lets a caller upload files to one of several cloud storage backends
(S3, Google Cloud Storage, Pinata IPFS) through one configuration record.
This project models the core of that:

- the **bridge factory** `NewRainbowBridge` and its three adapter constructors
  (`bifrost.go`), as pure functions from a `BridgeConfig` to either a bridge
  handle or a `BifrostError` with a kind code;
- the **S3 adapter** (`s3/s3.go`), as a class `SimpleStorageService` whose
  only mutable field is its client. `UploadFile` is a method whose options
  loop is proved against a pure, key-by-key statement of the options merge.
  `Disconnect`, `IsConnected`, `Config` and `UploadFolder` are modelled too.

Files:

- `shared.dfy`, module `Shared`. It holds `Option`/`Result`, the error taxonomy
  (`ErrorCode`, `Cause`, `BifrostError`), `BridgeConfig` and `UploadedFile`.
  It also holds the option keys and ACL strings, and the preview URL template.
  The template is a list of literal pieces and `%s` verbs, filled by a model of
  `fmt.Sprintf` restricted to `%s`.
- `s3.dfy`, module `S3`. It holds the S3 handle, the put request, the options
  merge, the preview URL and the upload.
- `bifrost.dfy`, module `Bifrost`. It holds the factory, the three adapter
  constructors, lemmas classifying the factory's outcomes, and two client
  methods: an end-to-end upload and an upload after `Disconnect`.

What comes from outside the core is passed in rather than performed:

- **The provider registry** (`providers`) is a parameter. It maps a lower-case
  identifier to a provider name. Its definition is not part of this model.
- **The vendor credential loaders** are a `Loaders` record. It gives one
  success flag per loader: S3 with static keys, S3 with the shared
  configuration, GCS with a credentials file, GCS with ambient credentials.
  The client a handle holds is a value naming the credentials it was built
  from.
- **The filesystem and the S3 calls** are an `Environment` record. It gives
  the `os.Stat` outcome, whether the file opens, whether the put succeeds and
  the HEAD answer. `UploadFile` also returns the calls it makes as a trace
  (`Stat`, `Open`, `PutObject`, `HeadObject`, `Close`). The contracts use this
  trace to state which calls happen, in what order, and with which bucket and
  key.
- **A nil configuration** is `None`.

Quirks of the code that the model keeps:

- The registry check lower-cases the provider (bifrost.go:58), but the
  dispatch compares it as written (bifrost.go:76). The default branch at
  bifrost.go:83-88 looks merely defensive, yet `"S3"` passes the check and
  reaches it, and is refused as BadRequest (`CaseMismatchRejected`).
- The S3 constructor does not copy `DefaultTimeout`, `EnableDebug` or
  `UseAsync`. A handle built by the factory therefore has timeout 0, which
  means no upload timeout. Its `Config()` reports these three as zero, and it
  also reports `PublicRead` as false (`S3ConfigReadback`).
- `os.Stat` stops the upload only with a "does not exist" error. Any other
  stat error falls through to `os.Open`.

## Model

| member | source | states |
|---|---|---|
| `Bifrost.NewRainbowBridge` | bifrost.go:23-90 | The checks run in order and each failure is BadRequest: nil config, then empty provider, then a lower-cased provider missing from the registry. A provider that passes those checks but is not literally `s3`, `gcs` or `pinata` is also BadRequest |
| `Bifrost.FactoryOutcomes` | bifrost.go:23-185 | Failures are only BadRequest or Unauthorized. BadRequest holds iff validation or the exact-match dispatch refuses the config. Unauthorized holds iff the config passes both and the chosen adapter refuses its credentials. Both directions are stated |
| `Bifrost.SuccessMatchesProvider` | bifrost.go:76-82 | A successful bridge is the S3, GCS or Pinata variant exactly when the provider is literally `s3`, `gcs` or `pinata`. Its provider field is the registry's entry for that string |
| `Bifrost.CaseMismatchRejected` | bifrost.go:58-88 | With `s3` in the registry, provider `"S3"` passes the registry check but is refused as BadRequest with an invalid-provider cause |
| `Bifrost.BucketNeverDecides` | bifrost.go:65-73 | Changing only the default bucket never changes success or failure, nor the error returned |
| `Bifrost.NewPinataIpfs` | bifrost.go:91-112 | An empty JWT is Unauthorized. Otherwise the handle carries the JWT, bucket, credentials file, project, timeout and flags unchanged, and the registry name as provider |
| `Bifrost.PinataIgnoresLoaders` | bifrost.go:91-98 | For provider `pinata` the outcome does not depend on any credential loader |
| `Bifrost.NewGoogleCloudStorage` | bifrost.go:115-150 | The client uses the credentials file iff one is named, else ambient credentials. It fails with Unauthorized iff that loader fails. Otherwise the handle carries bucket, credentials file, project, timeout and the debug, public-read and async flags unchanged, plus the registry name as provider; region, keys and JWT are dropped |
| `Bifrost.NewSimpleStorageService` | bifrost.go:153-185 | Static credentials are used iff both keys are non-empty, else the shared configuration. It fails with Unauthorized iff that loader fails. The handle keeps exactly provider name, bucket, region, public-read and both keys; timeout, debug and async are zero |
| `Bifrost.ToLower` | bifrost.go:58 | Lower-casing keeps the length and maps each character through the ASCII lower-case mapping |
| `Bifrost.ToLowerIdempotent` | bifrost.go:58 | Lower-casing an already lower-cased provider changes nothing |
| `Bifrost.S3ConfigReadback` | s3/s3.go:119-130 | For an S3 handle built by the factory, `Config()` gives the registry name, the bucket, region and keys from the config, and zero for timeout, debug, public-read and async. The original provider string, timeout, flags and other fields do not come back |
| `Bifrost.ScenarioPreview` | s3/s3.go:112 | The preview for bucket `assets`, region `us-east-1` and key `photo.png` is `https://assets.s3.us-east-1.amazonaws.com/photo.png` |
| `Bifrost.EndToEndUpload` | s3/s3.go:108-115 | For an S3 config with static keys, uploading `/tmp/photo.png` as `photo.png`, with the backend reporting 1024 bytes, yields name, bucket `assets`, the path, the scenario preview and size 1024 |
| `Bifrost.UploadAfterDisconnect` | s3/s3.go:23-28 | After `Disconnect`, an upload is ClientError with an empty call trace. A second `Disconnect` also returns no error, and the handle stays disconnected |
| `S3.BaseParams` | s3/s3.go:54-63 | Before options, the put request has the handle's bucket, the caller's key and file, no content type or metadata, never private ACL, and public-read iff the handle's default says so |
| `S3.ResolveParams` | s3/s3.go:64-89 | The options merge never changes the request's bucket, key or body |
| `S3.ResolveAddOption` | s3/s3.go:65-89 | Merging one more entry, under a key not seen yet, equals running one loop iteration on the merge of the smaller map. So the map's iteration order does not matter |
| `S3.IneffectiveEntryIgnored` | s3/s3.go:65-89 | An unknown key, a wrongly typed value or an unknown ACL string is dropped: the merge is the same as without that entry |
| `S3.AclResolution` | s3/s3.go:59-77 | The ACL is private iff the options say `private`. It is public-read iff the options say `public-read`, or the handle defaults to it and the options do not say `private`. It is unset iff neither the handle nor a valid option sets it |
| `S3.ContentTypeAndMetadataResolution` | s3/s3.go:78-87 | Content type is set iff its key holds a string, and then to that string. Metadata is set iff its key holds a string map, and then to that map |
| `S3.PreviewFormat` | s3/s3.go:112 | The preview is `https://` + bucket + `.s3.` + region + `.amazonaws.com/` + key, with the arguments in that order |
| `S3.PreviewDeterminesKey` | s3/s3.go:112 | Within one bucket and region, two keys with the same preview are equal |
| `S3.SimpleStorageService.constructor` | bifrost.go:176-184 | A handle made from the factory's settings and client is connected and keeps those settings |
| `S3.SimpleStorageService.IsConnected` | s3/s3.go:143-145 | True iff the handle holds a client |
| `S3.SimpleStorageService.Disconnect` | s3/s3.go:137-145 | Returns no error and leaves the handle disconnected from any state. Calling it again therefore changes nothing |
| `S3.SimpleStorageService.Config` | s3/s3.go:119-130 | Reports provider, bucket, region, keys, timeout, debug and async from the handle. It never reports public-read, credentials file, project or JWT |
| `S3.SimpleStorageService.UploadFolder` | s3/s3.go:152-154 | Returns no files and no error for every path and options map |
| `S3.SimpleStorageService.UploadFile` | s3/s3.go:22-116 | Disconnected: ClientError with no calls. Missing file: BadRequest after the stat only. Open failure: FileOperationFailed after stat and open. Otherwise it puts the merged request to the default bucket under the given key, then heads the same bucket and key. A failed put or head is FileOperationFailed. Success returns the name, bucket, path, preview and HEAD size. Past a successful open, the file is closed last on every path |

## Left out

- The reflection checks on the configuration's type (bifrost.go:33-47) cannot fail for a Dafny value of type `BridgeConfig`, so they are not modelled.
- `Bifrost.ToLower`: models `strings.ToLower` for ASCII letters only. Unicode case mapping is not modelled.
- The debug log for an empty bucket (bifrost.go:69-72) is output only and is not modelled. `BucketNeverDecides` states that the bucket has no effect on the outcome.
- Client construction in the AWS and Google SDKs, and `PutObject`/`HeadObject` themselves, are not modelled. Their success or failure is an input. The cause a vendor error carries is reduced to one `Cause` constructor per call site.
- The `ProviderObject` from HEAD is reduced to its content length.
- `context.WithTimeout` and the handle's timeout (s3/s3.go:29-35) are not modelled. A timeout shows up only as a failed put or head. A handle built by the factory has timeout 0 in any case.
- The file's bytes are not modelled. The put request names its body by the opened path.
- The Disconnect/Upload race on `Client` is concurrency. It cannot be expressed in this sequential model.
- `shared/config` is not part of this model. The option keys (`acl`, `content_type`, `metadata`) and the ACL strings (`public-read`, `private`) are named constants whose exact values were chosen for the model; the proofs use only that the three keys are distinct and that the two ACL strings are distinct. The preview template `https://%s.s3.%s.amazonaws.com/%s` is the documented preview format of the S3 backend, taken as given; `PreviewFormat`, `ScenarioPreview` and `EndToEndUpload` depend on that exact value.
- `Shared.Sprintf` prints Go's `%!s(MISSING)` marker for a verb with no argument left. Go also appends an `%!(EXTRA …)` note for surplus arguments; this is not modelled, because the one call site passes exactly three arguments to three verbs.
- The GCS and Pinata upload implementations are not part of this model. Their handles are values built by the factory.
