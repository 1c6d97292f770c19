# ImgurGo upload server: a Dafny model

This project models the decision logic of ImgurGo's image upload server
(`server.go`) and of its store factory (`factory.go`). Each step that can
fail at run time becomes an outcome value supplied by the caller: the
temporary file, the copy, mime sniffing, the image processor, the store's
Save and size lookup, the HTTP request, and the environment credentials.
The others are modelled differently:

- The identifier from the hash generator is a plain input value, since `Get()` cannot fail.
- The store backends and their name-to-path mappers are records built by
  constructors that always succeed.

- `outcomes.dfy` (module `Outcomes`): `Outcome<T>` (`Ok(value)` or `Fail`), `Option` and `Result`.
- `imagestore.dfy` (module `ImageStore`): the types the server and the factory
  see from the imagestore package. These are the descriptor `StoreObject`, the
  name-to-path mapper's configuration, the S3 credentials, and `Store`, which is
  `Local(root, mapper)` or `S3(bucket, root, region, auth, mapper)`.
- `factory.dfy` (module `Factory`): the tagged store entries, the
  type assertion that turns a mismatched payload into a zero config, the
  per-entry reference `StoreFor`, and the imperative `NewImageStores` loop.
  It also has `NewStoreObject`.
- `decimal.dfy` (module `Decimal`): the `%d` rendering used by the port
  fallback, and the proof that parsing the digits back gives the original number.
- `server.dfy` (module `Server`): the upload pipeline as an imperative method
  over eight stages. It returns the response, the stages that ran and the call
  made to Save. The module also has its specification `UploadContract` with
  lemmas about it, the download check, the two handlers, the listen address and
  server construction.

The upload pipeline's stages are, in order: temporary file, copy, mime
detection, processor construction, processor run, identifier assignment, Save
and size lookup. `UploadFile` records each stage it enters and stops at the
first that fails. Its contract, `UploadContract`, says three things:

- The trace that ran is a prefix of the pipeline.
- Every stage in it except the last succeeded.
- The response is an error exactly when the last stage failed. It then carries
  that stage's message and status 500.

On success the response is built from the descriptor that Save returned, the
caller's display name and the size lookup. The staged upload is a small
class whose identifier `SetHash` assigns in place, as `uploadFile` does.

The source has a point where it does not type-check: `CreateServer`
(server.go:26-29) passes the list of stores built by the factory where a
single store is expected. The model makes the active store an explicit
parameter, `active`, an index into the built list. An index that is out of
range is a startup error of the model's own (`NoActiveStore`).

The model follows the code in three places where a reader might expect otherwise:

- Every failure of either handler uses status 500. There are no 4xx codes.
- The temporary file is only closed, never removed, so the model removes nothing.
- Nothing compensates for a Save that is followed by a failed size lookup
  (lemma `MetadataFailureOrphansObject`).

## Model

| member | source | states |
|---|---|---|
| `Factory.StoreFor` | factory.go:17-31 | an entry builds a store exactly when its kind is "LocalStoreConfig", or "S3StoreConfig" with credentials present; the S3 kind yields an S3 store carrying the environment credentials, the local kind a local store; otherwise the error is missing credentials (S3) or the unsupported kind |
| `Factory.NewImageStores` | factory.go:14-33 | succeeds exactly when every entry can be built, and then returns one store per entry, in entry order, each the one its entry defines; on failure some entry k aborts, with every entry before k buildable and k's own error returned (no list) |
| `Factory.StoreWiring` | factory.go:35-55 | both backends take their mapper from the same entry's NamePathRegex and NamePathMap; local uses StoreRoot, S3 uses BucketName, StoreRoot and Region |
| `Factory.MismatchedPayloadYieldsZeroStore` | factory.go:19-26 | a payload whose type does not match its tag is not an error: it builds a store from all-empty config fields |
| `Factory.LocalStoresNeedNoCredentials` | factory.go:35-39 | credentials are consulted only for S3 entries: a configuration of local stores builds whether or not they are present |
| `Factory.NewS3ImageStore` | factory.go:35-50 | fails exactly when the environment credentials are missing, with that error; otherwise an S3 store with the config's bucket, root and region, the credentials, and a mapper from the config's pattern and template |
| `Factory.NewLocalImageStore` | factory.go:52-55 | a local store with the config's root and a mapper from the config's pattern and template |
| `Factory.NewStoreObject` | factory.go:57-63 | the descriptor has exactly the given name, mime type and type, and an empty URL |
| `Decimal.Digits` | server.go:129 | the decimal rendering is non-empty, all digits, and has no leading zero unless the value is 0 |
| `Decimal.ParseDigitsOfDigits` | server.go:129 | reading the rendered digits back yields the number |
| `Decimal.FormatIntInjective` | server.go:129 | two integers with the same `%d` rendering are equal |
| `Server.UploadedFile.constructor` | server.go:52 | the staged upload records the display name, the temporary path and the detected mime, with no identifier yet |
| `Server.UploadedFile.SetHash` | server.go:71 | assigns the identifier and leaves name, path and mime unchanged |
| `Server.UploadFile` | server.go:32-96 | establishes `UploadContract`: stages run in pipeline order, all but the last succeeded, an error response exactly when the last failed (its message, status 500), a success only after all stages, built from Save's returned descriptor, the caller's name and the size; Save invoked exactly when reached, with the temp path and the sent descriptor |
| `Server.StopsAtFirstFailure` | server.go:35-85 | the upload fails exactly when some stage fails; then the trace ends at the first failing stage (never the identifier stage), no later stage runs, and the response is that stage's message with status 500 |
| `Server.FailureMessagesDistinct` | server.go:38-83 | the failure messages identify their stage, except that processor construction and processor run share "Unable to process image!" |
| `Server.SaveOnlyAfterProcessing` | server.go:52-74 | Save is invoked only after temp file, copy, mime detection, processor construction and run succeeded, right after the identifier was assigned, on the temp path, with descriptor (hash, detected mime, "original", empty URL) |
| `Server.MetadataFailureOrphansObject` | server.go:74-85 | an "Unable to fetch image metadata!" error means every stage ran and Save was invoked and succeeded; nothing undoes it |
| `Server.UploadedResponse` | server.go:87-93 | on success link, mime and type come from the descriptor Save returned, name is the caller's display name and size the lookup's value; if the backend keeps mime and type, they are the detected mime and "original" |
| `Server.Download` | server.go:135-162 | accepts the response exactly when the request was built, the client succeeded, the status is 200 and the length is not 0; a bad status is reported before the length; exactly the failures of the status and length checks carry the texts "Non-200 status code received" and "Empty file received" (server.go:152,158) |
| `Server.DownloadLength` | server.go:155-161 | with status 200 an unknown length (-1) and any positive length are accepted, a length of 0 fails as an empty file |
| `Server.UrlHandler` | server.go:113-122 | a failed download answers "Error dowloading URL!" with status 500 and runs no stage and no Save; otherwise the pipeline's contract holds with display name "" |
| `Server.FileHandler` | server.go:99-111 | an unreadable "image" form file answers "Error processing file!" with status 500 and runs no stage; otherwise the pipeline's contract holds with the uploaded file's name |
| `Server.HandlerErrorsAre500` | server.go:99-122 | every error answered by the pipeline or either handler has status 500 |
| `Server.ListenAddress` | server.go:127-130 | the address is ":" + PORT when PORT is non-empty, else ":" + the configured port in decimal |
| `Server.ListenAddressNamesConfiguredPort` | server.go:127-130 | without PORT the address is ":" followed by digits that denote exactly the configured port |
| `Server.CreateServer` | server.go:23-30 | starts exactly when every store entry builds and the active index is in range; the server holds the configuration and the store of the active entry; a failure is a store-construction error exactly when some entry cannot be built, and then names the first entry that aborted; otherwise it is the missing active store, reporting how many stores were built |

## Left out

- `NewHashGenerator` and `HashGenerator` (factory.go:65-74): a background producer feeding a channel. Its loop is not among the modelled files. The identifier `Get()` returns is an input value, so uniqueness of identifiers is not modelled.
- HTTP route registration, `ListenAndServe`, multipart parsing and JSON response writing (server.go:99-132) are framework I/O. The handlers are modelled only from the point where the form value is known.
- Temporary-file creation, `io.Copy` and the deferred `Close` calls are success or failure outcomes. File contents are not modelled.
- The logging through `fmt.Println`, which does not affect the response, is not modelled.
- The HTTP client call in `download`, including the User-Agent header and the body stream, is not modelled. Only the status and length decision is.
- The internals of `imageprocessor`, `uploadedfile` and `imagestore` (mapper, `Save`, `FileSize`, mime sniffing) are not part of this model. Save is a caller-supplied function of the store, the path and the descriptor. The model assumes the processor's run does not change the upload's path or mime type.
- Factory.NewS3ImageStore, Factory.NewLocalImageStore: `imagestore.NewNamePathMapper`, `imagestore.NewLocalImageStore`, `imagestore.NewS3ImageStore` and `s3.New` are assumed always to succeed. If the real mapper rejects a bad pattern, that startup failure is not modelled.
- `aws.EnvAuth`, `s3.New` and `aws.Regions` are foreign library calls. The credentials are one outcome value, the same for every S3 entry. The region is kept as its name, so the model does not capture that an unknown region name silently selects a zero region.
- The message formatting of `log.Fatal` (factory.go:28, 38) is not modelled. The model records only that construction aborts, and why.
- The `Configuration` type is not part of this model. Its fields are assumed from their uses: Stores, HashLength, MaxFileSize, Port and UserAgent.
- The integer width of the port and of the size is not modelled because no arithmetic is done on them.
- Server.CreateServer: the source hands the whole store list to the hash generator and the server. The model selects one store by the explicit index `active` instead.
