# Canvas coordination, modelled in Dafny

This project models the core of a canvas service written in Go. A canvas has two
representations:

- a metadata row: name, size, owner, whitelist of members, privacy, image locator;
- an image object: PNG bytes in an object store.

Owners create canvases and upload images. Users ask to join a canvas through a
message broker, which carries the request to the owner; owners whitelist them. Clients read canvases one by one or in batches, rename
them and delete them. The two stores share no transaction.

The model follows the source's layers; each store and the service is a Dafny class over abstract state:

| file | module | source |
|---|---|---|
| `models.dfy` | `Models` | the `Canvas`, `InternalCanvas` and join request records; the storage error sentinels; UUID syntax |
| `postgres.dfy` | `PostgresStorage` | the `canvases` table |
| `minio.dfy` | `MinioStorage` | the image bucket; object keys and locators |
| `transport.dfy` | `KafkaTransport` | the join request sink |
| `service.dfy` | `CanvasService` | the coordinator that sequences the stores and the sink |
| `handlers.dfy` | `GrpcHandlers` | request checks, the identity gate, status mapping, response assembly |
| `scenarios.dfy` | `Scenarios` | client walks on concrete inputs |

The stores are modelled as follows:

- **Metadata table.** `Storage.table` is a `map` from canvas_id to row. `Storage.order`
  is the order in which a scan meets the rows. `Storage.Valid()` says the scan meets
  every row exactly once.
- **Multi-row queries.** Their result is specified by `Select`: the matching rows, in
  scan order.
- **Bucket.** `MinioStorage.objects` maps object keys (`<canvas id>.png`) to bytes.
- **Sink.** `Outbox.sent` is the log of join requests the broker has accepted.

Backend failures (an unreachable database, object store or broker) are passed in as
parameters. Most operations take one boolean per store (`down`, `metaDown`, `blobDown`,
`sinkDown`). The batch read with images reads one object per canvas, so it takes
instead the set `blobFails` of canvas IDs whose own image read fails. A failed call
leaves its store unchanged. Every mutating service and handler contract states what
each store, and the scan order, holds after every combination of failures.

The system-level invariant is `CanvasService.Valid()`: every whitelist is
duplicate-free and never contains the canvas's owner. Every mutating service method
requires and re-establishes it. Rows come into existence only through `Save`, whose
whitelist the service always passes empty, and whitelists grow only through the
conditional append of `AddToWhiteList`. `CanvasServer.Valid()` adds that every row
has a non-empty name and one of the three privacy values, because the create and
update handlers check both.

UUID parsing is the predicate `IsUuid`, true of the canonical lower-case 8-4-4-4-12
text. A fresh `uuid.New()` is a `newId` parameter satisfying `IsUuid`.

`CanvasService.DeleteCanvas` removes the metadata row first and the image object
second (internal/services/canvas/canvas.go:246-260), and the model keeps that order.
When the object removal fails, the row is already gone, the object is still there and
an error is reported. A retry succeeds: the row delete treats a missing row as success
and the object is then removed. Between the two calls the canvas cannot be found, its
object still exists, and the caller has been told the delete failed.

## Model

| member | source | states |
|---|---|---|
| `Models.DistinctAppend` | internal/storage/postgres_storage/postgres.go:314-318 | appending an absent element to a duplicate-free list keeps it duplicate-free |
| `PostgresStorage.SelectSound` | internal/storage/postgres_storage/postgres.go:201-205 | every row a query returns is the converted form of a row of the table that matches the WHERE clause |
| `PostgresStorage.SelectComplete` | internal/storage/postgres_storage/postgres.go:71-75 | every row of the table matching the WHERE clause is returned |
| `PostgresStorage.SelectDistinct` | internal/storage/postgres_storage/postgres.go:201-205 | when the scan meets each key once, no canvas is returned twice |
| `PostgresStorage.Without` | internal/storage/postgres_storage/postgres.go:281 | the scan order after a DELETE holds exactly the other keys and stays duplicate-free |
| `PostgresStorage.AppendKeepsWhitelistSound` | internal/storage/postgres_storage/postgres.go:309-326 | appending a non-owner that is absent keeps a whitelist duplicate-free and owner-free |
| `PostgresStorage.Storage.constructor` | internal/storage/postgres_storage/postgres.go:15-22 | a new table is empty and consistent |
| `PostgresStorage.Storage.Save` | internal/storage/postgres_storage/postgres.go:24-63 | canvas, owner and member IDs are parsed in that order before any write, with the source's errors (`ErrInvalidOwnerID` for the owner); an existing key gives `ErrCanvasExists`; success inserts exactly `NewRow(canvas)` (image empty) and returns the canvas ID; any failure leaves the table unchanged |
| `PostgresStorage.Storage.Scan` | internal/storage/postgres_storage/postgres.go:219-252 | the scan loop collects exactly the matching rows in scan order: sound, complete and duplicate-free |
| `PostgresStorage.Storage.GetCanvasesByUserId` | internal/storage/postgres_storage/postgres.go:65-124 | an unparsable user ID or a failed query is an error; otherwise the result is exactly the rows owned by the user or whitelisting them |
| `PostgresStorage.Storage.GetByID` | internal/storage/postgres_storage/postgres.go:126-169 | an unparsable ID gives `ErrInvalidCanvasID`; a missing row or a failed query is a wrapped error; otherwise the row's fields under the requested ID |
| `PostgresStorage.Storage.SetImageUrl` | internal/storage/postgres_storage/postgres.go:171-187 | only the image field of that row changes; a missing row is not an error; the locator is returned |
| `PostgresStorage.Storage.GetByIDs` | internal/storage/postgres_storage/postgres.go:189-255 | one unparsable ID fails the whole call before any read; otherwise exactly the rows whose ID is listed, each once, absent IDs skipped |
| `PostgresStorage.Storage.Update` | internal/storage/postgres_storage/postgres.go:257-273 | only name and privacy of that row change; a missing row is not an error |
| `PostgresStorage.Storage.Delete` | internal/storage/postgres_storage/postgres.go:275-287 | exactly that row is removed; a missing row is not an error |
| `PostgresStorage.Storage.AddToWhiteList` | internal/storage/postgres_storage/postgres.go:289-329 | succeeds exactly when both IDs parse, the row exists, the user is not the owner and not yet a member; then the user is appended at the end; the owner gives `ErrAddOwnerToWhiteList`, a present member the "already in whitelist" error; every failure leaves the table unchanged |
| `MinioStorage.ObjectNameInjective` | internal/storage/minio_storage/minio.go:32 | two canvases never share an object key |
| `MinioStorage.LocatorContainsObjectName` | internal/storage/minio_storage/minio_test.go:53-55 | the returned locator contains the object key and the bucket name |
| `MinioStorage.LocatorInjective` | internal/storage/minio_storage/minio.go:37 | within one bucket, the locator determines the canvas |
| `MinioStorage.MinioStorage.constructor` | internal/storage/minio_storage/minio.go:18-28 | a new bucket handle is bound to its bucket name and starts empty |
| `MinioStorage.MinioStorage.SaveCanvas` | internal/storage/minio_storage/minio.go:31-39 | the object `<id>.png` is replaced by the bytes; the locator is returned even when the put fails, and then the bucket is unchanged |
| `MinioStorage.MinioStorage.GetCanvas` | internal/storage/minio_storage/minio.go:42-55 | the stored bytes of `<id>.png`; a missing object or a failed read yields an error and no data |
| `MinioStorage.MinioStorage.DeleteCanvas` | internal/storage/minio_storage/minio.go:58-61 | removes exactly `<id>.png`, every other object unchanged; a missing object is not an error |
| `KafkaTransport.Outbox.constructor` | internal/transport/kafka_transport.go:14-26 | a new sink has sent nothing |
| `KafkaTransport.Outbox.SendAddToWhiteListMessage` | internal/transport/kafka_transport.go:28-44 | a successful send appends exactly the message to the log; a failed one leaves it and returns the wrapped "failed to send message" error |
| `CanvasService.ImageOrEmpty` | internal/services/canvas/canvas.go:80-85 | the image of a read is the stored object when the read succeeds and empty otherwise |
| `CanvasService.CanvasService.constructor` | internal/services/canvas/canvas.go:44-50 | the service holds the three given stores and starts in a valid state |
| `CanvasService.CanvasService.CreateCanvas` | internal/services/canvas/canvas.go:52-72 | the row saved has the fresh ID, no members, no image and the caller's other fields; succeeds exactly when the owner parses, the store is up and the ID is new; Save's error is returned and the table is unchanged otherwise; the whitelist invariant holds |
| `CanvasService.CanvasService.GetCanvasById` | internal/services/canvas/canvas.go:74-94 | never reports an error; a failed lookup gives no canvas; otherwise the row's fields with an empty owner and locator, and the image or empty if its read failed |
| `CanvasService.CanvasService.GetCanvasByIdNoImage` | internal/services/canvas/canvas.go:96-111 | never reports an error; a failed lookup gives no canvas; otherwise the row's fields, owner and image empty; the blob store is not read |
| `CanvasService.CanvasService.GetCanvases` | internal/services/canvas/canvas.go:113-140 | a failed metadata read is returned; otherwise one canvas per selected row in row order, each with its own image, or empty if that canvas's own read failed (a missing object or an ID in `blobFails`), other items unaffected |
| `CanvasService.CanvasService.GetCanvasesNoImage` | internal/services/canvas/canvas.go:142-164 | one canvas per selected row in row order, every field copied, image empty; the blob store is not read |
| `CanvasService.CanvasService.GetCanvasesByUserId` | internal/services/canvas/canvas.go:166-188 | one canvas per row the user owns or is whitelisted on, in row order, image empty |
| `CanvasService.CanvasService.UploadImage` | internal/services/canvas/canvas.go:190-204 | blob first: a failed put changes neither store; otherwise the object holds the bytes and the row's image becomes exactly the returned locator; a failed row update leaves the new object behind |
| `CanvasService.CanvasService.JoinToCanvas` | internal/services/canvas/canvas.go:206-226 | a failed lookup sends nothing; otherwise exactly one join request {canvas ID, row name, row owner, user} is sent, and a failed send is wrapped as "failed to send verification message"; no store changes |
| `CanvasService.CanvasService.AddToWhiteList` | internal/services/canvas/canvas.go:228-235 | the store's conditional append, with the whitelist invariant kept |
| `CanvasService.CanvasService.UpdateCanvas` | internal/services/canvas/canvas.go:237-244 | the store's update of name and privacy, errors returned as they are |
| `CanvasService.CanvasService.DeleteCanvas` | internal/services/canvas/canvas.go:246-260 | row first: a failed row delete leaves the blob; a failed object removal after it is reported while the row is already gone |
| `GrpcHandlers.CheckCreate` | internal/grpc_handlers/canvas/server.go:55-64 | passes exactly when name and owner are non-empty and privacy is public, private or friends; otherwise InvalidArgument with the first failing check's message |
| `GrpcHandlers.CreateError` | internal/grpc_handlers/canvas/server.go:75-80 | InvalidArgument exactly when the error wraps `ErrInvalidOwnerID`, otherwise Internal |
| `GrpcHandlers.CheckUpdate` | internal/grpc_handlers/canvas/server.go:269-277 | needs a canvas ID, then agrees with the create checks on name and privacy |
| `GrpcHandlers.CheckUpload` | internal/grpc_handlers/canvas/server.go:205-211 | passes exactly when the canvas ID and the image are non-empty |
| `GrpcHandlers.CheckMembership` | internal/grpc_handlers/canvas/server.go:224-229 | passes exactly when canvas ID and member ID are non-empty |
| `GrpcHandlers.ExtractUserInfo` | internal/grpc_handlers/canvas/server.go:309-323 | ok exactly when metadata is present and both keys have values; then the first uid and the first verified value; otherwise empty texts |
| `GrpcHandlers.CheckAuth` | internal/grpc_handlers/canvas/server.go:243-249 | passes exactly when user info is present, the uid is non-empty and verified is not the exact text "false"; a missing or empty uid answers Unauthenticated "user ID or verification info missing", a present uid with verified "false" answers Unauthenticated "user not verified" |
| `GrpcHandlers.CheckAddToWhiteList` | internal/grpc_handlers/canvas/server.go:243-256 | the identity gate comes first: a failed gate gives its own Unauthenticated reply whatever the arguments; after it, the reply is exactly the membership check's, InvalidArgument with its message for an empty argument |
| `GrpcHandlers.CanvasServer.constructor` | internal/grpc_handlers/canvas/server.go:50-52 | the server wraps the given service, valid |
| `GrpcHandlers.CanvasServer.CreateCanvas` | internal/grpc_handlers/canvas/server.go:54-85 | the service is not called when a check fails; a bad owner UUID maps to InvalidArgument, every other error to Internal; success inserts the row and keeps the rows well formed |
| `GrpcHandlers.CanvasServer.GetCanvasByIdAsWritten` | internal/grpc_handlers/canvas/server.go:87-108 | for a non-empty ID, the nil canvas is dereferenced exactly when the ID is invalid, the store is down or the row is missing; otherwise the reply is Ok with the row's fields and an empty owner |
| `GrpcHandlers.CanvasServer.GetCanvasById` | internal/grpc_handlers/canvas/server.go:87-108 | corrected: a failed lookup is NotFound; success returns the row's fields with an empty owner |
| `GrpcHandlers.CanvasServer.GetImageByIdAsWritten` | internal/grpc_handlers/canvas/server.go:110-123 | for a non-empty ID, the nil canvas is dereferenced exactly when the lookup fails; otherwise the reply is Ok with the stored image, or empty when the object read fails |
| `GrpcHandlers.CanvasServer.GetImageById` | internal/grpc_handlers/canvas/server.go:110-123 | corrected: a failed lookup is NotFound; success returns the stored image or empty |
| `GrpcHandlers.CanvasServer.GetImageByIds` | internal/grpc_handlers/canvas/server.go:125-144 | an empty list is InvalidArgument; otherwise one image per selected canvas, in the service's order, each the stored object or empty when that canvas's own read fails |
| `GrpcHandlers.CanvasServer.GetCanvasesByUserId` | internal/grpc_handlers/canvas/server.go:146-173 | an empty user ID is InvalidArgument; otherwise one message per row the user owns or is whitelisted on |
| `GrpcHandlers.CanvasServer.GetCanvases` | internal/grpc_handlers/canvas/server.go:175-202 | an empty list is InvalidArgument; otherwise one message per selected row, in order |
| `GrpcHandlers.CanvasServer.ToMessages` | internal/grpc_handlers/canvas/server.go:185-197 | the response loop converts every canvas, in order |
| `GrpcHandlers.CanvasServer.UploadImage` | internal/grpc_handlers/canvas/server.go:204-221 | empty ID or image is InvalidArgument with no store touched; service errors are returned unwrapped; success is the blob write and the locator update |
| `GrpcHandlers.CanvasServer.JoinToCanvas` | internal/grpc_handlers/canvas/server.go:223-239 | empty arguments are InvalidArgument and send nothing; otherwise exactly one join request on success, Internal on failure |
| `GrpcHandlers.CanvasServer.AddToWhiteListAsWritten` | internal/grpc_handlers/canvas/server.go:241-266 | a failed identity gate is Unauthenticated before any other check or store access; after it, success is exactly the store's conditional append, whoever the caller is; any failure leaves the table unchanged |
| `GrpcHandlers.CanvasServer.AddToWhiteList` | internal/grpc_handlers/canvas/server.go:241-266 | corrected: the same gate and checks, then PermissionDenied exactly when the canvas exists and the caller is not its owner; success requires the caller to be the owner and is the conditional append |
| `GrpcHandlers.CanvasServer.UpdateCanvas` | internal/grpc_handlers/canvas/server.go:268-292 | checks as CreateCanvas plus a canvas ID; success changes only name and privacy, keeping rows well formed |
| `GrpcHandlers.CanvasServer.DeleteCanvas` | internal/grpc_handlers/canvas/server.go:294-307 | an empty ID is InvalidArgument with nothing touched; an invalid ID or a failed row delete touches neither store; otherwise the row is removed, and a failed object removal leaves the object and reports Internal; any failure is Internal |
| `Scenarios.MissingCanvasIsDereferenced` | internal/grpc_handlers/canvas/server.go:92-106 | on an empty store, a well-formed ID reaches the nil dereference in both point-read handlers |
| `Scenarios.WhitelistTwice` | internal/storage/postgres_storage/postgres.go:309-326 | the owner's first whitelisting of a member is accepted; repeating it and adding the owner are both refused |
| `Scenarios.NonOwnerWhitelists` | internal/grpc_handlers/canvas/server.go:241-258 | a verified caller who is not the owner whitelists a third user through the handler as written; the owner-checked handler refuses it |
| `Scenarios.UploadThenRead` | internal/services/canvas/canvas.go:190-204 | after an upload, the image read by ID is the uploaded bytes, through the handler as written and through the corrected one |
| `Scenarios.DeleteThenRead` | internal/services/canvas/canvas.go:246-260 | after an upload and a delete, the service's point read finds no canvas and reports no error, the handler as written dereferences that nil canvas, and reading the object fails with "no such key" |
| `Scenarios.DeleteRetry` | internal/services/canvas/canvas.go:246-260 | a delete whose object removal fails reports Internal with the row gone and the object kept; a retry succeeds and removes the object |
| `Scenarios.BlobRoundTrip` | internal/storage/minio_storage/minio_test.go:40-86 | put then get returns the same bytes at `http://localhost:9000/<bucket>/<id>.png`; after a remove, get fails with "no such key" |

## Left out

- The request timeout, logger and auth interceptors (pkg/interceptors). The timeout
  races a goroutine against a deadline, which is concurrency and wall-clock time.
  The other two are logging and context plumbing.
- Configuration, server wiring and the demo clients (internal/config, internal/app,
  cmd). These are I/O and composition. Note that internal/app/app.go:20 calls
  `canvas.New()` without the three stores that internal/services/canvas/canvas.go:44
  requires.
- Concurrency between requests, and the store's row-level atomicity. Every operation
  is modelled as one sequential step.
- The SQL engine itself:
  - pgx error codes, including the "22P02" branch of `GetByIDs` and the
    unique-violation code that becomes `ErrCanvasExists`;
  - row scanning and its errors;
  - the `created_at` column.
- Row order: `Storage.order` fixes the scan order as insertion order. SQL promises no
  order for these queries.
- UUID parsing is reduced to the canonical lower-case form. Upper-case, braced,
  `urn:uuid:` and 32-digit forms, which `uuid.Parse` also accepts, are not modelled.
  The re-formatting of IDs read back from the table is not modelled either.
- JSON marshalling of the join request: its failure is not modelled, since the message
  is plain strings.
- The MinIO SDK and the wrapper around it (internal/storage/minio_storage/wrapper.go).
  `GetCanvas` does not separate a failed GET from a failed body read: both are the
  one `down` flag.
- Apart from the per-item failure set of the batch image read, backend failures are
  one flag per store call. A store method that touches the
  database twice fails at its first access when its flag is set.
  - `PostgresStorage.Storage.AddToWhiteList`: does not model a failure of the UPDATE
    after a successful owner SELECT ("failed to update canvas"), because the single
    flag fails the SELECT.
- Width and height are `int32` values passed through unchanged. Neither the code nor
  the model checks them.

## Findings

| source | as written | input that shows it | evidently intended | confidence | as-written member | corrected member |
|---|---|---|---|---|---|---|
| internal/grpc_handlers/canvas/server.go:92-106 | `GetCanvasById` reads `canvas.ID` after only checking `err`, but the service returns a nil canvas with a nil error when the lookup fails | a well-formed UUID with no row, e.g. `323e4567-e89b-12d3-a456-426614174000` on an empty table | answer NotFound | high; not executed | `GrpcHandlers.CanvasServer.GetCanvasByIdAsWritten` | `GrpcHandlers.CanvasServer.GetCanvasById` |
| internal/grpc_handlers/canvas/server.go:115-122 | `GetImageById` reads `canvas.Image` after only checking `err`; same nil canvas | the same ID on an empty table | answer NotFound | high; not executed | `GrpcHandlers.CanvasServer.GetImageByIdAsWritten` | `GrpcHandlers.CanvasServer.GetImageById` |
| internal/grpc_handlers/canvas/server.go:241-258 | `AddToWhiteList` only checks that the caller's uid is present and not unverified; it never compares the uid with the canvas's owner, although the comment at line 242 says the two must match | caller uid `223e4567-e89b-12d3-a456-426614174000`, canvas `323e4567-e89b-12d3-a456-426614174000` owned by `123e4567-e89b-12d3-a456-426614174000`, member `423e4567-e89b-12d3-a456-426614174000`: the member is whitelisted | only the owner may whitelist members; answer PermissionDenied otherwise | medium; not executed | `GrpcHandlers.CanvasServer.AddToWhiteListAsWritten` | `GrpcHandlers.CanvasServer.AddToWhiteList` |

`Scenarios.MissingCanvasIsDereferenced` exhibits the first two rows on the canvas ID above;
`Scenarios.NonOwnerWhitelists` exhibits the third.
