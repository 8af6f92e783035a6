# file-svc storage core, modelled in Dafny

This project models the storage layer of the `file-svc` microservice. That layer contains:

- the MongoDB/GridFS backend: its configuration, the connection attempt and how its failures are classified, and the retry loop that starts it;
- the GridFS operations `Save`, `Get`, `Delete`, `File` and `Files`;
- the router that validates the driver name and builds a `local` or `mongodb` backend;
- the two upload use cases, which store a file under a generated id plus the extension of the client's file name;
- the projection of file metadata onto the API records.

Calls into the MongoDB driver, the `gocherry` config library and the local backend are not modelled. Each one becomes a parameter that says what the call returns:

- `MongoStore.Dial` is one connection attempt: what `mongo.Connect` returns and what `Ping` reports;
- `MongoFiles.Gridfs` is a GridFS bucket: one field per driver call the backend makes;
- `GoLib.EnvRead` is what `config.ReadConfigEnv` fills in and reports;
- `MongoStore.UrlParser` is `url.Parse`;
- the use cases receive their store's `Save`/`Get`/`Delete` as functions;
- the generated uuid is passed in as `uid`.

From `gocherry/pkg/retry`, `RetryableError` is modelled as `Errors.RetryableMark`, and `retry.Do` as `MongoStore.Do`, whose stopping rule is assumed (see "## Left out").

Modules follow the source files:

- `MongoStore` is `internal/store/mongodb/store.go`;
- `MongoFiles` is `internal/store/mongodb/files.go`;
- `Store` is `internal/store/filestore.go`;
- `Provider` is `internal/usecase/provider.go`;
- `FileService` is `internal/usecases/file_svc.go`;
- `Dto` is `internal/dto/info.go`;
- `Entity` is `internal/entity/info.go`.

Three support modules hold shared pieces:

- `Errors`: Go error values, `errors.Is` and `errors.Wrap`;
- `GoLib`: `int64`, `uint32`, `bytes.Buffer` and `ReadConfigEnv`'s outcome;
- `Naming`: `filepath.Ext` and the upload name `uid + Ext(filename)`.

Conventions:

- A Go pair `(T, error)` is a `Result<T>`. `Err(e)` stands for the zero value (`nil`, `""`) returned together with `e`.
- The upload stream's `Write` is recorded in an `UploadTrace`. The deferred `Close` is not recorded, because its result is discarded.
- `bytes.Buffer` is a class whose `data` field the methods update in place.
- The `filesListToEntity` and `fileInfoListToApi` loops are methods with loop invariants.

Notable behaviour of the code:

- The MongoDB `validate` only checks that the URI parses. It does not check the database name.
- The listed `Size` is the document's `chunkSize`, not the file's length. `MongoFiles.FileSizeIsChunkSize` gives an example where the two differ.
- `Save` returns success even when closing the upload stream fails. GridFS writes the file's metadata document on close, so that id may not resolve.
- The GridFS backend's `Save` does not reject an empty payload (internal/store/mongodb/files.go:14-46).

## Model

| member | source | states |
|---|---|---|
| `Errors.WrapPreservesIs` | internal/store/mongodb/store.go:117-120 | A wrapped error matches, under `errors.Is`, exactly the errors its cause matches (besides the wrapper itself). |
| `GoLib.ToUint32` | internal/dto/info.go:40 | `uint32(x)` is the value in [0, 2^32) congruent to x modulo 2^32, and x itself when x is already in range. |
| `MongoStore.Validate` | internal/store/mongodb/store.go:36-42 | The config is valid exactly when `url.Parse` accepts the URI; otherwise the parse error comes back wrapped. Nothing else is checked. |
| `MongoStore.LoadConfig` | internal/store/mongodb/store.go:127-138 | A read failure is returned wrapped before validation runs; a validation failure is returned wrapped; otherwise the config as read. |
| `MongoStore.Connect` | internal/store/mongodb/store.go:141-158 | `ErrConn` exactly when opening fails, `ErrPing` exactly when opening succeeds and the ping fails, and the opened client exactly when both succeed. |
| `MongoStore.ConnectNeverPingsAfterOpenFailure` | internal/store/mongodb/store.go:146-149 | When opening fails the ping outcome has no influence: the result is `ErrConn`. |
| `MongoStore.Retryable` | internal/store/mongodb/store.go:72-83 | An error is marked retryable exactly when it is, or wraps, `DeadlineExceeded`, `ErrConn` or `ErrPing`; the mark wraps that error. Any other error gives nil (fatal). |
| `MongoStore.NewFileStore` | internal/store/mongodb/store.go:115-125 | Succeeds exactly when `connect` does, holding its client. Every failure still matches `ErrConn` (open failed) or `ErrPing` (ping failed), so every failure is retryable. |
| `MongoStore.AttemptError` | internal/store/mongodb/store.go:70-97 | The attempt closure returns nil on success, the marked error for a retryable failure, and the original error for a fatal one. |
| `MongoStore.NewFileStoreRetry` | internal/store/mongodb/store.go:48-109 | The loop that fills the captured `filestore` computes exactly `RetryResult`: config errors first, then retry.Do over NewFileStore attempts. |
| `MongoStore.Do` | internal/store/mongodb/store.go:66-106 | retry.Do yields a store only if some attempt built it. It fails either with the deadline error or with an attempt's own error that is not retryable and carries no mark. It gives the deadline error only when every attempt returned a marked error. DoStopsAtFirstSuccess, DoStopsAtFirstFatal and DoGivesUp pin down which attempt decides. |
| `MongoStore.DoStopsAtFirstSuccess` | internal/store/mongodb/store.go:99-108 | After any number of retryable failures, the first successful attempt ends the loop. Its store is the one returned. |
| `MongoStore.DoStopsAtFirstFatal` | internal/store/mongodb/store.go:87-96 | The first non-retryable failure ends the loop. The original, unmarked error is returned and no store. |
| `MongoStore.DoGivesUp` | internal/store/mongodb/store.go:60-66 | When every attempt before the deadline fails retryably, the result is the deadline error and no store. |
| `MongoStore.ConnectsAtFirstSuccessfulDial` | internal/store/mongodb/store.go:66-108 | The retry loop yields the client of the first attempt that both opens and pings. |
| `MongoStore.GivesUpWhenNoDialSucceeds` | internal/store/mongodb/store.go:60-106 | If no attempt connects, retry never stops early on a fatal error. It ends with `DeadlineExceeded`. |
| `MongoStore.ConfigFailureComesFirst` | internal/store/mongodb/store.go:50-52 | A config read or validation failure is returned before any connection attempt: the attempts have no influence. |
| `MongoFiles.ObjectIdFromHex` | internal/store/mongodb/files.go:55-58 | A string parses exactly when it is 24 hex digits of either case, giving the ObjectID with that (lowercased) rendering. Anything else is `InvalidHex`. |
| `MongoFiles.HexRoundTrip` | internal/store/mongodb/files.go:40-45 | Parsing the `Hex()` rendering of an ObjectID gives back that ObjectID. |
| `MongoFiles.Decode` | internal/store/mongodb/files.go:87-91 | A files document decodes to its `_id`, `filename` and `chunkSize`. A malformed one gives its decoding error. |
| `MongoFiles.Copy` | internal/store/mongodb/files.go:22-26 | Copying the payload into the buffer appends exactly the payload, or reports the copy's error. |
| `MongoFiles.Save` | internal/store/mongodb/files.go:14-46 | The result is `SaveResult`. The bytes written to the upload stream are exactly the input bytes, written once, and only when the stream was opened. |
| `MongoFiles.SaveOutcomes` | internal/store/mongodb/files.go:16-45 | A failing bucket, copy, open or write returns that error with no id. Success holds exactly when every step succeeds and the stream's id is an ObjectID; the id is then its 24-hex rendering. |
| `MongoFiles.SaveIgnoresClose` | internal/store/mongodb/files.go:34 | Save's result does not depend on what closing the upload stream reports. |
| `MongoFiles.DownloadToStream` | internal/store/mongodb/files.go:60-64 | On success the buffer gains exactly the downloaded bytes; on failure the driver's error is reported. |
| `MongoFiles.Get` | internal/store/mongodb/files.go:48-67 | The result is `GetResult`: bucket error, id parse error, download error, or the bytes of the buffer. |
| `MongoFiles.Delete` | internal/store/mongodb/files.go:69-85 | Succeeds exactly when the bucket is obtained, the id is 24 hex digits and the driver's delete succeeds. A bucket error is returned as it is; an id that does not parse gives `InvalidHex`. MalformedIdIsRejected and WellFormedIdReachesBucket say that the driver's delete is made only for a parsed id, and returned unchanged. |
| `MongoFiles.FileInfoToEntity` | internal/store/mongodb/files.go:148-154 | Id, Name and Size are copied unchanged from the decoded record. Size is therefore the `chunkSize` (FileSizeIsChunkSize). |
| `MongoFiles.File` | internal/store/mongodb/files.go:95-121 | Succeeds exactly when the bucket is obtained, the id parses, the find succeeds and its first document decodes. The result is that document's id, name and chunk size. FileUsesFirstMatch gives the error cases (find error passed through, "file not found", decode error), and MalformedIdIsRejected shows that no find is made for a bad id. |
| `MongoFiles.MalformedIdIsRejected` | internal/store/mongodb/files.go:55-58 | For an id that does not parse, Get, Delete and File return `InvalidHex`. The driver's download, delete and find have no influence, so none is made. |
| `MongoFiles.WellFormedIdReachesBucket` | internal/store/mongodb/files.go:60-84 | For an id that parses, Get returns exactly the downloaded bytes or the download's error, and Delete returns exactly the bucket's delete result. |
| `MongoFiles.SavedIdResolves` | internal/store/mongodb/files.go:40-58 | Every id Save returns parses back to the ObjectID of the stream it wrote to, so Get and Delete reach that object. |
| `MongoFiles.SaveThenGet` | internal/store/mongodb/files.go:14-67 | If the bucket serves back what was written, Get of the id Save returned yields the saved bytes. |
| `MongoFiles.FileUsesFirstMatch` | internal/store/mongodb/files.go:106-120 | A failing find returns its own error. No matching document gives "file not found". Otherwise only the first match is decoded: its id, name and chunk size, or its decoding error. |
| `MongoFiles.FileSizeIsChunkSize` | internal/store/mongodb/files.go:87-91 | The reported size is the record's `chunkSize`, not the file's length (1 MiB file, 261120 reported). |
| `MongoFiles.CursorAll` | internal/store/mongodb/files.go:140-143 | `cursor.All` succeeds exactly when every document decodes, giving them in order. Otherwise the first decoding error. |
| `MongoFiles.FilesListToEntity` | internal/store/mongodb/files.go:156-165 | One entry per record, in the same order, with Id, Name and Size copied unchanged. An empty input gives an empty list. |
| `MongoFiles.Files` | internal/store/mongodb/files.go:123-146 | A bucket, find or decoding error is returned with no list. Otherwise every found record is converted, in order. |
| `MongoFiles.FilesOfCursor` | internal/store/mongodb/files.go:129-154 | An empty bucket lists as the empty list, not an error. Each listed entry carries its document's id, name and chunk size. |
| `Store.Validate` | internal/store/filestore.go:30-37 | Exactly `"local"` and `"mongodb"` are accepted. Any other string, `""` included, is rejected with an error naming it. |
| `Store.SelectSaver` | internal/store/filestore.go:70-78 | `local` builds the local saver. `mongodb` builds the mongodb saver exactly when the connection succeeds, and otherwise returns the backend's error. Any other driver builds nothing. |
| `Store.NewFileStore` | internal/store/filestore.go:50-89 | Succeeds exactly when the driver is valid and, for mongodb, the connection succeeds. `local` selects the local saver and `mongodb` the mongodb saver. A mongodb failure is returned wrapped. The built store holds the config that was read. |
| `Store.NewFileStoreFailures` | internal/store/filestore.go:74-82 | The "saver is nil" guard never fires. With a valid driver, a failure wraps a retryable mongodb connection error. |
| `Store.ReadErrorOnlyWarns` | internal/store/filestore.go:56-63 | The env-read error has no influence on the result. |
| `Store.InvalidDriverBuildsNothing` | internal/store/filestore.go:61-63 | An invalid driver fails before either backend is built: neither backend's outcome has any influence. |
| `Store.Save` | internal/store/filestore.go:91-93 | Name and bytes go unchanged to the saver the store holds: the local backend it names, or the bucket of the mongodb client it holds. Its result comes back unchanged. |
| `Naming.ExtScanIsFinalDotSuffix` | internal/usecase/provider.go:32 | The right-to-left scan of `filepath.Ext` yields the suffix from the final '.' of the last path element, or "" when that element has no '.'. |
| `Naming.Ext` | internal/usecases/file_svc.go:70 | `Ext(p)` is a suffix of p. If non-empty it starts with '.' and holds no other '.' and no '/'. It is empty exactly when every '.' of p is followed by a '/'. |
| `Naming.UploadName` | internal/usecase/provider.go:31-34 | The stored name is uid followed by the extension of the file name, and nothing else from it. |
| `Naming.UploadNameIgnoresBaseName` | internal/usecases/file_svc.go:69-72 | Two file names with the same extension give the same stored name. |
| `Naming.ExtExamples` | internal/usecase/provider.go:31-32 | Worked cases: `photo.png`, `archive.tar.gz`, `dir.d/README`, `noext`, and a stored name `u1.png`. |
| `Provider.Upload` | internal/usecase/provider.go:29-40 | Save is called with `uid + Ext(filename)` and the unchanged bytes. Its id is returned on success; on failure, "" with its error. |
| `Provider.UploadIgnoresBaseName` | internal/usecase/provider.go:31-34 | The base name never reaches the store: names with the same extension make the same Save call. |
| `Provider.Download` | internal/usecase/provider.go:42-49 | The source's bytes unchanged, or nil with the source's error. |
| `Provider.DeleteFile` | internal/usecase/provider.go:51-58 | The source's error unchanged, or nil on success. |
| `FileService.Validate` | internal/usecases/file_svc.go:24-26 | Validation always succeeds. |
| `FileService.NewFileService` | internal/usecases/file_svc.go:39-65 | Fails exactly when the saver is nil, with "saver is nil". Otherwise it holds that saver and the config that was read; the read error only warns. |
| `FileService.Upload` | internal/usecases/file_svc.go:67-77 | The service's own saver's Save is called with `uid + Ext(filename)` and the unchanged bytes. Its id is returned unchanged, or "" with its error. |
| `Dto.FileInfoToApi` | internal/dto/info.go:37-43 | ID and Name are copied to ID and Filename. Size is the int64 size modulo 2^32, and unchanged when it fits. |
| `Dto.NegativeSizeWraps` | internal/dto/info.go:40 | A size of -1 is reported as 4294967295. |
| `Dto.FileInfoListToApi` | internal/dto/info.go:45-56 | One converted entry per input file, in the same order. Total is `uint32` of the number of files: that number modulo 2^32. |
| `Dto.GetFileInfo` | internal/dto/info.go:19-26 | The use case's error is returned unchanged with no result. Otherwise the record converted by `FileInfoToApi`: id and name copied, size modulo 2^32. |
| `Dto.ListFiles` | internal/dto/info.go:28-35 | The use case's error is returned unchanged with no result. Otherwise every file is converted, in order, and Total is `uint32` of the number of files. |

## Left out

- Retry timing is left out. The Fibonacci backoff (1 s to 1 min, internal/store/mongodb/store.go:65) is in the external `gocherry/pkg/retry` library. The 30 s overall deadline (store.go:60) and the 3 s per-attempt deadline (store.go:142) are context timeouts. All three are wall-clock behaviour and none is modelled. The model takes the attempts that start before the deadline as a sequence. It assumes retry.Do stops on success and on an unmarked error, and otherwise yields `DeadlineExceeded` once the attempts run out.
- `MongoStore.DoGivesUp`: does not say when the deadline error comes relative to the backoff schedule, because timing is not modelled.
- The retry loop's logging of `RetryInSeconds` is left out, along with all other logging.
- Driver internals are left out: chunking, cursors, connection pools, `Disconnect`, and how GridFS stores what a stream receives. Each is an outcome parameter. `SaveThenGet` assumes the bucket serves back what was written.
- `FileStore.Close` (`client.Disconnect`) and the closing of the `Files` cursor are left out. Both are driver calls whose results the core does not use.
- `bucket()` is reduced to its outcome, `Gridfs.bucketErr`. That outcome already accounts for the database name from the config and the bucket name `photos`.
- `mongo.Connect` and `Ping` are reduced to their outcomes in `Dial`. The URI they receive is not modelled.
- The `io.Copy` failure in `Save` is a parameter (`copyErr`). Copying a `bytes.Reader` into a `bytes.Buffer` never reports an error, so in the real program it is always nil.
- ObjectIDs are represented by their 24-digit lowercase hex rendering. The 12-byte value is not modelled.
- `ObjectIDFromHex` errors are all modelled as `InvalidHex`. The exact error depends on the driver version.
- Go error identity is modelled as structural equality. Only `errors.Is` against `ErrConn`, `ErrPing` and `DeadlineExceeded` is used, and those are distinct constructors.
- The router's mongodb branch calls `mongodb.NewFileStore()` with no context, which does not match the function's signature (internal/store/filestore.go:74). The model uses the outcome of `MongoStore.NewFileStore` on one connection attempt.
- On the router path the MongoDB configuration is never read. `mongodb.NewFileStore` connects with the package-level `conf` (internal/store/mongodb/store.go:22, 117). Only `loadConfig` fills `conf`, and only `NewFileStoreRetry` calls it (store.go:50, 129). `Store.NewFileStore` therefore gives its `dial` no tie to any URI or database name, and that dial may succeed.
- The local backend (`internal/store/local`) is not part of this model. It appears as an opaque `LocalStore` value. `Store.Save` takes the local backend's Save as a function of that value.
- The global mutable `conf` is modelled as the `FileStoreConfig` value. The bucket name constant `photos` has no counterpart: it only reaches the driver, whose answer is `Gridfs.bucketErr`.
- Lists hold `FileInfo` values rather than pointers, so aliasing is not modelled. No code in the core mutates a listed record.
- Startup wiring is not part of this model: `cmd/file_svc/main.go`, the gRPC layer, signal handling, and the `NewProvider`/`NewInfoDTO`/`NewInfo` constructors.
- `internal/usecase/info.go` is left out. It only forwards to the backend and logs; `Dto.GetFileInfo` and `Dto.ListFiles` take its answer as a parameter.
- `internal/store/mongodb/save.go` is left out. It repeats `Save` from files.go.
- The settings getters in `internal/store/config/service.go`, `internal/usecase/service.go` and `internal/usecases/service.go` are left out.
- Concurrent use of the shared client is not modelled.
- `filepath.Ext` is modelled as built for Unix: '/' is the only separator.
- Properties of the running store are not modelled: unique ids, deletion being final, and List being complete. The store's state belongs to MongoDB, which is a parameter here.
