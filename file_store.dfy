/** The storage router: validates the driver name and builds the one backend
    it selects, then forwards saves to it. */
module Store {
  import opened Errors
  import opened GoLib
  import MongoStore
  import MongoFiles

  const DriverLocal := "local"
  const DriverMongoDb := "mongodb"

  datatype FileStoreConfig = FileStoreConfig(driver: string)

  /** A value of the local backend; its package is not part of this model. */
  datatype LocalStore = LocalStore(handle: nat)

  /** The backend behind the `FileSaver` interface: a closed set of two. */
  datatype Saver = LocalSaver(local: LocalStore) | MongoSaver(mongo: MongoStore.FileStore)

  /** A built router always holds a saver (never nil) and its configuration. */
  datatype FileStore = FileStore(saver: Saver, config: FileStoreConfig)

  /** `FileStoreConfig.validate`: exactly the two driver names are accepted;
      the error for any other names it. */
  function Validate(c: FileStoreConfig): (r: Option<Error>)
    ensures r.None? <==> c.driver == DriverLocal || c.driver == DriverMongoDb
    ensures r.Some? ==> r.value == Message("unknown driver " + c.driver)
  {
    if c.driver == DriverLocal || c.driver == DriverMongoDb then None
    else Some(Message("unknown driver " + c.driver))
  }

  /** The driver switch of `NewFileStore`: which saver it builds, if any.
      Only the mongodb branch can fail, and an unknown driver builds nothing. */
  function SelectSaver(driver: string, local: LocalStore, dial: MongoStore.Dial): (r: Result<Option<Saver>>)
    ensures driver == DriverLocal ==> r == Ok(Some(LocalSaver(local)))
    ensures driver == DriverMongoDb ==> (r.Ok? <==> MongoStore.Connect(dial).Ok?)
    ensures driver == DriverMongoDb && r.Ok? ==> r == Ok(Some(MongoSaver(MongoStore.FileStore(dial.open.value))))
    ensures driver == DriverMongoDb && r.Err? ==> r.error == MongoStore.NewFileStore(dial).error
    ensures driver != DriverLocal && driver != DriverMongoDb ==> r == Ok(None)
  {
    if driver == DriverLocal then Ok(Some(LocalSaver(local)))
    else if driver == DriverMongoDb then
      match MongoStore.NewFileStore(dial)
      case Err(e) => Err(e)
      case Ok(fs) => Ok(Some(MongoSaver(fs)))
    else Ok(None)
  }

  /** `NewFileStore`. A failure to read the environment only logs a warning;
      `local` is what local.NewFileStore returns and `dial` is the outcome of
      the mongodb backend's connection attempt. */
  function NewFileStore(read: EnvRead<FileStoreConfig>, local: LocalStore, dial: MongoStore.Dial): (r: Result<FileStore>)
    ensures r.Ok? <==> Validate(read.conf).None? && (read.conf.driver == DriverMongoDb ==> MongoStore.Connect(dial).Ok?)
    ensures Validate(read.conf).Some? ==>
              r == Err(Wrapped("failed to validate authentication service config", Validate(read.conf).value))
    ensures read.conf.driver == DriverMongoDb && MongoStore.NewFileStore(dial).Err? ==>
              r == Err(Wrapped("failed to create file store", MongoStore.NewFileStore(dial).error))
    ensures r.Ok? ==> r.value.config == read.conf
    ensures r.Ok? && read.conf.driver == DriverLocal ==> r.value.saver == LocalSaver(local)
    ensures r.Ok? && read.conf.driver == DriverMongoDb ==> r.value.saver == MongoSaver(MongoStore.FileStore(dial.open.value))
  {
    var conf := read.conf;
    match Validate(conf)
    case Some(e) => Err(Wrapped("failed to validate authentication service config", e))
    case None =>
      match SelectSaver(conf.driver, local, dial)
      case Err(e) => Err(Wrapped("failed to create file store", e))
      case Ok(None) => Err(Message("saver is nil"))
      case Ok(Some(saver)) => Ok(FileStore(saver, conf))
  }

  /** The only failures are an invalid driver and a failed mongodb
      connection; the "saver is nil" guard never fires, and a connection
      failure still matches its sentinel. */
  lemma NewFileStoreFailures(read: EnvRead<FileStoreConfig>, local: LocalStore, dial: MongoStore.Dial)
    ensures var r := NewFileStore(read, local, dial);
      r.Err? ==> (&& r.error != Message("saver is nil")
                  && (Validate(read.conf).None? ==>
                        r.error.Wrapped? && MongoStore.Retryable(r.error.cause).Some?))
  {
  }

  /** The read error never matters: validation alone decides. */
  lemma ReadErrorOnlyWarns(conf: FileStoreConfig, e1: Option<Error>, e2: Option<Error>, local: LocalStore, dial: MongoStore.Dial)
    ensures NewFileStore(EnvRead(conf, e1), local, dial) == NewFileStore(EnvRead(conf, e2), local, dial)
  {
  }

  /** An invalid driver fails before any backend is built: neither backend's
      construction has any influence. */
  lemma InvalidDriverBuildsNothing(read: EnvRead<FileStoreConfig>, l1: LocalStore, l2: LocalStore,
                                   d1: MongoStore.Dial, d2: MongoStore.Dial)
    requires Validate(read.conf).Some?
    ensures NewFileStore(read, l1, d1) == NewFileStore(read, l2, d2)
  {
  }

  /** `FileStore.Save`: the name and bytes are forwarded to the selected
      saver and its result is returned unchanged. `localSave(l)` is the Save
      of the local backend `l`; `bucketOf(m)` is what the driver answers for
      the bucket of the mongodb backend `m`, and `copyErr` is what its copy
      into a buffer reports. */
  method Save(fs: FileStore, name: string, file: Bytes,
              localSave: LocalStore -> (string, Bytes) -> Result<string>,
              bucketOf: MongoStore.FileStore -> MongoFiles.Gridfs, copyErr: Option<Error>)
    returns (r: Result<string>)
    ensures fs.saver.LocalSaver? ==> r == localSave(fs.saver.local)(name, file)
    ensures fs.saver.MongoSaver? ==> r == MongoFiles.SaveResult(bucketOf(fs.saver.mongo), copyErr, name, file)
  {
    match fs.saver {
      case LocalSaver(l) =>
        r := localSave(l)(name, file);
      case MongoSaver(m) =>
        var trace;
        r, trace := MongoFiles.Save(bucketOf(m), copyErr, name, file);
    }
  }
}
