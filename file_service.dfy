/** The file service use case: a saver behind a nil guard, and the upload
    naming rule. */
module FileService {
  import opened Errors
  import opened GoLib
  import opened Naming

  /** The service's configuration struct has no fields. */
  datatype FileServiceConfig = FileServiceConfig

  datatype FileService<S> = FileService(saver: S, config: FileServiceConfig)

  /** `FileServiceConfig.validate` accepts every configuration. */
  function Validate(c: FileServiceConfig): (r: Option<Error>)
    ensures r.None?
  {
    None
  }

  /** `NewFileService`: `saver` is None for a nil interface value. A failure
      to read the environment only warns, and validation always passes, so a
      nil saver is the one way construction fails. */
  function NewFileService<S>(read: EnvRead<FileServiceConfig>, saver: Option<S>): (r: Result<FileService<S>>)
    ensures r.Err? <==> saver.None?
    ensures r.Err? ==> r.error == Message("saver is nil")
    ensures r.Ok? ==> r.value == FileService(saver.value, read.conf)
  {
    var conf := read.conf;
    match Validate(conf)
    case Some(e) => Err(Wrapped("failed to validate authentication service config", e))
    case None =>
      match saver
      case None => Err(Message("saver is nil"))
      case Some(s) => Ok(FileService(s, conf))
  }

  /** `FileService.Upload`, with the generated uuid passed in as `uid`;
      `saveOf(s)` is the Save of the saver `s`, and the service's own saver
      is the one called. */
  function Upload<S>(fs: FileService<S>, uid: string, filename: string, file: Bytes,
                     saveOf: S -> (string, Bytes) -> Result<string>): (r: Result<string>)
    ensures r == saveOf(fs.saver)(UploadName(uid, filename), file)
  {
    match saveOf(fs.saver)(UploadName(uid, filename), file)
    case Err(e) => Err(e)
    case Ok(id) => Ok(id)
  }
}
