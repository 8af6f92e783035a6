/** The upload/download use case over a storage provider. The provider's
    operations are parameters: what its Save, Get and Delete return. */
module Provider {
  import opened Errors
  import opened GoLib
  import opened Naming

  /** `provider.Upload`, with the generated uuid passed in as `uid`: the
      bytes are saved unchanged under `uid + Ext(filename)`, and Save's id,
      or with an empty id its error, is the result. */
  function Upload(uid: string, filename: string, file: Bytes, save: (string, Bytes) -> Result<string>): (r: Result<string>)
    ensures r == save(UploadName(uid, filename), file)
  {
    match save(UploadName(uid, filename), file)
    case Err(e) => Err(e)
    case Ok(id) => Ok(id)
  }

  /** Two uploads of the same bytes whose names share the extension make
      the same call, whatever the rest of the names. */
  lemma UploadIgnoresBaseName(uid: string, f1: string, f2: string, file: Bytes, save: (string, Bytes) -> Result<string>)
    requires Ext(f1) == Ext(f2)
    ensures Upload(uid, f1, file, save) == Upload(uid, f2, file, save)
  {
    UploadNameIgnoresBaseName(uid, f1, f2);
  }

  /** `provider.Download`: the source's bytes, or nil with its error. */
  function Download(id: string, get: string -> Result<Bytes>): (r: Result<Bytes>)
    ensures r == get(id)
  {
    match get(id)
    case Err(e) => Err(e)
    case Ok(file) => Ok(file)
  }

  /** `provider.DeleteFile`: the source's error, or nil. */
  function DeleteFile(id: string, delete: string -> Option<Error>): (r: Option<Error>)
    ensures r == delete(id)
  {
    match delete(id)
    case Some(e) => Some(e)
    case None => None
  }
}
