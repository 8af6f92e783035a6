/** Projection of the storage records onto the API's records. */
module Dto {
  import opened Errors
  import opened GoLib
  import opened Entity

  /** `api.FileInfo`. */
  datatype ApiFileInfo = ApiFileInfo(id: string, size: uint32, filename: string)

  /** `api.FileInfoList`. */
  datatype ApiFileInfoList = ApiFileInfoList(total: uint32, files: seq<ApiFileInfo>)

  /** `fileInfoToApi`: id and name are copied; the int64 size is converted to
      uint32, keeping it modulo 2^32. */
  function FileInfoToApi(fi: FileInfo): (r: ApiFileInfo)
    ensures r.id == fi.id && r.filename == fi.name
    ensures (fi.size as int - r.size as int) % TwoTo32 == 0
    ensures 0 <= fi.size as int < TwoTo32 ==> r.size as int == fi.size as int
  {
    ApiFileInfo(fi.id, ToUint32(fi.size as int), fi.name)
  }

  /** A negative size wraps around: -1 is reported as 4294967295. */
  lemma NegativeSizeWraps(id: string, name: string)
    ensures FileInfoToApi(FileInfo(id, name, -1)).size == 0xFFFF_FFFF
  {
  }

  /** `fileInfoListToApi`: one entry per file, in order, and the count as a
      uint32. */
  method FileInfoListToApi(list: FileInfoList) returns (r: ApiFileInfoList)
    ensures (r.total as int - |list.files|) % TwoTo32 == 0
    ensures |list.files| < TwoTo32 ==> r.total as int == |list.files|
    ensures r.total == ToUint32(|list.files|)
    ensures |r.files| == |list.files|
    ensures forall i :: 0 <= i < |list.files| ==> r.files[i] == FileInfoToApi(list.files[i])
  {
    var files: seq<ApiFileInfo> := [];
    for i := 0 to |list.files|
      invariant |files| == i
      invariant forall j :: 0 <= j < i ==> files[j] == FileInfoToApi(list.files[j])
    {
      files := files + [FileInfoToApi(list.files[i])];
    }
    r := ApiFileInfoList(ToUint32(|list.files|), files);
  }

  /** `infoDto.GetFileInfo` over the use case's answer: an error is passed
      through with no result. */
  function GetFileInfo(info: Result<FileInfo>): (r: Result<ApiFileInfo>)
    ensures info.Err? ==> r == Err(info.error)
    ensures info.Ok? ==> r == Ok(FileInfoToApi(info.value))
  {
    match info
    case Err(e) => Err(e)
    case Ok(fi) => Ok(FileInfoToApi(fi))
  }

  /** `infoDto.ListFiles` over the use case's answer. */
  method ListFiles(list: Result<FileInfoList>) returns (r: Result<ApiFileInfoList>)
    ensures list.Err? ==> r == Err(list.error)
    ensures list.Ok? ==> r.Ok? && |r.value.files| == |list.value.files|
    ensures list.Ok? ==> r.value.total == ToUint32(|list.value.files|)
    ensures list.Ok? ==> forall i :: 0 <= i < |list.value.files| ==> r.value.files[i] == FileInfoToApi(list.value.files[i])
  {
    if list.Err? {
      return Err(list.error);
    }
    var api := FileInfoListToApi(list.value);
    return Ok(api);
  }
}
