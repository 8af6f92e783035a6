/** The records the storage layer hands to the upper layers. */
module Entity {
  import opened GoLib

  /** Metadata of one stored file. */
  datatype FileInfo = FileInfo(id: string, name: string, size: int64)

  /** A listing of stored files, in the order the backend produced them. */
  datatype FileInfoList = FileInfoList(files: seq<FileInfo>)
}
