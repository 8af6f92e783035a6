/** The GridFS operations of the MongoDB backend.

    The driver is not modelled: a `Gridfs` value says what each driver call
    made by the backend would return for the bucket of one connected client. */
module MongoFiles {
  import opened Errors
  import opened GoLib
  import opened Entity

  /** A lowercase hexadecimal digit, as `ObjectID.Hex` writes them. */
  predicate IsLowerHexDigit(c: char)
  {
    ('0' <= c <= '9') || ('a' <= c <= 'f')
  }

  /** A hexadecimal digit in either case, as `ObjectIDFromHex` reads them. */
  predicate IsHexDigit(c: char)
  {
    IsLowerHexDigit(c) || ('A' <= c <= 'F')
  }

  /** The rendering of a 12-byte ObjectID: 24 lowercase hexadecimal digits. */
  predicate IsObjectIdHex(s: string)
  {
    |s| == 24 && forall i :: 0 <= i < |s| ==> IsLowerHexDigit(s[i])
  }

  type ObjectIdHex = s: string | IsObjectIdHex(s) witness "000000000000000000000000"

  /** A `primitive.ObjectID`, represented by its rendering `Hex()`, which
      determines the 12 bytes and is determined by them. */
  datatype ObjectId = ObjectId(hex: ObjectIdHex)

  function LowerHexDigit(c: char): (d: char)
    requires IsHexDigit(c)
    ensures IsLowerHexDigit(d)
    ensures IsLowerHexDigit(c) ==> d == c
  {
    if 'A' <= c <= 'F' then (c as int - 'A' as int + 'a' as int) as char else c
  }

  /** `primitive.ObjectIDFromHex`: 24 hexadecimal digits of either case name
      an ObjectID; any other string is rejected. */
  function ObjectIdFromHex(s: string): (r: Result<ObjectId>)
    ensures r.Ok? <==> |s| == 24 && forall i :: 0 <= i < |s| ==> IsHexDigit(s[i])
    ensures r.Err? ==> r.error == InvalidHex
    ensures r.Ok? ==> forall i :: 0 <= i < |s| ==> r.value.hex[i] == LowerHexDigit(s[i])
  {
    if |s| == 24 && forall i :: 0 <= i < |s| ==> IsHexDigit(s[i]) then
      var hex := seq(|s|, i requires 0 <= i < |s| => LowerHexDigit(s[i]));
      Ok(ObjectId(hex))
    else Err(InvalidHex)
  }

  /** Parsing the rendering of an ObjectID gives that ObjectID back. */
  lemma HexRoundTrip(oid: ObjectId)
    ensures ObjectIdFromHex(oid.hex) == Ok(oid)
  {
    var r := ObjectIdFromHex(oid.hex);
    assert r.Ok?;
    assert r.value.hex == oid.hex;
  }

  /** The value in an upload stream's `FileID` field (an `interface{}`). */
  datatype FileIdValue = ObjectIdValue(oid: ObjectId) | OtherValue

  /** An opened upload stream: its id and what `Write` and `Close` report. */
  datatype UploadStream = UploadStream(fileId: FileIdValue, writeErr: Option<Error>, closeErr: Option<Error>)

  /** A file document of the bucket's files collection. */
  datatype Document =
    | FilesDoc(id: string, filename: string, length: int64, chunkSize: int64)
    | Malformed(decodeErr: Error)   // a document that does not decode into gridfsFile

  /** The documents a cursor yields, in order. */
  type Cursor = seq<Document>

  datatype Filter = ById(oid: ObjectId) | AllFiles

  /** What the driver answers, for one bucket handle, to each call the
      backend makes. */
  datatype Gridfs = Gridfs(
    bucketErr: Option<Error>,                    // gridfs.NewBucket
    openUpload: string -> Result<UploadStream>,  // bucket.OpenUploadStream(filename)
    download: ObjectId -> Result<Bytes>,         // bucket.DownloadToStream: the bytes it writes
    delete: ObjectId -> Option<Error>,           // bucket.Delete
    find: Filter -> Result<Cursor>)              // bucket.Find

  /** The `gridfsFile` record, filled from a document by its bson tags:
      `_id`, `filename` and `chunkSize`. */
  datatype GridfsFile = GridfsFile(id: string, name: string, size: int64)

  /** `cursor.Decode(&f)` into a gridfsFile: Size is read from `chunkSize`. */
  function Decode(d: Document): (r: Result<GridfsFile>)
    ensures d.FilesDoc? <==> r.Ok?
    ensures d.FilesDoc? ==> r.value == GridfsFile(d.id, d.filename, d.chunkSize)
    ensures d.Malformed? ==> r == Err(d.decodeErr)
  {
    match d
    case FilesDoc(id, filename, _, chunkSize) => Ok(GridfsFile(id, filename, chunkSize))
    case Malformed(e) => Err(e)
  }

  /** What Save does with the upload stream: nothing when it was never
      opened; otherwise it writes the buffered payload once. The deferred
      `Close` is not recorded: its result is discarded, so nothing Save
      returns depends on it (`SaveIgnoresClose`). */
  datatype UploadTrace = NoStream | Streamed(written: Bytes)

  /** The result of `Save`. `copyErr` is what `io.Copy` into the buffer
      reports; with a `bytes.Reader` source and a `bytes.Buffer` target it is
      always nil. */
  function SaveResult(g: Gridfs, copyErr: Option<Error>, filename: string, file: Bytes): Result<string>
  {
    if g.bucketErr.Some? then Err(g.bucketErr.value)
    else if copyErr.Some? then Err(copyErr.value)
    else match g.openUpload(filename)
      case Err(e) => Err(e)
      case Ok(stream) =>
        if stream.writeErr.Some? then Err(stream.writeErr.value)
        else match stream.fileId
          case OtherValue => Err(Message("invalid file id"))
          case ObjectIdValue(oid) => Ok(oid.hex)
  }

  /** Save opens an upload stream exactly when the bucket is obtained, the
      copy succeeds and OpenUploadStream succeeds. */
  predicate OpensStream(g: Gridfs, copyErr: Option<Error>, filename: string)
  {
    g.bucketErr.None? && copyErr.None? && g.openUpload(filename).Ok?
  }

  /** `io.Copy(buf, bytes.NewReader(src))`: the reader hands all of src to
      one Write of the buffer. */
  method Copy(dst: Buffer, src: Bytes, copyErr: Option<Error>) returns (err: Option<Error>)
    modifies dst
    ensures err == copyErr
    ensures err.None? ==> dst.data == old(dst.data) + src
  {
    if copyErr.Some? {
      return copyErr;
    }
    dst.Write(src);
    return None;
  }

  /** `FileStore.Save`: copies the payload into a buffer, opens an upload
      stream under the given name, writes the buffer to it and returns the
      stream's ObjectID rendered in hex. */
  method Save(g: Gridfs, copyErr: Option<Error>, filename: string, file: Bytes)
    returns (r: Result<string>, trace: UploadTrace)
    ensures r == SaveResult(g, copyErr, filename, file)
    ensures trace == if OpensStream(g, copyErr, filename) then Streamed(file) else NoStream
  {
    if g.bucketErr.Some? {
      return Err(g.bucketErr.value), NoStream;
    }
    var buf := new Buffer();
    var err := Copy(buf, file, copyErr);
    if err.Some? {
      return Err(err.value), NoStream;
    }
    var upload := g.openUpload(filename);
    if upload.Err? {
      return Err(upload.error), NoStream;
    }
    var stream := upload.value;
    // uploadStream.Close() is deferred; its result is discarded
    trace := Streamed(buf.data);
    if stream.writeErr.Some? {
      return Err(stream.writeErr.value), trace;
    }
    match stream.fileId {
      case OtherValue => r := Err(Message("invalid file id"));
      case ObjectIdValue(oid) => r := Ok(oid.hex);
    }
  }

  /** Save succeeds exactly when every step succeeds and the stream's id is
      an ObjectID; a failing step's error is returned as it is. */
  lemma SaveOutcomes(g: Gridfs, copyErr: Option<Error>, filename: string, file: Bytes)
    ensures var r := SaveResult(g, copyErr, filename, file);
      && (g.bucketErr.Some? ==> r == Err(g.bucketErr.value))
      && (g.bucketErr.None? && copyErr.Some? ==> r == Err(copyErr.value))
      && (g.bucketErr.None? && copyErr.None? && g.openUpload(filename).Err? ==> r == Err(g.openUpload(filename).error))
      && (OpensStream(g, copyErr, filename) && g.openUpload(filename).value.writeErr.Some? ==>
            r == Err(g.openUpload(filename).value.writeErr.value))
      && (r.Ok? <==> OpensStream(g, copyErr, filename) && g.openUpload(filename).value.writeErr.None?
                      && g.openUpload(filename).value.fileId.ObjectIdValue?)
      && (r.Ok? ==> r.value == g.openUpload(filename).value.fileId.oid.hex && IsObjectIdHex(r.value))
  {
  }

  /** Save's result does not depend on what closing the stream reports. */
  lemma SaveIgnoresClose(g: Gridfs, copyErr: Option<Error>, filename: string, file: Bytes,
                         stream: UploadStream, closeErr: Option<Error>)
    requires g.bucketErr.None? && g.openUpload(filename) == Ok(stream)
    ensures SaveResult(g.(openUpload := _ => Ok(stream.(closeErr := closeErr))), copyErr, filename, file)
         == SaveResult(g, copyErr, filename, file)
  {
  }

  /** The result of `Get`; the bytes are those the download wrote into the
      buffer. */
  function GetResult(g: Gridfs, id: string): Result<Bytes>
  {
    if g.bucketErr.Some? then Err(g.bucketErr.value)
    else match ObjectIdFromHex(id)
      case Err(e) => Err(e)
      case Ok(oid) => g.download(oid)
  }

  /** `bucket.DownloadToStream(oid, &buf)`: on success the driver has written
      the stored bytes into the buffer. */
  method DownloadToStream(g: Gridfs, oid: ObjectId, dst: Buffer) returns (err: Option<Error>)
    modifies dst
    ensures g.download(oid).Err? ==> err == Some(g.download(oid).error)
    ensures g.download(oid).Ok? ==> err.None? && dst.data == old(dst.data) + g.download(oid).value
  {
    match g.download(oid) {
      case Err(e) => err := Some(e);
      case Ok(bytes) =>
        dst.Write(bytes);
        err := None;
    }
  }

  /** `FileStore.Get`: parses the id, downloads into a fresh buffer and
      returns the buffer's bytes. */
  method Get(g: Gridfs, id: string) returns (r: Result<Bytes>)
    ensures r == GetResult(g, id)
  {
    if g.bucketErr.Some? {
      return Err(g.bucketErr.value);
    }
    var oid := ObjectIdFromHex(id);
    if oid.Err? {
      return Err(oid.error);
    }
    var buf := new Buffer();
    var err := DownloadToStream(g, oid.value, buf);
    if err.Some? {
      return Err(err.value);
    }
    assert buf.data == [] + g.download(oid.value).value == g.download(oid.value).value;
    return Ok(buf.data);
  }

  /** `FileStore.Delete`: succeeds exactly when the bucket is obtained, the
      id is 24 hexadecimal digits and the driver's delete succeeds; each
      failing step's error is returned as it is. */
  function Delete(g: Gridfs, id: string): (r: Option<Error>)
    ensures r.None? <==> (&& g.bucketErr.None?
                          && |id| == 24 && (forall i :: 0 <= i < |id| ==> IsHexDigit(id[i]))
                          && g.delete(ObjectIdFromHex(id).value).None?)
    ensures g.bucketErr.Some? ==> r == g.bucketErr
    ensures g.bucketErr.None? && ObjectIdFromHex(id).Err? ==> r == Some(InvalidHex)
  {
    if g.bucketErr.Some? then g.bucketErr
    else match ObjectIdFromHex(id)
      case Err(e) => Some(e)
      case Ok(oid) => g.delete(oid)
  }

  /** `fileInfoToEntity`: the record's fields are copied unchanged. */
  function FileInfoToEntity(f: GridfsFile): (r: FileInfo)
    ensures r.id == f.id && r.name == f.name && r.size == f.size
  {
    FileInfo(f.id, f.name, f.size)
  }

  /** `FileStore.File`: the first document matching the id, or "file not
      found" when there is none. It succeeds exactly when the bucket is
      obtained, the id parses, the find succeeds and its first document
      decodes, and then reports that document's id, name and chunk size. */
  function File(g: Gridfs, id: string): (r: Result<FileInfo>)
    ensures r.Ok? <==> (&& g.bucketErr.None? && ObjectIdFromHex(id).Ok?
                        && g.find(ById(ObjectIdFromHex(id).value)).Ok?
                        && |g.find(ById(ObjectIdFromHex(id).value)).value| > 0
                        && g.find(ById(ObjectIdFromHex(id).value)).value[0].FilesDoc?)
    ensures r.Ok? ==> var d := g.find(ById(ObjectIdFromHex(id).value)).value[0];
              r.value == FileInfo(d.id, d.filename, d.chunkSize)
    ensures g.bucketErr.Some? ==> r == Err(g.bucketErr.value)
  {
    if g.bucketErr.Some? then Err(g.bucketErr.value)
    else match ObjectIdFromHex(id)
      case Err(e) => Err(e)
      case Ok(oid) =>
        match g.find(ById(oid))
        case Err(e) => Err(e)
        case Ok(cursor) =>
          if |cursor| == 0 then Err(Message("file not found"))
          else match Decode(cursor[0])
            case Err(e) => Err(e)
            case Ok(f) => Ok(FileInfoToEntity(f))
  }

  /** An id that does not parse is an error, and no download, delete or find
      is made for it: the driver's answers to those calls do not matter. */
  lemma MalformedIdIsRejected(g: Gridfs, id: string,
                              download: ObjectId -> Result<Bytes>,
                              delete: ObjectId -> Option<Error>,
                              find: Filter -> Result<Cursor>)
    requires g.bucketErr.None? && ObjectIdFromHex(id).Err?
    ensures var g' := g.(download := download, delete := delete, find := find);
      && GetResult(g, id) == GetResult(g', id) == Err(InvalidHex)
      && Delete(g, id) == Delete(g', id) == Some(InvalidHex)
      && File(g, id) == File(g', id) == Err(InvalidHex)
  {
  }

  /** For an id that parses, Get returns exactly what the download wrote,
      or its error, and Delete returns exactly what the bucket's delete
      reports. */
  lemma WellFormedIdReachesBucket(g: Gridfs, id: string, oid: ObjectId)
    requires g.bucketErr.None? && ObjectIdFromHex(id) == Ok(oid)
    ensures GetResult(g, id) == g.download(oid)
    ensures Delete(g, id) == g.delete(oid)
  {
  }

  /** An id that Save returned always parses back to the ObjectID of the
      stream it was written to, so Get and Delete reach that object. */
  lemma SavedIdResolves(g: Gridfs, copyErr: Option<Error>, filename: string, file: Bytes)
    requires SaveResult(g, copyErr, filename, file).Ok?
    ensures var oid := g.openUpload(filename).value.fileId.oid;
      && ObjectIdFromHex(SaveResult(g, copyErr, filename, file).value) == Ok(oid)
      && GetResult(g, SaveResult(g, copyErr, filename, file).value) == g.download(oid)
      && Delete(g, SaveResult(g, copyErr, filename, file).value) == g.delete(oid)
  {
    HexRoundTrip(g.openUpload(filename).value.fileId.oid);
  }

  /** Round trip: when the bucket serves back what was written to the
      stream, a successful Save followed by Get returns the saved bytes.
      Save's trace is `Streamed(file)` whenever the stream is opened, so what
      was written to the stream is exactly `file`. */
  lemma SaveThenGet(g: Gridfs, copyErr: Option<Error>, filename: string, file: Bytes)
    requires SaveResult(g, copyErr, filename, file).Ok?
    requires g.download(g.openUpload(filename).value.fileId.oid) == Ok(file)
    ensures GetResult(g, SaveResult(g, copyErr, filename, file).value) == Ok(file)
  {
    SavedIdResolves(g, copyErr, filename, file);
  }

  /** File returns the find's own error when the find fails, answers "file
      not found" when no document matches, and otherwise decodes only the
      first match. */
  lemma FileUsesFirstMatch(g: Gridfs, id: string, oid: ObjectId, cursor: Cursor)
    requires g.bucketErr.None? && ObjectIdFromHex(id) == Ok(oid)
    requires g.find(ById(oid)).Ok? ==> g.find(ById(oid)) == Ok(cursor)
    ensures g.find(ById(oid)).Err? ==> File(g, id) == Err(g.find(ById(oid)).error)
    ensures g.find(ById(oid)).Ok? && cursor == [] ==> File(g, id) == Err(Message("file not found"))
    ensures g.find(ById(oid)).Ok? && cursor != [] && cursor[0].FilesDoc? ==>
              File(g, id) == Ok(FileInfo(cursor[0].id, cursor[0].filename, cursor[0].chunkSize))
    ensures g.find(ById(oid)).Ok? && cursor != [] && cursor[0].Malformed? ==>
              File(g, id) == Err(cursor[0].decodeErr)
  {
  }

  /** The size File reports is the document's chunkSize, which is not the
      length of the stored file: a 1 MiB file stored in 255 KiB chunks is
      reported with size 261120. */
  lemma FileSizeIsChunkSize(g: Gridfs, id: string, oid: ObjectId)
    requires g.bucketErr.None? && ObjectIdFromHex(id) == Ok(oid)
    requires g.find(ById(oid)) == Ok([FilesDoc(id, "photo.png", 1048576, 261120)])
    ensures File(g, id) == Ok(FileInfo(id, "photo.png", 261120))
  {
  }

  /** `cursor.All(&foundFiles)`: every document decoded, in order, or the
      first decoding error. */
  function CursorAll(cursor: Cursor): (r: Result<seq<GridfsFile>>)
    ensures r.Ok? <==> forall i :: 0 <= i < |cursor| ==> cursor[i].FilesDoc?
    ensures r.Ok? ==> |r.value| == |cursor| && forall i :: 0 <= i < |cursor| ==> Decode(cursor[i]) == Ok(r.value[i])
    ensures r.Err? ==> exists k :: 0 <= k < |cursor| && cursor[k] == Malformed(r.error)
                          && forall j :: 0 <= j < k ==> cursor[j].FilesDoc?
    decreases |cursor|
  {
    if cursor == [] then Ok([])
    else match Decode(cursor[0])
      case Err(e) => Err(e)
      case Ok(f) =>
        match CursorAll(cursor[1..])
        case Err(e) =>
          ghost var k :| 0 <= k < |cursor[1..]| && cursor[1..][k] == Malformed(e)
                         && forall j :: 0 <= j < k ==> cursor[1..][j].FilesDoc?;
          assert cursor[k + 1] == Malformed(e);
          Err(e)
        case Ok(rest) => Ok([f] + rest)
  }

  /** `filesListToEntity`: one entry per record, in the same order. */
  method FilesListToEntity(files: seq<GridfsFile>) returns (list: FileInfoList)
    ensures |list.files| == |files|
    ensures forall i :: 0 <= i < |files| ==> list.files[i] == FileInfo(files[i].id, files[i].name, files[i].size)
  {
    list := FileInfoList([]);
    for i := 0 to |files|
      invariant |list.files| == i
      invariant forall j :: 0 <= j < i ==> list.files[j] == FileInfoToEntity(files[j])
    {
      list := list.(files := list.files + [FileInfoToEntity(files[i])]);
    }
  }

  /** The documents Files lists, before conversion. */
  function FoundFiles(g: Gridfs): Result<seq<GridfsFile>>
  {
    if g.bucketErr.Some? then Err(g.bucketErr.value)
    else match g.find(AllFiles)
      case Err(e) => Err(e)
      case Ok(cursor) => CursorAll(cursor)
  }

  /** `FileStore.Files`: every document of the bucket, converted in order;
      closing the cursor has no influence on the result. */
  method Files(g: Gridfs) returns (r: Result<FileInfoList>)
    ensures FoundFiles(g).Err? ==> r == Err(FoundFiles(g).error)
    ensures FoundFiles(g).Ok? ==> r.Ok? && |r.value.files| == |FoundFiles(g).value|
    ensures FoundFiles(g).Ok? ==> forall i :: 0 <= i < |r.value.files| ==>
              r.value.files[i] == FileInfoToEntity(FoundFiles(g).value[i])
  {
    var found := FoundFiles(g);
    if found.Err? {
      return Err(found.error);
    }
    var list := FilesListToEntity(found.value);
    return Ok(list);
  }

  /** Listing an empty bucket gives an empty list, not an error, and every
      listed entry carries its document's id, name and chunkSize. */
  lemma FilesOfCursor(g: Gridfs, cursor: Cursor)
    requires g.bucketErr.None? && g.find(AllFiles) == Ok(cursor)
    ensures cursor == [] ==> FoundFiles(g) == Ok([])
    ensures FoundFiles(g).Ok? <==> forall i :: 0 <= i < |cursor| ==> cursor[i].FilesDoc?
    ensures FoundFiles(g).Ok? ==> forall i :: 0 <= i < |cursor| ==>
              FileInfoToEntity(FoundFiles(g).value[i]) == FileInfo(cursor[i].id, cursor[i].filename, cursor[i].chunkSize)
  {
  }
}
