/** The MongoDB backend's configuration and its connection with retry.

    The driver is not modelled: one connection attempt is described by a
    `Dial`, the outcome `mongo.Connect` and `client.Ping` would have on it. */
module MongoStore {
  import opened Errors
  import opened GoLib

  datatype FileStoreConfig = FileStoreConfig(uri: string, database: string)

  /** A connected `*mongo.Client`. */
  datatype Client = Client(handle: nat)

  /** The backend: it holds the connected client and nothing else. */
  datatype FileStore = FileStore(client: Client)

  /** `url.Parse`'s verdict on a string: None when it parses. */
  type UrlParser = string -> Option<Error>

  /** One connection attempt as the driver answers it: what `mongo.Connect`
      returns, and what `Ping` on the returned client would report. */
  datatype Dial = Dial(open: Result<Client>, pingErr: Option<Error>)

  /** `FileStoreConfig.validate`: the URI must parse; nothing else is checked. */
  function Validate(c: FileStoreConfig, parse: UrlParser): (r: Option<Error>)
    ensures r.None? <==> parse(c.uri).None?
    ensures r.Some? ==> r.value == Wrapped("failed to parse mongo uri", parse(c.uri).value)
  {
    match parse(c.uri)
    case Some(e) => Some(Wrapped("failed to parse mongo uri", e))
    case None => None
  }

  /** `loadConfig`: a read failure is returned before validation runs, and a
      validation failure is returned wrapped. */
  function LoadConfig(read: EnvRead<FileStoreConfig>, parse: UrlParser): (r: Result<FileStoreConfig>)
    ensures read.err.Some? ==> r == Err(Wrapped("failed to read mongo config", read.err.value))
    ensures read.err.None? && Validate(read.conf, parse).Some? ==>
              r == Err(Wrapped("failed to validate mongo config", Validate(read.conf, parse).value))
    ensures r.Ok? <==> read.err.None? && parse(read.conf.uri).None?
    ensures r.Ok? ==> r.value == read.conf
  {
    if read.err.Some? then Err(Wrapped("failed to read mongo config", read.err.value))
    else match Validate(read.conf, parse)
      case Some(e) => Err(Wrapped("failed to validate mongo config", e))
      case None => Ok(read.conf)
  }

  /** `connect`: the driver's own errors are replaced by the two sentinels. */
  function Connect(d: Dial): (r: Result<Client>)
    ensures r == Err(ErrConn) <==> d.open.Err?
    ensures r == Err(ErrPing) <==> d.open.Ok? && d.pingErr.Some?
    ensures r.Ok? <==> d.open.Ok? && d.pingErr.None?
    ensures r.Ok? ==> r.value == d.open.value
  {
    match d.open
    case Err(_) => Err(ErrConn)
    case Ok(client) =>
      if d.pingErr.Some? then Err(ErrPing) else Ok(client)
  }

  /** When opening fails no ping is issued: the ping outcome is irrelevant. */
  lemma ConnectNeverPingsAfterOpenFailure(e: Error, p1: Option<Error>, p2: Option<Error>)
    ensures Connect(Dial(Err(e), p1)) == Connect(Dial(Err(e), p2)) == Err(ErrConn)
  {
  }

  /** The classifier of `NewFileStoreRetry`: an error that is, or wraps,
      DeadlineExceeded, ErrConn or ErrPing is marked retryable; any other
      error gives nil, meaning fatal. */
  function Retryable(err: Error): (r: Option<Error>)
    ensures r.Some? <==> Is(err, DeadlineExceeded) || Is(err, ErrConn) || Is(err, ErrPing)
    ensures r.Some? ==> r.value == RetryableMark(err) && IsMarkedRetryable(r.value)
  {
    if Is(err, DeadlineExceeded) then Some(RetryableMark(err))
    else if Is(err, ErrConn) then Some(RetryableMark(err))
    else if Is(err, ErrPing) then Some(RetryableMark(err))
    else None
  }

  /** `NewFileStore`: a failure of `connect` is returned wrapped, so it still
      matches its sentinel and every failure is retryable. */
  function NewFileStore(d: Dial): (r: Result<FileStore>)
    ensures r.Ok? <==> Connect(d).Ok?
    ensures r.Ok? ==> r.value == FileStore(d.open.value)
    ensures r.Err? ==> (Is(r.error, ErrConn) <==> d.open.Err?)
    ensures r.Err? ==> (Is(r.error, ErrPing) <==> d.open.Ok?)
    ensures r.Err? ==> Retryable(r.error).Some?
  {
    match Connect(d)
    case Err(e) =>
      WrapPreservesIs("failed to connect to mongo", e, ErrConn);
      WrapPreservesIs("failed to connect to mongo", e, ErrPing);
      Err(Wrapped("failed to connect to mongo", e))
    case Ok(client) => Ok(FileStore(client))
  }

  /** What the attempt closure returns to retry.Do for one NewFileStore
      result: nil on success, the marked error when it is retryable, and the
      original error otherwise. */
  function AttemptError(res: Result<FileStore>): (r: Option<Error>)
    ensures r.None? <==> res.Ok?
    ensures res.Err? && Retryable(res.error).None? ==> r == Some(res.error)
    ensures res.Err? && Retryable(res.error).Some? ==> r == Some(RetryableMark(res.error))
  {
    match res
    case Ok(_) => None
    case Err(e) =>
      match Retryable(e)
      case Some(marked) => Some(marked)
      case None => Some(e)
  }

  /** retry.Do over the results of successive attempts, each attempt being
      started before the overall deadline. The stopping rule of the external
      retry library is assumed, not derived: the first success yields the
      store that attempt built, the first unmarked error is returned as it
      is, and running out of attempts yields the context's DeadlineExceeded. */
  function Do(results: seq<Result<FileStore>>): (r: Result<FileStore>)
    ensures r.Ok? ==> exists k :: 0 <= k < |results| && results[k] == r
    ensures r.Err? ==>
              || r.error == DeadlineExceeded
              || exists k :: 0 <= k < |results| && results[k] == r
                               && Retryable(r.error).None? && !IsMarkedRetryable(r.error)
    ensures r == Err(DeadlineExceeded) ==>
              forall j :: 0 <= j < |results| ==>
                AttemptError(results[j]).Some? && IsMarkedRetryable(AttemptError(results[j]).value)
    decreases |results|
  {
    if results == [] then Err(DeadlineExceeded)
    else match AttemptError(results[0])
      case None => Ok(results[0].value)
      case Some(e) => if IsMarkedRetryable(e) then Do(results[1..]) else Err(e)
  }

  /** The NewFileStore result of every attempt. */
  function Attempts(dials: seq<Dial>): (rs: seq<Result<FileStore>>)
    ensures |rs| == |dials|
    ensures forall i :: 0 <= i < |dials| ==> rs[i] == NewFileStore(dials[i])
  {
    seq(|dials|, i requires 0 <= i < |dials| => NewFileStore(dials[i]))
  }

  /** `NewFileStoreRetry` as a function of its environment. */
  function RetryResult(read: EnvRead<FileStoreConfig>, parse: UrlParser, dials: seq<Dial>): Result<FileStore>
  {
    match LoadConfig(read, parse)
    case Err(e) => Err(e)
    case Ok(_) => Do(Attempts(dials))
  }

  /** `NewFileStoreRetry`: loads the configuration, then runs the retry loop;
      each attempt calls NewFileStore and, on success, records the store in
      the captured variable returned once the loop reports success.
      `dials` are the attempts that start before the overall deadline. */
  method NewFileStoreRetry(read: EnvRead<FileStoreConfig>, parse: UrlParser, dials: seq<Dial>)
    returns (r: Result<FileStore>)
    ensures r == RetryResult(read, parse, dials)
  {
    var loaded := LoadConfig(read, parse);
    if loaded.Err? {
      return Err(loaded.error);
    }
    ghost var results := Attempts(dials);
    var filestore: Option<FileStore> := None;
    var doErr: Option<Error> := None;
    var finished := false;
    var i := 0;
    while !finished && i < |dials|
      invariant 0 <= i <= |dials|
      invariant !finished ==> filestore.None? && doErr.None? && Do(results[i..]) == Do(results)
      invariant finished && doErr.None? ==> filestore.Some? && Do(results) == Ok(filestore.value)
      invariant finished && doErr.Some? ==> Do(results) == Err(doErr.value)
      decreases |dials| - i, if finished then 0 else 1
    {
      assert results[i..][0] == results[i] && results[i..][1..] == results[i + 1..];
      // the attempt closure
      var fs := NewFileStore(dials[i]);
      var attemptErr: Option<Error>;
      match fs {
        case Err(e) =>
          match Retryable(e) {
            case Some(marked) => attemptErr := Some(marked);
            case None => attemptErr := Some(e);
          }
        case Ok(store) =>
          filestore := Some(store);
          attemptErr := None;
      }
      // retry.Do's decision on what the closure returned
      assert attemptErr == AttemptError(results[i]);
      if attemptErr.None? {
        finished := true;
      } else if !IsMarkedRetryable(attemptErr.value) {
        doErr := attemptErr;
        finished := true;
      } else {
        i := i + 1;
      }
    }
    if !finished {
      assert results[i..] == [];
      doErr := Some(DeadlineExceeded);
    }
    if doErr.Some? {
      return Err(doErr.value);
    }
    return Ok(filestore.value);
  }

  /** The loop stops at the first successful attempt, after any number of
      retryable failures, and yields the store that attempt built. */
  lemma {:induction false} DoStopsAtFirstSuccess(results: seq<Result<FileStore>>, k: nat)
    requires k < |results| && results[k].Ok?
    requires forall j :: 0 <= j < k ==> results[j].Err? && Retryable(results[j].error).Some?
    ensures Do(results) == results[k]
    decreases k
  {
    if k > 0 {
      DoStopsAtFirstSuccess(results[1..], k - 1);
    }
  }

  /** A non-retryable failure ends the loop, and it is the original error,
      not a marked one, that is returned. */
  lemma {:induction false} DoStopsAtFirstFatal(results: seq<Result<FileStore>>, k: nat)
    requires k < |results| && results[k].Err?
    requires Retryable(results[k].error).None? && !IsMarkedRetryable(results[k].error)
    requires forall j :: 0 <= j < k ==> results[j].Err? && Retryable(results[j].error).Some?
    ensures Do(results) == Err(results[k].error)
    decreases k
  {
    if k > 0 {
      DoStopsAtFirstFatal(results[1..], k - 1);
    }
  }

  /** When every attempt fails retryably the loop gives up with the
      deadline error. */
  lemma {:induction false} DoGivesUp(results: seq<Result<FileStore>>)
    requires forall j :: 0 <= j < |results| ==> results[j].Err? && Retryable(results[j].error).Some?
    ensures Do(results) == Err(DeadlineExceeded)
    decreases |results|
  {
    if results != [] {
      DoGivesUp(results[1..]);
    }
  }

  /** Since NewFileStore only fails retryably, connecting never fails fatally:
      the loop yields the client of the first attempt that both opens and
      pings, and otherwise gives up at the deadline. */
  lemma ConnectsAtFirstSuccessfulDial(dials: seq<Dial>, k: nat)
    requires k < |dials| && Connect(dials[k]).Ok?
    requires forall j :: 0 <= j < k ==> Connect(dials[j]).Err?
    ensures Do(Attempts(dials)) == Ok(FileStore(dials[k].open.value))
  {
    DoStopsAtFirstSuccess(Attempts(dials), k);
  }

  lemma GivesUpWhenNoDialSucceeds(dials: seq<Dial>)
    requires forall j :: 0 <= j < |dials| ==> Connect(dials[j]).Err?
    ensures Do(Attempts(dials)) == Err(DeadlineExceeded)
  {
    DoGivesUp(Attempts(dials));
  }

  /** A configuration that cannot be read or does not validate is returned
      before any connection is attempted. */
  lemma ConfigFailureComesFirst(read: EnvRead<FileStoreConfig>, parse: UrlParser, dials1: seq<Dial>, dials2: seq<Dial>)
    requires read.err.Some? || parse(read.conf.uri).Some?
    ensures RetryResult(read, parse, dials1) == RetryResult(read, parse, dials2) == Err(LoadConfig(read, parse).error)
  {
  }
}
