/** The server of server.go: the upload pipeline, the two handlers that feed
    it, the URL download check and the choice of the listening address. Every
    external step is an outcome supplied by the caller. */
module Server {
  import opened Outcomes
  import opened ImageStore
  import opened Factory
  import opened Decimal

  const StatusOK := 200
  const StatusInternalServerError := 500

  /** The image type given to every uploaded original. */
  const OriginalType := "original"

  /** The stages of the upload pipeline. */
  datatype Stage =
    | TempFile      // create the temporary file
    | Copy          // copy the request body into it
    | DetectMime    // wrap it as an uploaded file, detecting its mime type
    | NewProcessor  // choose an image processor for it
    | RunProcessor  // run the processor on it
    | AssignHash    // take an identifier from the hash generator
    | Save          // persist it in the active store
    | FileSize      // read its final size

  /** The order in which uploadFile runs the stages. */
  const Pipeline: seq<Stage> :=
    [TempFile, Copy, DetectMime, NewProcessor, RunProcessor, AssignHash, Save, FileSize]

  /** The error message of the response when a stage fails. Taking an
      identifier cannot fail. */
  function FailureMessage(s: Stage): string
    requires s != AssignHash
  {
    match s
    case TempFile => "Unable to write to /tmp"
    case Copy => "Unable to copy image to disk!"
    case DetectMime => "Error detecting mime type!"
    case NewProcessor => "Unable to process image!"
    case RunProcessor => "Unable to process image!"
    case Save => "Unable to save image!"
    case FileSize => "Unable to fetch image metadata!"
  }

  /** What the external collaborators of one upload do: the temporary file's
      path, the copy, the detected mime type, the processor factory and run,
      the identifier the hash generator hands out, the active store's Save and
      the size lookup. */
  datatype Collaborators = Collaborators(
    tempFile: Outcome<string>,
    copy: Outcome<()>,
    detectMime: Outcome<string>,
    newProcessor: Outcome<()>,
    runProcessor: Outcome<()>,
    hash: string,
    save: (Store, string, StoreObject) -> Outcome<StoreObject>,
    fileSize: Outcome<int>)

  /** The server's configuration and the store that uploads are saved to. */
  datatype ServerState = ServerState(config: Configuration, store: Store)

  /** The arguments Save was invoked with. */
  datatype SaveCall = SaveCall(store: Store, path: string, obj: StoreObject)

  /** The JSON body written for a request: the upload's metadata, or an
      error message with its status code. */
  datatype Response =
    | Uploaded(link: string, mime: string, imageType: string, name: string, size: int)
    | Error(message: string, status: int)

  /** The staged upload of one request (uploadedfile.UploadedFile); the
      pipeline assigns its identifier in place. */
  class UploadedFile {
    var name: string
    var path: string
    var mime: string
    var hash: string

    constructor (name: string, path: string, mime: string)
      ensures this.name == name && this.path == path && this.mime == mime && hash == ""
    {
      this.name, this.path, this.mime, hash := name, path, mime, "";
    }

    method SetHash(h: string)
      modifies this
      ensures hash == h
      ensures name == old(name) && path == old(path) && mime == old(mime)
    {
      hash := h;
    }
  }

  /** The descriptor that the pipeline hands to Save. */
  function SentObject(c: Collaborators): (o: StoreObject)
    requires c.detectMime.Ok?
  {
    NewStoreObject(c.hash, c.detectMime.value, OriginalType)
  }

  /** Whether a stage succeeds, given the outcomes of the stages before it.
      Save is invoked on the temporary file's path with SentObject. */
  predicate StageOk(srv: ServerState, c: Collaborators, s: Stage) {
    match s
    case TempFile => c.tempFile.Ok?
    case Copy => c.copy.Ok?
    case DetectMime => c.detectMime.Ok?
    case NewProcessor => c.newProcessor.Ok?
    case RunProcessor => c.runProcessor.Ok?
    case AssignHash => true
    case Save => c.tempFile.Ok? && c.detectMime.Ok? && c.save(srv.store, c.tempFile.value, SentObject(c)).Ok?
    case FileSize => c.fileSize.Ok?
  }

  function Last(executed: seq<Stage>): Stage
    requires |executed| > 0
  {
    executed[|executed| - 1]
  }

  /** The specification of uploadFile for the response r, the stages that ran
      and the call made to Save:
      - the stages ran in pipeline order, and every one but the last succeeded;
      - the response is an error exactly when the last stage failed, with that
        stage's message and status 500;
      - a successful response means every stage ran, and it is built from the
        descriptor Save returned, the caller's file name and the size lookup;
      - Save was invoked exactly when it is among the stages that ran, with
        the temporary file's path and the sent descriptor. */
  ghost predicate UploadContract(srv: ServerState, c: Collaborators, fileName: string,
                                 r: Response, executed: seq<Stage>, saveCall: Option<SaveCall>)
  {
    && 0 < |executed| <= |Pipeline|
    && executed == Pipeline[..|executed|]
    && (forall i :: 0 <= i < |executed| - 1 ==> StageOk(srv, c, executed[i]))
    && (r.Error? <==> !StageOk(srv, c, Last(executed)))
    && (r.Error? ==>
          Last(executed) != AssignHash
          && r == Error(FailureMessage(Last(executed)), StatusInternalServerError))
    && (r.Uploaded? ==>
          && executed == Pipeline
          && c.tempFile.Ok? && c.detectMime.Ok? && c.fileSize.Ok?
          && var saved := c.save(srv.store, c.tempFile.value, SentObject(c));
          && saved.Ok?
          && r == Uploaded(saved.value.url, saved.value.mimeType, saved.value.imageType, fileName, c.fileSize.value))
    && (saveCall.Some? <==> Save in executed)
    && (saveCall.Some? ==>
          c.tempFile.Ok? && c.detectMime.Ok?
          && saveCall.value == SaveCall(srv.store, c.tempFile.value, SentObject(c)))
  }

  /** uploadFile: runs the stages in order and stops at the first that fails. */
  method UploadFile(srv: ServerState, c: Collaborators, fileName: string)
    returns (r: Response, executed: seq<Stage>, saveCall: Option<SaveCall>)
    ensures UploadContract(srv, c, fileName, r, executed, saveCall)
  {
    saveCall := None;
    executed := [TempFile];
    assert executed == Pipeline[..1];
    if c.tempFile.Fail? {
      return Error(FailureMessage(TempFile), StatusInternalServerError), executed, saveCall;
    }
    var tmpPath := c.tempFile.value;

    executed := executed + [Copy];
    assert executed == Pipeline[..2];
    if c.copy.Fail? {
      return Error(FailureMessage(Copy), StatusInternalServerError), executed, saveCall;
    }

    executed := executed + [DetectMime];
    assert executed == Pipeline[..3];
    if c.detectMime.Fail? {
      return Error(FailureMessage(DetectMime), StatusInternalServerError), executed, saveCall;
    }
    var upload := new UploadedFile(fileName, tmpPath, c.detectMime.value);

    executed := executed + [NewProcessor];
    assert executed == Pipeline[..4];
    if c.newProcessor.Fail? {
      return Error(FailureMessage(NewProcessor), StatusInternalServerError), executed, saveCall;
    }

    executed := executed + [RunProcessor];
    assert executed == Pipeline[..5];
    if c.runProcessor.Fail? {
      return Error(FailureMessage(RunProcessor), StatusInternalServerError), executed, saveCall;
    }

    executed := executed + [AssignHash];
    assert executed == Pipeline[..6];
    upload.SetHash(c.hash);
    var obj := NewStoreObject(upload.hash, upload.mime, OriginalType);

    executed := executed + [Save];
    assert executed == Pipeline[..7];
    saveCall := Some(SaveCall(srv.store, upload.path, obj));
    var saved := c.save(srv.store, upload.path, obj);
    if saved.Fail? {
      return Error(FailureMessage(Save), StatusInternalServerError), executed, saveCall;
    }

    executed := executed + [FileSize];
    assert executed == Pipeline[..8];
    if c.fileSize.Fail? {
      return Error(FailureMessage(FileSize), StatusInternalServerError), executed, saveCall;
    }
    var size := c.fileSize.value;

    r := Uploaded(saved.value.url, saved.value.mimeType, saved.value.imageType, fileName, size);
    assert executed == Pipeline;
  }

  /** The index of the first stage, from `from` on, that fails: an
      independent statement of where the pipeline stops. */
  function FirstFailure(srv: ServerState, c: Collaborators, from: nat): (k: Option<nat>)
    requires from <= |Pipeline|
    decreases |Pipeline| - from
  {
    if from == |Pipeline| then None
    else if !StageOk(srv, c, Pipeline[from]) then Some(from)
    else FirstFailure(srv, c, from + 1)
  }

  lemma {:induction false} FirstFailureAt(srv: ServerState, c: Collaborators, from: nat, k: nat)
    requires from <= k < |Pipeline|
    requires !StageOk(srv, c, Pipeline[k])
    requires forall j :: from <= j < k ==> StageOk(srv, c, Pipeline[j])
    ensures FirstFailure(srv, c, from) == Some(k)
    decreases k - from
  {
    if from < k {
      FirstFailureAt(srv, c, from + 1, k);
    }
  }

  lemma {:induction false} NoFirstFailure(srv: ServerState, c: Collaborators, from: nat)
    requires from <= |Pipeline|
    requires forall j :: from <= j < |Pipeline| ==> StageOk(srv, c, Pipeline[j])
    ensures FirstFailure(srv, c, from) == None
    decreases |Pipeline| - from
  {
    if from < |Pipeline| {
      NoFirstFailure(srv, c, from + 1);
    }
  }

  /** Fail fast: the upload fails exactly when some stage fails; it then stops
      at the first failing stage, answers with that stage's message and
      status 500, and no later stage runs. */
  lemma StopsAtFirstFailure(srv: ServerState, c: Collaborators, fileName: string,
                            r: Response, executed: seq<Stage>, saveCall: Option<SaveCall>)
    requires UploadContract(srv, c, fileName, r, executed, saveCall)
    ensures r.Error? <==> FirstFailure(srv, c, 0).Some?
    ensures r.Error? ==>
      var k := FirstFailure(srv, c, 0).value;
      && k != 5
      && executed == Pipeline[..k + 1]
      && r == Error(FailureMessage(Pipeline[k]), StatusInternalServerError)
    ensures r.Uploaded? ==> executed == Pipeline
  {
    var n := |executed|;
    assert forall j :: 0 <= j < n ==> executed[j] == Pipeline[j];
    if r.Error? {
      FirstFailureAt(srv, c, 0, n - 1);
    } else {
      assert executed == Pipeline;
      NoFirstFailure(srv, c, 0);
    }
  }

  /** Each failing stage has its own message, except that the processor's
      construction and its run share one. */
  lemma FailureMessagesDistinct(s: Stage, t: Stage)
    requires s != AssignHash && t != AssignHash && s != t
    requires FailureMessage(s) == FailureMessage(t)
    ensures (s == NewProcessor && t == RunProcessor) || (s == RunProcessor && t == NewProcessor)
  {
  }

  /** Save runs only once mime detection and the processor's construction and
      run have succeeded, after the identifier was assigned, and it is handed
      a descriptor named by the identifier, with the detected mime type, the
      type "original" and no URL. */
  lemma SaveOnlyAfterProcessing(srv: ServerState, c: Collaborators, fileName: string,
                                r: Response, executed: seq<Stage>, saveCall: Option<SaveCall>)
    requires UploadContract(srv, c, fileName, r, executed, saveCall)
    requires saveCall.Some?
    ensures c.tempFile.Ok? && c.copy.Ok? && c.detectMime.Ok? && c.newProcessor.Ok? && c.runProcessor.Ok?
    ensures |executed| >= 7 && executed[5] == AssignHash && executed[6] == Save
    ensures saveCall.value.path == c.tempFile.value
    ensures saveCall.value.obj == StoreObject(c.hash, c.detectMime.value, "original", "")
  {
    var i :| 0 <= i < |executed| && executed[i] == Save;
    assert executed[i] == Pipeline[i];
    assert i == 6;
    assert StageOk(srv, c, executed[0]) && StageOk(srv, c, executed[1]);
    assert StageOk(srv, c, executed[2]) && StageOk(srv, c, executed[3]) && StageOk(srv, c, executed[4]);
  }

  /** A failed size lookup comes after a successful Save, and nothing undoes
      that Save: the object stays persisted while the caller gets an error. */
  lemma MetadataFailureOrphansObject(srv: ServerState, c: Collaborators, fileName: string,
                                     r: Response, executed: seq<Stage>, saveCall: Option<SaveCall>)
    requires UploadContract(srv, c, fileName, r, executed, saveCall)
    requires r == Error("Unable to fetch image metadata!", StatusInternalServerError)
    ensures executed == Pipeline
    ensures saveCall.Some?
    ensures c.save(saveCall.value.store, saveCall.value.path, saveCall.value.obj).Ok?
  {
    var last := Last(executed);
    if last != FileSize {
      FailureMessagesDistinct(last, FileSize);
    }
    assert executed == Pipeline[..8];
    assert Save == executed[6];
    assert StageOk(srv, c, executed[6]);
  }

  /** A successful upload answers with the saved descriptor's link, mime type
      and type, the caller's display name (never the identifier, unless the
      two coincide) and the looked-up size; if the backend fills in only the
      URL, mime and type are the detected mime type and "original". */
  lemma UploadedResponse(srv: ServerState, c: Collaborators, fileName: string,
                         r: Response, executed: seq<Stage>, saveCall: Option<SaveCall>)
    requires UploadContract(srv, c, fileName, r, executed, saveCall)
    requires r.Uploaded?
    ensures saveCall.Some?
    ensures var saved := c.save(saveCall.value.store, saveCall.value.path, saveCall.value.obj);
      && saved.Ok?
      && r.link == saved.value.url && r.mime == saved.value.mimeType && r.imageType == saved.value.imageType
      && r.name == fileName && r.size == c.fileSize.value
      && (saved.value.mimeType == saveCall.value.obj.mimeType && saved.value.imageType == saveCall.value.obj.imageType
          ==> r.mime == c.detectMime.value && r.imageType == "original")
  {
    assert Save == executed[6];
  }

  /** The HTTP response of the download as far as the check reads it; the
      body is not modelled. Go reports an unknown length as -1. */
  datatype HttpResponse = HttpResponse(statusCode: int, contentLength: int)

  /** Why a download fails: the request cannot be built, the client reports
      an error, the status is not 200, or the body is declared empty. */
  datatype DownloadError = BadRequest | TransportError | NonOkStatus | EmptyFile

  /** download: builds the request, sends it, and accepts the response only
      with status 200 and a length that is not declared to be zero. */
  function Download(request: Outcome<()>, response: Outcome<HttpResponse>): (r: Result<HttpResponse, DownloadError>)
    ensures r.Success? <==>
      request.Ok? && response.Ok? && response.value.statusCode == StatusOK && response.value.contentLength != 0
    ensures r.Success? ==> r.value == response.value
    ensures request.Fail? ==> r == Failure(BadRequest)
    ensures request.Ok? && response.Fail? ==> r == Failure(TransportError)
    ensures request.Ok? && response.Ok? && response.value.statusCode != StatusOK ==> r == Failure(NonOkStatus)
    ensures r.Failure? ==> (DownloadErrorText(r.error).Some? <==> request.Ok? && response.Ok?)
  {
    if request.Fail? then Failure(BadRequest)
    else if response.Fail? then Failure(TransportError)
    else if StatusOK != response.value.statusCode then Failure(NonOkStatus)
    else if response.value.contentLength == 0 then Failure(EmptyFile)
    else Success(response.value)
  }

  /** The error text download returns for the checks it makes itself; the
      other two come from the HTTP library. */
  function DownloadErrorText(e: DownloadError): (t: Option<string>) {
    match e
    case NonOkStatus => Some("Non-200 status code received")
    case EmptyFile => Some("Empty file received")
    case _ => None
  }

  /** A response of unknown length is accepted; one declared empty is not. */
  lemma DownloadLength(request: Outcome<()>, status: int, length: int)
    requires request.Ok? && status == StatusOK
    ensures Download(request, Ok(HttpResponse(status, -1))).Success?
    ensures Download(request, Ok(HttpResponse(status, 0))) == Failure(EmptyFile)
    ensures length > 0 ==> Download(request, Ok(HttpResponse(status, length))).Success?
  {
  }

  const DownloadFailedMessage := "Error dowloading URL!"
  const FormFileFailedMessage := "Error processing file!"

  /** urlHandler: a failed download answers with its own message and status
      500 before any stage of the pipeline runs; otherwise the pipeline runs
      with an empty display name. */
  method UrlHandler(srv: ServerState, request: Outcome<()>, response: Outcome<HttpResponse>, c: Collaborators)
    returns (r: Response, executed: seq<Stage>, saveCall: Option<SaveCall>)
    ensures Download(request, response).Failure? ==>
      r == Error(DownloadFailedMessage, StatusInternalServerError) && executed == [] && saveCall == None
    ensures Download(request, response).Success? ==> UploadContract(srv, c, "", r, executed, saveCall)
  {
    var body := Download(request, response);
    if body.Failure? {
      return Error(DownloadFailedMessage, StatusInternalServerError), [], None;
    }
    r, executed, saveCall := UploadFile(srv, c, "");
  }

  /** fileHandler: a request without a readable "image" file answers with its
      own message and status 500; otherwise the pipeline runs with the
      uploaded file's name. */
  method FileHandler(srv: ServerState, formFile: Outcome<string>, c: Collaborators)
    returns (r: Response, executed: seq<Stage>, saveCall: Option<SaveCall>)
    ensures formFile.Fail? ==>
      r == Error(FormFileFailedMessage, StatusInternalServerError) && executed == [] && saveCall == None
    ensures formFile.Ok? ==> UploadContract(srv, c, formFile.value, r, executed, saveCall)
  {
    if formFile.Fail? {
      return Error(FormFileFailedMessage, StatusInternalServerError), [], None;
    }
    r, executed, saveCall := UploadFile(srv, c, formFile.value);
  }

  /** Every error either handler answers with has status 500. */
  lemma HandlerErrorsAre500(srv: ServerState, c: Collaborators, fileName: string,
                            r: Response, executed: seq<Stage>, saveCall: Option<SaveCall>)
    requires UploadContract(srv, c, fileName, r, executed, saveCall)
             || (r == Error(DownloadFailedMessage, StatusInternalServerError) && executed == [])
             || (r == Error(FormFileFailedMessage, StatusInternalServerError) && executed == [])
    ensures r.Error? ==> r.status == 500
  {
  }

  /** The listening address: ":" and the PORT environment value, or, when
      that is empty, ":" and the configured port in decimal. */
  function ListenAddress(envPort: string, configPort: int): (addr: string)
    ensures envPort != "" ==> addr == ":" + envPort
    ensures envPort == "" ==> addr == ":" + FormatInt(configPort)
  {
    var port := ":" + envPort;
    if port == ":" then ":" + FormatInt(configPort) else port
  }

  /** Without PORT, the address names exactly the configured port. */
  lemma ListenAddressNamesConfiguredPort(configPort: nat)
    ensures var addr := ListenAddress("", configPort);
      && |addr| > 1 && addr[0] == ':'
      && (forall i :: 1 <= i < |addr| ==> IsDigit(addr[i]))
      && ParseDigits(addr[1..]) == configPort
  {
    var addr := ListenAddress("", configPort);
    assert addr[1..] == Digits(configPort);
    ParseDigitsOfDigits(configPort);
  }

  /** Why the server cannot start: building a store aborted, or the chosen
      active store does not exist. */
  datatype StartupError = StoreConstruction(cause: FactoryError) | NoActiveStore(count: nat)

  /** CreateServer: builds every configured store and binds the server to the
      one at index `active`. Which store is active is a parameter: the source
      hands the whole list to a place that expects a single store. */
  method CreateServer(config: Configuration, envAuth: Outcome<Auth>, active: nat)
    returns (r: Result<ServerState, StartupError>)
    ensures r.Success? <==>
      && active < |config.stores|
      && forall i :: 0 <= i < |config.stores| ==> StoreFor(config.stores[i], envAuth).Success?
    ensures r.Success? ==>
      r.value == ServerState(config, StoreFor(config.stores[active], envAuth).value)
    ensures r.Failure? && r.error.StoreConstruction? ==>
      exists k :: 0 <= k < |config.stores|
        && (forall i :: 0 <= i < k ==> StoreFor(config.stores[i], envAuth).Success?)
        && StoreFor(config.stores[k], envAuth) == Failure(r.error.cause)
    ensures r.Failure? ==>
      (r.error.StoreConstruction? <==>
        exists i :: 0 <= i < |config.stores| && StoreFor(config.stores[i], envAuth).Failure?)
    ensures r.Failure? && r.error.NoActiveStore? ==> r.error.count == |config.stores|
  {
    var stores := NewImageStores(config, envAuth);
    if stores.Failure? {
      return Failure(StoreConstruction(stores.error));
    }
    if active >= |stores.value| {
      return Failure(NoActiveStore(|stores.value|));
    }
    return Success(ServerState(config, stores.value[active]));
  }
}
