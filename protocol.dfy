/**
  The control protocol of the ingestion API as seen by `DIIPUploader`, with the
  network and the clock turned into inputs. Every HTTP request the uploader
  would send is recorded, in order, in `Session.sent`; the answer it gets back
  is a parameter (a `ControlResponse` for the API's own endpoints, a status
  code for the object-storage post). Time is an integer number of seconds.

  Each function here is the specification of one method of the uploader: it
  maps the uploader's state before the call to its state after the call and
  the call's outcome (a normal return or the exception it raises).
 */
module Protocol {
  import opened Names

  datatype Option<T> = None | Some(value: T)

  type Bytes = seq<bv8>

  /** The presigned-post target handed out by the API: an upload URL and its form fields. */
  datatype PresignData = PresignData(url: string, fields: map<string, string>)

  /** The JSON values the API's responses carry under the keys the uploader reads. */
  datatype JsonValue = JString(text: string) | JPresign(data: PresignData) | JNull

  type Body = map<string, JsonValue>

  /** A response from a control endpoint: its status and its body, `None` when the body is not JSON. */
  datatype ControlResponse = ControlResponse(status: int, body: Option<Body>)

  /** One HTTP request leaving the uploader. */
  datatype Request =
    | Control(verb: string, url: string, headers: map<string, string>)
    | S3Post(url: string, fields: map<string, string>, fileName: string, content: Bytes)

  /** The exceptions the uploader raises or lets through. */
  datatype Error =
    | HttpError(status: int)        // raise_for_status on a 4xx or 5xx answer
    | InvalidJson                   // response.json() on a body that is not JSON
    | KeyError(key: string)         // a response field the uploader reads is missing
    | ValueError(message: string)
    | TypeError(message: string)
    | UploadFailed(message: string) // the object-storage post did not answer 204
    | FileNotReadable(path: string) // open(path, "rb") failed

  datatype Result<T> = Ok(value: T) | Err(error: Error)
  datatype Outcome = Pass | Fail(error: Error)

  /** The runtime class of a binary stream object given to `upload_file`. `typing.BinaryIO`
      is a plain generic class, not an abstract base class with a subclass hook, so
      `isinstance` accepts only objects whose class derives from it explicitly. */
  datatype StreamKind =
    | StreamingBodyObject // botocore's StreamingBody
    | BinaryIOSubclass    // an instance of a class that derives from typing.BinaryIO
    | PlainBinaryStream   // io.BytesIO, or a file opened with open(path, "rb")

  /** What `upload_file` may be given as its `file` argument. */
  datatype FileSource =
    | Path(path: string, contents: Option<Bytes>) // a local path; None when it cannot be opened
    | Stream(data: Bytes, kind: StreamKind)       // a binary stream object of the given class
    | Other                                       // anything else

  /** A cached presigned target and the time until which it is reused. */
  datatype CacheEntry = CacheEntry(data: JsonValue, expiry: int)

  /** The uploader's whole state, together with the requests it has sent so far. */
  datatype Session = Session(
    baseUrl: string,
    apiKey: string,
    dataPackageId: Option<string>,
    cache: map<string, CacheEntry>,
    sent: seq<Request>)

  /** The state after a call, and whether the call returned or raised. */
  datatype Step = Step(session: Session, outcome: Outcome)

  /** The state after a presigned-target lookup, and the target or the error. */
  datatype Fetch = Fetch(session: Session, target: Result<JsonValue>)

  const Post := "POST"
  const ApiKeyHeader := "x-api-key"
  const InitEndpoint := "/upload/init"
  const IdKey := "dataPackageId"
  const PresignKey := "presignedUrlData"
  /** How long a presigned target is reused: 55 minutes, in seconds. */
  const UrlLifetime := 55 * 60
  const UploadSuccessStatus := 204
  const MissingFileNameMessage := "file_name must be provided when uploading a BinaryIO or StreamingBody object."
  const BadSourceMessage := "file must be a file path (str), a BinaryIO object, or a StreamingBody object."
  const NotSubscriptableMessage := "presigned URL data is not a mapping"

  function FailedUploadMessage(fileName: string): string {
    "Failed to upload file " + fileName
  }

  function CompleteEndpoint(id: string): string {
    "/upload/" + id + "/complete"
  }

  function EntityEndpoint(id: string, entity: string): string {
    "/upload/" + id + "/entity/" + entity
  }

  /** Python truthiness of an optional string: None and "" are false. */
  predicate Truthy(s: Option<string>) {
    s.Some? && s.value != ""
  }

  /** How an f-string renders the optional session id: None becomes "None". */
  function IdText(id: Option<string>): (t: string)
    ensures id.Some? ==> t == id.value
  {
    match id
    case Some(s) => s
    case None => "None"
  }

  /** The session id taken from the `dataPackageId` field of the init response. */
  function IdOf(v: JsonValue): Option<string> {
    match v
    case JString(s) => Some(s)
    case _ => None
  }

  /** The request `_api_call` sends: a POST to `base_url + endpoint` carrying the API key. */
  function ControlRequest(baseUrl: string, apiKey: string, endpoint: string): (req: Request)
    ensures req.Control? && req.verb == Post
    ensures |req.url| == |baseUrl| + |endpoint|
    ensures req.url[..|baseUrl|] == baseUrl && req.url[|baseUrl|..] == endpoint
    ensures req.headers.Keys == {ApiKeyHeader} && req.headers[ApiKeyHeader] == apiKey
  {
    Control(Post, baseUrl + endpoint, map[ApiKeyHeader := apiKey])
  }

  /** `raise_for_status` raises for a client or server error status. */
  predicate RaisesForStatus(status: int) {
    400 <= status < 600
  }

  /** What `_api_call` returns for a response: the JSON body, or the exception it raises. */
  function ControlResult(resp: ControlResponse): (r: Result<Body>)
    ensures r.Ok? <==> !RaisesForStatus(resp.status) && resp.body.Some?
    ensures r.Ok? ==> resp.body == Some(r.value)
    ensures RaisesForStatus(resp.status) ==> r == Err(HttpError(resp.status))
  {
    if RaisesForStatus(resp.status) then Err(HttpError(resp.status))
    else if resp.body.None? then Err(InvalidJson)
    else Ok(resp.body.value)
  }

  /** An object-storage post succeeds exactly on status 204. */
  predicate UploadSucceeded(status: int) {
    status == UploadSuccessStatus
  }

  /** Appends one request to the session's record of sent requests. */
  function Send(s: Session, req: Request): Session {
    s.(sent := s.sent + [req])
  }

  /** `t` is `s` with requests appended: URL, key and session id unchanged. */
  predicate Extends(s: Session, t: Session) {
    && t.baseUrl == s.baseUrl && t.apiKey == s.apiKey && t.dataPackageId == s.dataPackageId
    && |s.sent| <= |t.sent| && t.sent[..|s.sent|] == s.sent
  }

  /** `__init__`: no session id, an empty target cache, nothing sent. */
  function Fresh(baseUrl: string, apiKey: string): (s: Session)
    ensures s.baseUrl == baseUrl && s.apiKey == apiKey
    ensures s.dataPackageId.None? && s.cache == map[] && s.sent == []
  {
    Session(baseUrl, apiKey, None, map[], [])
  }

  /** `__enter__` (through `_initialize_upload`): one init request is sent; on success the
      session id becomes the response's `dataPackageId`, otherwise the call raises and
      nothing but the sent request changes. */
  function EnterSpec(s: Session, resp: ControlResponse): (r: Step)
    ensures r.session.sent == s.sent + [ControlRequest(s.baseUrl, s.apiKey, InitEndpoint)]
    ensures r.session.baseUrl == s.baseUrl && r.session.apiKey == s.apiKey
    ensures r.session.cache == s.cache
    ensures r.outcome.Pass? <==> ControlResult(resp).Ok? && IdKey in ControlResult(resp).value
    ensures r.outcome.Pass? ==> r.session.dataPackageId == IdOf(resp.body.value[IdKey])
    ensures r.outcome.Fail? ==> r.session.dataPackageId == s.dataPackageId
    ensures ControlResult(resp).Err? ==> r.outcome == Fail(ControlResult(resp).error)
  {
    var s1 := Send(s, ControlRequest(s.baseUrl, s.apiKey, InitEndpoint));
    match ControlResult(resp)
    case Err(e) => Step(s1, Fail(e))
    case Ok(body) =>
      if IdKey !in body then Step(s1, Fail(KeyError(IdKey)))
      else Step(s1.(dataPackageId := IdOf(body[IdKey])), Pass)
  }

  /** `__exit__` (through `_complete_upload`): when a session id is set, exactly one
      complete request for it is sent, whether or not an exception is in flight; when it is
      not, nothing is sent. Only the sent requests change. */
  function ExitSpec(s: Session, resp: ControlResponse, excInFlight: bool): (r: Step)
    ensures Truthy(s.dataPackageId) ==>
      r.session.sent == s.sent + [ControlRequest(s.baseUrl, s.apiKey, CompleteEndpoint(s.dataPackageId.value))]
    ensures !Truthy(s.dataPackageId) ==> r == Step(s, Pass)
    ensures r.session == s.(sent := r.session.sent)
    ensures r.outcome.Fail? <==> Truthy(s.dataPackageId) && ControlResult(resp).Err?
    ensures Extends(s, r.session)
  {
    if Truthy(s.dataPackageId) then
      var s1 := Send(s, ControlRequest(s.baseUrl, s.apiKey, CompleteEndpoint(s.dataPackageId.value)));
      match ControlResult(resp)
      case Err(e) => Step(s1, Fail(e))
      case Ok(_) => Step(s1, Pass)
    else Step(s, Pass)
  }

  /** `_get_diip_upload_entity_url`: a cached target is returned while `now` is before its
      expiry, without a request and without a change; otherwise one entity request is sent
      and, on success, the entity's entry becomes the response's target with an expiry 55
      minutes after `later` (the second clock reading), all other entries unchanged. */
  function EntityUrlSpec(s: Session, entity: string, now: int, later: int, resp: ControlResponse): (r: Fetch)
    ensures entity in s.cache && now < s.cache[entity].expiry ==>
      r == Fetch(s, Ok(s.cache[entity].data))
    ensures !(entity in s.cache && now < s.cache[entity].expiry) ==>
      && r.session.sent == s.sent + [ControlRequest(s.baseUrl, s.apiKey, EntityEndpoint(IdText(s.dataPackageId), entity))]
      && (r.target.Ok? <==> ControlResult(resp).Ok? && PresignKey in ControlResult(resp).value)
      && (r.target.Ok? ==>
            && r.target.value == resp.body.value[PresignKey]
            && r.session.cache == s.cache[entity := CacheEntry(r.target.value, later + UrlLifetime)])
      && (r.target.Err? ==> r.session.cache == s.cache)
    ensures Extends(s, r.session)
    ensures forall e :: e in s.cache && e != entity ==> e in r.session.cache && r.session.cache[e] == s.cache[e]
  {
    if entity in s.cache && now < s.cache[entity].expiry then
      Fetch(s, Ok(s.cache[entity].data))
    else
      var s1 := Send(s, ControlRequest(s.baseUrl, s.apiKey, EntityEndpoint(IdText(s.dataPackageId), entity)));
      match ControlResult(resp)
      case Err(e) => Fetch(s1, Err(e))
      case Ok(body) =>
        if PresignKey !in body then Fetch(s1, Err(KeyError(PresignKey)))
        else
          var target := body[PresignKey];
          Fetch(s1.(cache := s.cache[entity := CacheEntry(target, later + UrlLifetime)]), Ok(target))
  }

  /** `_upload_to_s3`: one multipart post of the content under the file name to the target's
      URL with its form fields; it succeeds exactly on status 204 and otherwise raises
      "Failed to upload file <name>". A target that is not a mapping raises before posting. */
  function UploadToS3Spec(s: Session, content: Bytes, target: JsonValue, fileName: string, status: int): (r: Step)
    ensures target.JPresign? ==>
      r.session.sent == s.sent + [S3Post(target.data.url, target.data.fields, fileName, content)]
    ensures !target.JPresign? ==> r == Step(s, Fail(TypeError(NotSubscriptableMessage)))
    ensures r.session == s.(sent := r.session.sent)
    ensures r.outcome.Pass? <==> target.JPresign? && UploadSucceeded(status)
    ensures target.JPresign? && !UploadSucceeded(status) ==>
      r.outcome == Fail(UploadFailed(FailedUploadMessage(fileName)))
  {
    match target
    case JPresign(d) =>
      var s1 := Send(s, S3Post(d.url, d.fields, fileName, content));
      if UploadSucceeded(status) then Step(s1, Pass)
      else Step(s1, Fail(UploadFailed(FailedUploadMessage(fileName))))
    case _ => Step(s, Fail(TypeError(NotSubscriptableMessage)))
  }

  /** The check `isinstance(file, (BinaryIO, StreamingBody))` as written. */
  predicate PassesStreamCheck(kind: StreamKind) {
    kind.StreamingBodyObject? || kind.BinaryIOSubclass?
  }

  /** The sources `upload_file` takes past its type checks: a path, or a stream object that
      passes the check above. */
  predicate Accepted(file: FileSource) {
    file.Path? || (file.Stream? && PassesStreamCheck(file.kind))
  }

  /** The name a file is uploaded under, or None when the source gives none:
      a path defaults to its last segment, an accepted stream needs an explicit non-empty name. */
  function DestinationName(file: FileSource, fileName: Option<string>): (n: Option<string>)
    ensures Truthy(fileName) && Accepted(file) ==> n == fileName
    ensures file.Path? && !Truthy(fileName) ==> n == Some(ExtractFileName(file.path))
    ensures n.Some? ==> Accepted(file)
    ensures file.Stream? && !Truthy(fileName) ==> n.None?
  {
    match file
    case Path(p, _) => Some(if Truthy(fileName) then fileName.value else ExtractFileName(p))
    case Stream(_, kind) => if Truthy(fileName) && PassesStreamCheck(kind) then fileName else None
    case Other => None
  }

  /** The bytes a source provides, when it can be read. */
  function SourceContent(file: FileSource): Option<Bytes> {
    match file
    case Path(_, contents) => contents
    case Stream(data, _) => Some(data)
    case Other => None
  }

  /** `upload_file`: the target for the cleaned entity name is looked up first, whatever the
      source; then a path is posted under its name (defaulting to the last path segment), an
      accepted stream without a non-empty name raises ValueError, and anything else, including
      a stream that fails the `isinstance` check, raises TypeError. No state guard: the call
      behaves the same with or without an open session. */
  function UploadFileSpec(s: Session, entityName: string, file: FileSource, fileName: Option<string>,
                          now: int, later: int, entityResp: ControlResponse, status: int): (r: Step)
    ensures var f := EntityUrlSpec(s, CleanNameForS3(entityName), now, later, entityResp);
      && (f.target.Err? ==> r == Step(f.session, Fail(f.target.error)))
      && (f.target.Ok? && !Accepted(file) ==> r == Step(f.session, Fail(TypeError(BadSourceMessage))))
      && (f.target.Ok? && Accepted(file) && file.Stream? && !Truthy(fileName) ==>
            r == Step(f.session, Fail(ValueError(MissingFileNameMessage))))
      && (f.target.Ok? && file.Path? && file.contents.None? ==>
            r == Step(f.session, Fail(FileNotReadable(file.path))))
      && (f.target.Ok? && DestinationName(file, fileName).Some? && SourceContent(file).Some? ==>
            r == UploadToS3Spec(f.session, SourceContent(file).value, f.target.value,
                                DestinationName(file, fileName).value, status))
    ensures Extends(s, r.session)
    ensures r.outcome.Pass? ==> UploadSucceeded(status) && Accepted(file) && DestinationName(file, fileName).Some?
  {
    var f := EntityUrlSpec(s, CleanNameForS3(entityName), now, later, entityResp);
    if f.target.Err? then Step(f.session, Fail(f.target.error))
    else
      match file
      case Path(p, contents) =>
        var name := if Truthy(fileName) then fileName.value else ExtractFileName(p);
        if contents.None? then Step(f.session, Fail(FileNotReadable(p)))
        else UploadToS3Spec(f.session, contents.value, f.target.value, name, status)
      case Stream(data, kind) =>
        if !PassesStreamCheck(kind) then Step(f.session, Fail(TypeError(BadSourceMessage)))
        else if !Truthy(fileName) then Step(f.session, Fail(ValueError(MissingFileNameMessage)))
        else UploadToS3Spec(f.session, data, f.target.value, fileName.value, status)
      case Other => Step(f.session, Fail(TypeError(BadSourceMessage)))
  }

  /** The stream check as its documentation describes it: every binary stream object counts,
      so an in-memory `io.BytesIO` or an open binary file is treated like a `typing.BinaryIO`
      subclass. Other sources are left as they are. */
  function AsIntended(file: FileSource): (g: FileSource)
    ensures Accepted(g) <==> !file.Other?
    ensures g.Stream? <==> file.Stream?
    ensures SourceContent(g) == SourceContent(file)
    ensures Accepted(file) ==> g == file
  {
    match file
    case Stream(data, PlainBinaryStream) => Stream(data, BinaryIOSubclass)
    case _ => file
  }

  /** `upload_file` as its docstring and its in-memory unit test describe it: the program's
      behaviour, except that every binary stream passes the type check. A named stream is then
      posted whatever its class, and only a source that is neither a path nor a stream raises
      TypeError. */
  function UploadFileIntended(s: Session, entityName: string, file: FileSource, fileName: Option<string>,
                              now: int, later: int, entityResp: ControlResponse, status: int): (r: Step)
    ensures var f := EntityUrlSpec(s, CleanNameForS3(entityName), now, later, entityResp);
      && (f.target.Ok? && file.Stream? && Truthy(fileName) ==>
            r == UploadToS3Spec(f.session, file.data, f.target.value, fileName.value, status))
      && (f.target.Ok? && file.Stream? && !Truthy(fileName) ==>
            r == Step(f.session, Fail(ValueError(MissingFileNameMessage))))
      && (f.target.Ok? && file.Other? ==> r == Step(f.session, Fail(TypeError(BadSourceMessage))))
    ensures Accepted(file) || file.Other? ==>
      r == UploadFileSpec(s, entityName, file, fileName, now, later, entityResp, status)
  {
    UploadFileSpec(s, entityName, AsIntended(file), fileName, now, later, entityResp, status)
  }
}
