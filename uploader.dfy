/**
  `DIIPUploader`, the session client. Its fields are the ones the Python class
  keeps (`base_url`, `api_key`, `data_package_id`, `_entity_url_cache`), plus
  `sent`, the requests handed to the HTTP library so far. Each method takes the
  network's answers and the clock readings it needs as parameters and is proved
  to move the object exactly as the matching `Protocol` function says.
 */
module Uploader {
  import opened Names
  import opened Protocol

  class DIIPUploader {
    var baseUrl: string
    var apiKey: string
    var dataPackageId: Option<string>
    var entityUrlCache: map<string, CacheEntry>
    var sent: seq<Request>

    /** The object's state as a value. */
    function State(): Session
      reads this
    {
      Session(baseUrl, apiKey, dataPackageId, entityUrlCache, sent)
    }

    constructor (baseUrl: string, apiKey: string)
      ensures State() == Fresh(baseUrl, apiKey)
    {
      this.baseUrl := baseUrl;
      this.apiKey := apiKey;
      this.dataPackageId := None;
      this.entityUrlCache := map[];
      this.sent := [];
    }

    /** `__enter__`: opens the upload session and keeps its id. */
    method Enter(resp: ControlResponse) returns (o: Outcome)
      modifies this
      ensures Step(State(), o) == EnterSpec(old(State()), resp)
    {
      var id := InitializeUpload(resp);
      match id
      case Ok(v) =>
        dataPackageId := v;
        o := Pass;
      case Err(e) =>
        o := Fail(e);
    }

    /** `__exit__`: completes the session whenever an id is set. An exception in flight
        only changes what is logged, so `excInFlight` does not affect the result. */
    method Exit(resp: ControlResponse, excInFlight: bool) returns (o: Outcome)
      modifies this
      ensures Step(State(), o) == ExitSpec(old(State()), resp, excInFlight)
    {
      o := Pass;
      if Truthy(dataPackageId) {
        o := CompleteUpload(resp);
      }
    }

    /** `upload_file`: looks up the entity's target first, then dispatches on the source. */
    method UploadFile(entityName: string, file: FileSource, fileName: Option<string>,
                      now: int, later: int, entityResp: ControlResponse, status: int)
      returns (o: Outcome)
      modifies this
      ensures Step(State(), o) ==
        UploadFileSpec(old(State()), entityName, file, fileName, now, later, entityResp, status)
    {
      var target := GetEntityUrl(CleanNameForS3(entityName), now, later, entityResp);
      if target.Err? {
        return Fail(target.error);
      }
      match file
      case Path(p, contents) =>
        var name := if Truthy(fileName) then fileName.value else ExtractFileName(p);
        if contents.None? {
          o := Fail(FileNotReadable(p));
        } else {
          o := UploadToS3(contents.value, target.value, name, status);
        }
      case Stream(data, kind) =>
        if !PassesStreamCheck(kind) {
          o := Fail(TypeError(BadSourceMessage));
        } else if !Truthy(fileName) {
          o := Fail(ValueError(MissingFileNameMessage));
        } else {
          o := UploadToS3(data, target.value, fileName.value, status);
        }
      case Other =>
        o := Fail(TypeError(BadSourceMessage));
    }

    /** `_initialize_upload`: the init call, returning the `dataPackageId` field. */
    method InitializeUpload(resp: ControlResponse) returns (r: Result<Option<string>>)
      modifies this
      ensures State() == old(State()).(sent := old(sent) + [ControlRequest(baseUrl, apiKey, InitEndpoint)])
      ensures r.Ok? <==> ControlResult(resp).Ok? && IdKey in ControlResult(resp).value
      ensures r.Ok? ==> r.value == IdOf(resp.body.value[IdKey])
      ensures r.Err? ==> r.error == if ControlResult(resp).Err? then ControlResult(resp).error else KeyError(IdKey)
    {
      var body := ApiCall(InitEndpoint, resp);
      if body.Err? {
        return Err(body.error);
      }
      if IdKey !in body.value {
        return Err(KeyError(IdKey));
      }
      r := Ok(IdOf(body.value[IdKey]));
    }

    /** `_complete_upload`: the complete call for the current id, as the f-string renders it. */
    method CompleteUpload(resp: ControlResponse) returns (o: Outcome)
      modifies this
      ensures State() == old(State()).(sent := old(sent) +
        [ControlRequest(baseUrl, apiKey, CompleteEndpoint(IdText(dataPackageId)))])
      ensures o == if ControlResult(resp).Err? then Fail(ControlResult(resp).error) else Pass
    {
      var body := ApiCall(CompleteEndpoint(IdText(dataPackageId)), resp);
      o := if body.Err? then Fail(body.error) else Pass;
    }

    /** `_get_diip_upload_entity_url`: the per-entity target cache. */
    method GetEntityUrl(entity: string, now: int, later: int, resp: ControlResponse)
      returns (r: Result<JsonValue>)
      modifies this
      ensures Fetch(State(), r) == EntityUrlSpec(old(State()), entity, now, later, resp)
    {
      if entity in entityUrlCache {
        var entry := entityUrlCache[entity];
        if now < entry.expiry {
          return Ok(entry.data);
        }
      }
      var body := ApiCall(EntityEndpoint(IdText(dataPackageId), entity), resp);
      if body.Err? {
        return Err(body.error);
      }
      if PresignKey !in body.value {
        return Err(KeyError(PresignKey));
      }
      var target := body.value[PresignKey];
      entityUrlCache := entityUrlCache[entity := CacheEntry(target, later + UrlLifetime)];
      r := Ok(target);
    }

    /** `_upload_to_s3`: the multipart post to the presigned URL. */
    method UploadToS3(content: Bytes, target: JsonValue, fileName: string, status: int)
      returns (o: Outcome)
      modifies this
      ensures Step(State(), o) == UploadToS3Spec(old(State()), content, target, fileName, status)
    {
      if !target.JPresign? {
        return Fail(TypeError(NotSubscriptableMessage));
      }
      sent := sent + [S3Post(target.data.url, target.data.fields, fileName, content)];
      if status == UploadSuccessStatus {
        o := Pass;
      } else {
        o := Fail(UploadFailed(FailedUploadMessage(fileName)));
      }
    }

    /** `_api_call`: a POST to `base_url + endpoint` with the API key header, then
        `raise_for_status` and `response.json()`. */
    method ApiCall(endpoint: string, resp: ControlResponse) returns (r: Result<Body>)
      modifies this
      ensures State() == old(State()).(sent := old(sent) + [ControlRequest(baseUrl, apiKey, endpoint)])
      ensures r == ControlResult(resp)
    {
      var url := baseUrl + endpoint;
      var headers := map[ApiKeyHeader := apiKey];
      sent := sent + [Control(Post, url, headers)];
      if 400 <= resp.status < 600 {
        r := Err(HttpError(resp.status));
      } else if resp.body.None? {
        r := Err(InvalidJson);
      } else {
        r := Ok(resp.body.value);
      }
    }
  }
}
