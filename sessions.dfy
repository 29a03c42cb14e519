/**
  A whole `with uploader:` block: `__enter__`,
  a sequence of `upload_file` calls in which the first exception escapes the
  block body, then `__exit__` with that exception in flight. The lemmas state
  what the request trace of such a block looks like.
 */
module Sessions {
  import opened Names
  import opened Protocol

  /** The arguments of one `upload_file` call together with the answers it receives. */
  datatype UploadCall = UploadCall(
    entityName: string,
    file: FileSource,
    fileName: Option<string>,
    now: int,
    later: int,
    entityResponse: ControlResponse,
    status: int)

  function UploadStep(s: Session, c: UploadCall): Step {
    UploadFileSpec(s, c.entityName, c.file, c.fileName, c.now, c.later, c.entityResponse, c.status)
  }

  /** The block body: uploads run in order until one raises. */
  function RunUploads(s: Session, calls: seq<UploadCall>): (r: Step)
    ensures Extends(s, r.session)
    decreases |calls|
  {
    if calls == [] then Step(s, Pass)
    else
      var st := UploadStep(s, calls[0]);
      if st.outcome.Fail? then st
      else
        var r := RunUploads(st.session, calls[1..]);
        assert r.session.sent[..|s.sent|] == r.session.sent[..|st.session.sent|][..|s.sent|];
        r
  }

  /** The whole block, on an uploader in state `s`: a newly constructed one, or one that has
      been entered before and keeps its target cache. If `__enter__` raises, `__exit__` is not
      run. Otherwise `__exit__` runs with the body's exception (if any) in flight; an exception
      it raises itself replaces the body's. */
  function WithBlock(s: Session, initResp: ControlResponse,
                     calls: seq<UploadCall>, completeResp: ControlResponse): (r: Step)
    ensures |r.session.sent| > |s.sent| && r.session.sent[..|s.sent|] == s.sent
    ensures r.session.sent[|s.sent|] == ControlRequest(s.baseUrl, s.apiKey, InitEndpoint)
    ensures r.session.baseUrl == s.baseUrl && r.session.apiKey == s.apiKey
  {
    var e := EnterSpec(s, initResp);
    if e.outcome.Fail? then e
    else
      var b := RunUploads(e.session, calls);
      var x := ExitSpec(b.session, completeResp, b.outcome.Fail?);
      ExtendsTrans(e.session, b.session, x.session);
      InitLeadsBlock(s, e.session, x.session);
      Step(x.session, if x.outcome.Fail? then x.outcome else b.outcome)
  }

  /** Appending to an appended record is appending. */
  lemma ExtendsTrans(a: Session, b: Session, c: Session)
    requires Extends(a, b) && Extends(b, c)
    ensures Extends(a, c)
  {
    assert c.sent[..|a.sent|] == c.sent[..|b.sent|][..|a.sent|];
  }

  /** A record that extends the one `__enter__` leaves starts with the old record and the init call. */
  lemma InitLeadsBlock(s: Session, e: Session, t: Session)
    requires e.sent == s.sent + [ControlRequest(s.baseUrl, s.apiKey, InitEndpoint)]
    requires Extends(e, t)
    ensures |t.sent| > |s.sent| && t.sent[..|s.sent|] == s.sent
    ensures t.sent[|s.sent|] == ControlRequest(s.baseUrl, s.apiKey, InitEndpoint)
  {
    assert t.sent[..|s.sent|] == e.sent[..|s.sent|];
    assert t.sent[|s.sent|] == e.sent[|s.sent|];
  }

  /** The request that completes session `id`. */
  function CompleteRequest(baseUrl: string, apiKey: string, id: string): Request {
    ControlRequest(baseUrl, apiKey, CompleteEndpoint(id))
  }

  /** An entity lookup never targets the complete endpoint of the same session:
      the two URLs first differ right after "/upload/<id>/". */
  lemma EntityRequestIsNotComplete(baseUrl: string, apiKey: string, id: string, entity: string)
    ensures ControlRequest(baseUrl, apiKey, EntityEndpoint(id, entity)) != CompleteRequest(baseUrl, apiKey, id)
  {
    var k := |baseUrl| + |"/upload/"| + |id| + 1;
    var entityUrl := ControlRequest(baseUrl, apiKey, EntityEndpoint(id, entity)).url;
    var completeUrl := CompleteRequest(baseUrl, apiKey, id).url;
    assert entityUrl == baseUrl + "/upload/" + id + "/entity/" + entity;
    assert completeUrl == baseUrl + "/upload/" + id + "/complete";
    assert entityUrl[k] == 'e';
    assert completeUrl[k] == 'c';
  }

  /** One `upload_file` call sends no complete request for the session it runs in. */
  lemma UploadSendsNoComplete(s: Session, c: UploadCall, id: string)
    requires s.dataPackageId == Some(id)
    requires CompleteRequest(s.baseUrl, s.apiKey, id) !in s.sent
    ensures CompleteRequest(s.baseUrl, s.apiKey, id) !in UploadStep(s, c).session.sent
  {
    var entity := CleanNameForS3(c.entityName);
    var f := EntityUrlSpec(s, entity, c.now, c.later, c.entityResponse);
    var r := UploadStep(s, c).session;
    EntityRequestIsNotComplete(s.baseUrl, s.apiKey, id, entity);
    assert f.session.sent == s.sent || f.session.sent == s.sent + [ControlRequest(s.baseUrl, s.apiKey, EntityEndpoint(id, entity))];
    assert r.sent == f.session.sent || exists q: Request :: q.S3Post? && r.sent == f.session.sent + [q];
  }

  /** The block body sends no complete request for its session. */
  lemma {:induction false} UploadsSendNoComplete(s: Session, calls: seq<UploadCall>, id: string)
    requires s.dataPackageId == Some(id)
    requires CompleteRequest(s.baseUrl, s.apiKey, id) !in s.sent
    ensures CompleteRequest(s.baseUrl, s.apiKey, id) !in RunUploads(s, calls).session.sent
    decreases |calls|
  {
    if calls != [] {
      var st := UploadStep(s, calls[0]);
      UploadSendsNoComplete(s, calls[0], id);
      if st.outcome.Pass? {
        UploadsSendNoComplete(st.session, calls[1..], id);
      }
    }
  }

  /** Session finalisation: when `__enter__` raises, the only request the block sends is the
      init call. Otherwise the complete request for the new session id is sent as the block's
      last request when that id is set, and exactly once when no earlier session of the
      uploader completed the same id; this holds whether or not an upload in the block raised.
      When the id is not set, `__exit__` sends nothing. */
  lemma CompleteSentExactlyOnce(s: Session, initResp: ControlResponse,
                                calls: seq<UploadCall>, completeResp: ControlResponse)
    ensures var e := EnterSpec(s, initResp);
      var r := WithBlock(s, initResp, calls, completeResp);
      && (e.outcome.Fail? ==> r.session.sent == s.sent + [ControlRequest(s.baseUrl, s.apiKey, InitEndpoint)])
      && (e.outcome.Pass? && Truthy(e.session.dataPackageId) ==>
            var done := CompleteRequest(s.baseUrl, s.apiKey, e.session.dataPackageId.value);
            && r.session.sent[|r.session.sent| - 1] == done
            && (done !in s.sent ==> multiset(r.session.sent)[done] == 1))
      && (e.outcome.Pass? && !Truthy(e.session.dataPackageId) ==>
            r.session.sent == RunUploads(e.session, calls).session.sent)
  {
    var e := EnterSpec(s, initResp);
    if e.outcome.Pass? && Truthy(e.session.dataPackageId) {
      var id := e.session.dataPackageId.value;
      var done := CompleteRequest(s.baseUrl, s.apiKey, id);
      var init := ControlRequest(s.baseUrl, s.apiKey, InitEndpoint);
      var b := RunUploads(e.session, calls).session;
      var r := WithBlock(s, initResp, calls, completeResp);
      assert r.session.sent == b.sent + [done];
      if done !in s.sent {
        assert done != init by {
          assert |done.url| > |init.url|;
        }
        assert e.session.sent == s.sent + [init];
        UploadsSendNoComplete(e.session, calls, id);
      }
    }
  }

  /** The block's result once `__enter__` has returned: a failing complete call's exception
      is the block's outcome, and otherwise the body's outcome is. */
  lemma BlockOutcome(s: Session, initResp: ControlResponse,
                     calls: seq<UploadCall>, completeResp: ControlResponse)
    ensures var e := EnterSpec(s, initResp);
      var r := WithBlock(s, initResp, calls, completeResp);
      e.outcome.Pass? ==>
        var b := RunUploads(e.session, calls);
        && (Truthy(e.session.dataPackageId) && ControlResult(completeResp).Err? ==>
              r.outcome == Fail(ControlResult(completeResp).error))
        && (!(Truthy(e.session.dataPackageId) && ControlResult(completeResp).Err?) ==>
              r.outcome == b.outcome)
  {
  }

  /** `__exit__` does not look at the exception in flight: `exc_type` only decides what is
      logged. This holds by construction, since `ExitSpec` never reads `excInFlight`; the
      lemma records it as a fact about the whole state and outcome. */
  lemma ExitIgnoresException(s: Session, resp: ControlResponse)
    ensures ExitSpec(s, resp, true) == ExitSpec(s, resp, false)
  {
  }

  /** No state guard: `upload_file` on an uploader that was never entered still asks the API
      for a target, under the session id "None". */
  lemma UploadBeforeEnterStillCallsApi(baseUrl: string, apiKey: string, c: UploadCall)
    ensures var r := UploadStep(Fresh(baseUrl, apiKey), c);
      && |r.session.sent| >= 1
      && r.session.sent[0] ==
           ControlRequest(baseUrl, apiKey, EntityEndpoint("None", CleanNameForS3(c.entityName)))
  {
  }

  /** Presigned targets are reused: after a successful lookup for an entity, a second lookup
      for it before `later + 55 minutes` returns the same target and sends nothing. */
  lemma TargetReusedWithinLifetime(s: Session, entity: string, now1: int, later1: int,
                                   resp1: ControlResponse, now2: int, later2: int, resp2: ControlResponse)
    requires EntityUrlSpec(s, entity, now1, later1, resp1).target.Ok?
    requires !(entity in s.cache && now1 < s.cache[entity].expiry)
    requires now2 < later1 + UrlLifetime
    ensures var f1 := EntityUrlSpec(s, entity, now1, later1, resp1);
      EntityUrlSpec(f1.session, entity, now2, later2, resp2) == f1
  {
  }

  /** Targets are cached on the uploader, not on the session: entering again keeps the cache,
      so an unexpired target fetched under an earlier session id is returned with no request,
      whatever id the new session gets. */
  lemma TargetReusedAcrossSessions(s: Session, initResp: ControlResponse, entity: string,
                                   now: int, later: int, resp: ControlResponse)
    requires entity in s.cache && now < s.cache[entity].expiry
    ensures var e := EnterSpec(s, initResp);
      EntityUrlSpec(e.session, entity, now, later, resp) == Fetch(e.session, Ok(s.cache[entity].data))
  {
  }

  /** Entity names that differ only in spaces versus dashes share one cached target. */
  lemma SpaceAndDashShareTarget(s: Session, a: string, b: string, now: int, later: int, resp: ControlResponse)
    requires |a| == |b|
    requires forall i :: 0 <= i < |a| ==>
      a[i] == b[i] || ((a[i] == ' ' || a[i] == '-') && (b[i] == ' ' || b[i] == '-'))
    ensures EntityUrlSpec(s, CleanNameForS3(a), now, later, resp) ==
            EntityUrlSpec(s, CleanNameForS3(b), now, later, resp)
  {
    assert CleanNameForS3(a) == CleanNameForS3(b);
  }

  /** The unit test's context-manager scenario: init answers dataPackageId "12345", the block
      is empty, and the two requests are the init and the complete call. */
  lemma ContextManagerScenario()
    ensures var ok := ControlResponse(200, Some(map[IdKey := JString("12345")]));
      var r := WithBlock(Fresh("https://example.com", "test-api-key"), ok, [], ControlResponse(200, Some(map[])));
      var headers := map["x-api-key" := "test-api-key"];
      && r.outcome == Pass
      && r.session.dataPackageId == Some("12345")
      && r.session.sent == [Control("POST", "https://example.com/upload/init", headers),
                            Control("POST", "https://example.com/upload/12345/complete", headers)]
  {
    assert "https://example.com" + InitEndpoint == "https://example.com/upload/init";
    assert "https://example.com" + CompleteEndpoint("12345") == "https://example.com/upload/12345/complete";
  }

  /** The unit test's failed-upload scenario, for any plain entity name and any path without
      a slash: an entry seeded with expiry `now` is already stale, so the lookup asks the API
      again; the post answers 400 and the call raises "Failed to upload file <path>", the
      name being the path itself. */
  lemma FailedUploadScenario(s: Session, entity: string, path: string, target: PresignData,
                             now: int, later: int, contents: Bytes)
    requires s.dataPackageId.Some?
    requires ' ' !in entity && '-' !in entity && '/' !in path
    requires s.cache == map[entity := CacheEntry(JPresign(target), now)]
    ensures var resp := ControlResponse(200, Some(map[PresignKey := JPresign(target)]));
      var r := UploadFileSpec(s, entity, Path(path, Some(contents)), None, now, later, resp, 400);
      && r.outcome == Fail(UploadFailed("Failed to upload file " + path))
      && r.session.sent == s.sent + [ControlRequest(s.baseUrl, s.apiKey, EntityEndpoint(s.dataPackageId.value, entity)),
                                     S3Post(target.url, target.fields, path, contents)]
      && r.session.cache == map[entity := CacheEntry(JPresign(target), later + UrlLifetime)]
  {
    CleanNameFixedPoints(entity);
  }

  /** The in-memory unit test's call, for any uploader whose lookup returns a presigned
      target: as written, an `io.BytesIO` (or an open binary file) with a file name fails the
      `isinstance` check and raises TypeError without posting; the intended behaviour posts
      its bytes under that name and returns normally on 204. */
  lemma InMemoryStreamRejected(s: Session, entity: string, data: Bytes, name: string,
                               now: int, later: int, resp: ControlResponse)
    requires name != ""
    requires EntityUrlSpec(s, CleanNameForS3(entity), now, later, resp).target.Ok?
    requires EntityUrlSpec(s, CleanNameForS3(entity), now, later, resp).target.value.JPresign?
    ensures var f := EntityUrlSpec(s, CleanNameForS3(entity), now, later, resp);
      var target := f.target.value.data;
      var file := Stream(data, PlainBinaryStream);
      && UploadFileSpec(s, entity, file, Some(name), now, later, resp, UploadSuccessStatus) ==
           Step(f.session, Fail(TypeError(BadSourceMessage)))
      && UploadFileIntended(s, entity, file, Some(name), now, later, resp, UploadSuccessStatus) ==
           Step(f.session.(sent := f.session.sent + [S3Post(target.url, target.fields, name, data)]), Pass)
  {
  }
}
