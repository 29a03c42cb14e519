# DIIPUploader session client, modelled in Dafny

This project models `DIIPUploader`, the client side of the DIIP ingest API's
presigned-URL upload protocol. An uploader is used as a context manager:

- entering it opens an upload session with `POST /upload/init`, which returns a
  `dataPackageId`;
- each `upload_file` call sanitises the entity name and looks up a presigned
  target for the entity with `POST /upload/{id}/entity/{name}`;
- each target is cached per entity for 55 minutes;
- the file is then posted to object storage, and only status 204 counts as success;
- leaving the context sends `POST /upload/{id}/complete` whenever a session id is set.

The network and the clock are inputs. Each request the uploader would send is appended
to a recorded sequence `sent`. The answer to a request is a parameter: a
`ControlResponse` (status and JSON body) for the API, a status code for the
object-storage post. Time is an integer number of seconds, and the 55-minute
lifetime is the constant `UrlLifetime`.

Files:

- `names.dfy` (module `Names`): the static helpers `_clean_name_for_s3` and
  `_extract_file_name`, with Python's one-character `str.replace` and `str.split`
  written out.
- `protocol.dfy` (module `Protocol`): request, response, error and source
  datatypes. It also holds one specification function per method of the class.
  Each function maps the uploader's state before a call to its state after the call
  and the call's outcome: a normal return, or the exception raised.
- `uploader.dfy` (module `Uploader`): the class `DIIPUploader`. Its fields are the
  ones the Python object keeps, plus `sent`. Every method is proved to change the
  object exactly as its specification function says.
- `sessions.dfy` (module `Sessions`): a whole `with` block as a function, and lemmas
  about the requests such a block sends.

The model follows the code where it departs from the usual open/commit/abort upload protocol
and from its own docstrings:

- `__exit__` always completes the session. It never aborts, even with an exception in flight.
- `upload_file` has no session-state guard. Before `__enter__` it asks for
  `/upload/None/entity/...`.
- Presigned targets are reused per entity for 55 minutes, not fetched fresh for each file.
- The target cache belongs to the uploader, not to the session. `__enter__` replaces only the
  session id, so an uploader entered again reuses a target fetched under an earlier session id
  until it expires (`Sessions.TargetReusedAcrossSessions`).
- The stream check `isinstance(file, (BinaryIO, StreamingBody))` uses `typing.BinaryIO`, which
  only classes deriving from it explicitly pass. An `io.BytesIO` or an open binary file raises
  TypeError (see "## Findings").
- No per-file outcome records are kept.

Python truthiness is modelled as written: an empty `dataPackageId` or `file_name`
counts as missing.

## Model

| member | source | states |
|---|---|---|
| Names.ReplaceChar | data_ingestion_service/upload.py:138 | `str.replace` of one character: same length; every occurrence of the old character becomes the new one; every other character is kept |
| Names.CleanNameForS3 | data_ingestion_service/upload.py:136-138 | the cleaned name has the same length; spaces and dashes become `_`; every other character is kept; the result holds no space and no dash |
| Names.CleanNameIdempotent | data_ingestion_service/upload.py:136-138 | cleaning an already cleaned name changes nothing |
| Names.CleanNameFixedPoints | data_ingestion_service/upload.py:136-138 | cleaning leaves a name unchanged exactly when it has no space and no dash |
| Names.Split | data_ingestion_service/upload.py:143 | `str.split` on one character gives at least one piece, and no piece holds the separator |
| Names.SplitLastPiece | data_ingestion_service/upload.py:143 | the last piece ends the string; there is a single piece exactly when the separator does not occur, and it is then the whole string; otherwise the last piece follows a separator |
| Names.JoinSplit | data_ingestion_service/upload.py:143 | joining the split pieces with the separator gives back the original string |
| Names.ExtractFileName | data_ingestion_service/upload.py:141-143 | the file name has no `/` and is a suffix of the path; it is the whole path when the path has no `/`, and otherwise it follows a `/` |
| Names.ExtractFileNameLongest | data_ingestion_service/upload.py:141-143 | every slash-free suffix of the path is at most as long as the file name, so the file name is everything after the last `/` |
| Protocol.IdText | data_ingestion_service/upload.py:108 | the f-string rendering of a set session id is the id itself |
| Protocol.ControlRequest | data_ingestion_service/upload.py:127-131 | a control request is a POST whose URL is `base_url` followed by the endpoint; its only header is `x-api-key` set to the API key |
| Protocol.ControlResult | data_ingestion_service/upload.py:131-133 | a control call returns the JSON body exactly when the status is not 4xx/5xx and the body is JSON; a 4xx/5xx status raises an HTTP error carrying the status |
| Protocol.Fresh | data_ingestion_service/upload.py:27-38 | a new uploader keeps `base_url` and `api_key`; it has no session id, an empty target cache and no requests sent |
| Protocol.EnterSpec | data_ingestion_service/upload.py:89-93 | entering sends exactly one init request; on success the session id becomes the response's `dataPackageId`; when the call raises, the id and the cache are unchanged |
| Protocol.ExitSpec | data_ingestion_service/upload.py:50-58 | exit sends exactly one complete request for the session id when the id is set, and nothing otherwise; only `sent` changes, by appending; exit raises exactly when the complete call fails |
| Protocol.EntityUrlSpec | data_ingestion_service/upload.py:100-112 | a cached, unexpired target is returned with no request and no change; otherwise exactly one entity request is sent, and on success the entity's entry becomes (target, `later` + 55 min); every other entry is unchanged; the call only appends requests |
| Protocol.UploadToS3Spec | data_ingestion_service/upload.py:114-125 | one post of the content under the file name goes to the target's URL with its fields; success happens exactly on 204; any other status raises "Failed to upload file <name>" |
| Protocol.DestinationName | data_ingestion_service/upload.py:76-82 | a path defaults its name to the last path segment; a stream that passes the `isinstance` check has a name only when `file_name` is non-empty; any other source has none |
| Protocol.UploadFileSpec | data_ingestion_service/upload.py:60-87 | the target lookup comes first; a lookup failure raises it; otherwise a source that is neither a path nor a stream passing the check at :80 raises TypeError, an accepted stream without a name raises ValueError, and an unreadable path raises, all without a post; a call returns normally only on status 204 and for an accepted source; the call only appends requests and never changes the session id, URL or key |
| Protocol.AsIntended | data_ingestion_service/upload.py:66-72 | the documented reading of the stream check: exactly the paths and the streams of every class are accepted; the bytes are kept; a source the program accepts is unchanged |
| Protocol.UploadFileIntended | data_ingestion_service/upload.py:60-87 | with the documented stream check, a named stream of any class whose lookup succeeds is posted under its name; an unnamed one raises ValueError; only a source that is neither a path nor a stream raises TypeError; on every source the program accepts, the result is the program's |
| Uploader.DIIPUploader.constructor | data_ingestion_service/upload.py:27-38 | the new object's state is `Fresh(base_url, api_key)` |
| Uploader.DIIPUploader.Enter | data_ingestion_service/upload.py:40-48 | the new state and the outcome are those of `EnterSpec` |
| Uploader.DIIPUploader.Exit | data_ingestion_service/upload.py:50-58 | the new state and the outcome are those of `ExitSpec` |
| Uploader.DIIPUploader.UploadFile | data_ingestion_service/upload.py:60-87 | the new state and the outcome are those of `UploadFileSpec` |
| Uploader.DIIPUploader.InitializeUpload | data_ingestion_service/upload.py:89-93 | appends one init request and changes nothing else; returns the `dataPackageId` field, or raises the HTTP/JSON error or a KeyError for a missing field |
| Uploader.DIIPUploader.CompleteUpload | data_ingestion_service/upload.py:95-98 | appends one complete request for the rendered id and changes nothing else; raises exactly when the control call fails |
| Uploader.DIIPUploader.GetEntityUrl | data_ingestion_service/upload.py:100-112 | the new state and the result are those of `EntityUrlSpec` |
| Uploader.DIIPUploader.UploadToS3 | data_ingestion_service/upload.py:114-125 | the new state and the outcome are those of `UploadToS3Spec` |
| Uploader.DIIPUploader.ApiCall | data_ingestion_service/upload.py:127-133 | appends exactly one `ControlRequest` for the endpoint and changes nothing else; the result is `ControlResult` of the response |
| Sessions.RunUploads | data_ingestion_service/upload.py:19-21 | the uploads of a block never change the base URL, the API key or the session id; they only append to `sent` |
| Sessions.WithBlock | data_ingestion_service/upload.py:40-58 | a `with` block on a new or previously entered uploader keeps the requests sent before it, sends the init request first, and keeps the base URL and the key |
| Sessions.EntityRequestIsNotComplete | data_ingestion_service/upload.py:97 | an entity lookup URL is never the complete URL of the same session |
| Sessions.UploadSendsNoComplete | data_ingestion_service/upload.py:60-87 | when no complete request for the session has been sent, one `upload_file` call does not send one either |
| Sessions.UploadsSendNoComplete | data_ingestion_service/upload.py:60-87 | a whole block body sends no complete request for its session |
| Sessions.CompleteSentExactlyOnce | data_ingestion_service/upload.py:50-58 | if enter raises, the block sends only the init request; if the new id is set, the complete request is the block's last request, and it occurs exactly once when no earlier session completed that id, whether or not an upload raised; if the id is unset, exit sends nothing |
| Sessions.BlockOutcome | data_ingestion_service/upload.py:50-58 | once enter has returned, a failing complete call's exception is the block's outcome; otherwise the body's outcome is |
| Sessions.ExitIgnoresException | data_ingestion_service/upload.py:54-57 | an exception in flight makes no difference to what exit does |
| Sessions.UploadBeforeEnterStillCallsApi | data_ingestion_service/upload.py:100-108 | `upload_file` on a never-entered uploader still sends an entity request, under the session id "None" |
| Sessions.TargetReusedAcrossSessions | data_ingestion_service/upload.py:100-105 | after entering again (:47 replaces only the id), whatever the new session id, an unexpired cached target is returned with no request and no change |
| Sessions.TargetReusedWithinLifetime | data_ingestion_service/upload.py:100-112 | after a successful fetch, a lookup for the same entity before `later` + 55 min returns the same target, sends nothing and changes nothing |
| Sessions.SpaceAndDashShareTarget | data_ingestion_service/upload.py:74 | entity names that differ only by spaces versus dashes use the same cached target |
| Sessions.ContextManagerScenario | tests/test_upload.py:110-130 | an empty block whose init answers `12345` sends exactly POST `https://example.com/upload/init` and then POST `https://example.com/upload/12345/complete`, both with the test API key |
| Sessions.InMemoryStreamRejected | tests/test_upload.py:59-75 | a named `io.BytesIO` whose lookup succeeds raises TypeError without a post, while the documented behaviour posts it and returns normally on 204 |
| Sessions.FailedUploadScenario | tests/test_upload.py:94-108 | a seeded entry expiring at `now` is stale, so it is fetched again; a 400 from storage raises "Failed to upload file <path>" after exactly one entity request and one post |

## Left out

- HTTP transport: requests never fail at the connection level. Every request gets a
  response, and connection errors and timeouts raised by the HTTP library are not modelled.
- `_api_call`'s `method` and `payload` parameters: the class always uses POST with
  no JSON payload, and the model fixes them so.
- Logging: it has no observable effect on the protocol.
- Clock: `datetime.now()` is an integer number of seconds. Sub-second resolution is not modelled.
- The two clock readings in `_get_diip_upload_entity_url` are separate inputs: `now` for the
  check, `later` for the expiry.
- File I/O: the bytes of a path are an opaque input (`None` when the file cannot be opened).
  Closing the file is not modelled.
- `_convert_streaming_body_to_bytesio`: its read is opaque.
- Source type checks: the Python `isinstance` checks at data_ingestion_service/upload.py:76
  and :80 become the tags of `FileSource` and `StreamKind`. The caller says which class a
  stream object has. `PassesStreamCheck` then decides the check as written: a
  `StreamingBody` or an explicit `typing.BinaryIO` subclass passes, while an `io.BytesIO`
  or an open binary file does not and raises TypeError (:87).
- JSON: only the fields the class reads are modelled. A `dataPackageId` that is neither a
  string nor null is treated as null by `IdOf`.
- Malformed presigned data: a target missing its `url` or `fields` key is not modelled.
- TypeError text: a target that is not a mapping raises TypeError, with a message of the
  model's own, not Python's.
- Exception detail: the message text of `raise_for_status` and the chaining of an exception
  raised inside `__exit__` are not modelled. The newer exception replaces the older one.
- `Sessions.WithBlock`: the block body is a sequence of `upload_file` calls in which the
  first exception escapes. Caller code that catches an exception and goes on is not modelled.
- `Sessions.WithBlock`: the uploader state before the block is any state. Nothing ties it to
  an earlier block's result, so a chain of blocks is stated one block at a time.
- The top-level `upload.py` script and `setup.py`: they are a command-line wrapper and
  packaging metadata.

## Findings

| source | as written | input that shows it | evidently intended | confidence | as-written member | corrected member |
|---|---|---|---|---|---|---|
| data_ingestion_service/upload.py:80 | `isinstance(file, (BinaryIO, StreamingBody))` with `typing.BinaryIO`, which only classes deriving from it explicitly pass, so in-memory streams fall through to the TypeError at :87 | `upload_file("test_entity", io.BytesIO(b"test content"), file_name="test_file.txt")` with a valid cached target, as in tests/test_upload.py:59-75 | every binary stream object, including `io.BytesIO` and open binary files, is posted under `file_name` (docstring at :66-72) | high for the failing check; not executed | Sessions.InMemoryStreamRejected | Protocol.UploadFileIntended |

The class `Uploader.DIIPUploader` keeps the check as written, since it models the program.
`Protocol.UploadFileIntended` gives the corrected call: the program's behaviour with every
binary stream accepted. It agrees with `Protocol.UploadFileSpec` on every source the program
accepts.
