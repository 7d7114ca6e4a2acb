/**
 * The routes main.cpp registers and the decisions of their handlers: each handler reads
 * the request, consults the processor, and writes its answer into the response object.
 * JSON objects list their keys in the ascending order in which they are written out.
 */
module Routes {
  import opened Wrappers
  import opened Text
  import opened Json
  import opened HttpMessage
  import opened HttpServer
  import opened VideoProcessing
  import opened HexId

  /** The five handlers `setupRoutes` registers. */
  datatype Endpoint = StatusRoute | ListRoute | InfoRoute | UploadRoute | DeleteRoute

  /** `setupRoutes`: register the five routes on the server. */
  method SetupRoutes(server: Server<Endpoint>)
    modifies server
    ensures server.FindHandler("GET", "/api/status") == Some(StatusRoute)
    ensures server.FindHandler("GET", "/api/chunks") == Some(ListRoute)
    ensures server.FindHandler("GET", "/api/chunks/info") == Some(InfoRoute)
    ensures server.FindHandler("POST", "/api/upload") == Some(UploadRoute)
    ensures server.FindHandler("DELETE", "/api/chunks") == Some(DeleteRoute)
    ensures forall m, p :: !IsRegistered(m, p) ==> server.FindHandler(m, p) == old(server.FindHandler(m, p))
    ensures server.routes == RouteTable(old(server.routes))
  {
    server.AddRoute("GET", "/api/status", StatusRoute);
    server.AddRoute("GET", "/api/chunks", ListRoute);
    server.AddRoute("GET", "/api/chunks/info", InfoRoute);
    server.AddRoute("POST", "/api/upload", UploadRoute);
    server.AddRoute("DELETE", "/api/chunks", DeleteRoute);
  }

  /** The route table `setupRoutes` leaves, from the one it was given. */
  function RouteTable(routes: map<string, map<string, Endpoint>>): map<string, map<string, Endpoint>> {
    var withStatus := RouteAdded(routes, "GET", "/api/status", StatusRoute);
    var withList := RouteAdded(withStatus, "GET", "/api/chunks", ListRoute);
    var withInfo := RouteAdded(withList, "GET", "/api/chunks/info", InfoRoute);
    var withUpload := RouteAdded(withInfo, "POST", "/api/upload", UploadRoute);
    RouteAdded(withUpload, "DELETE", "/api/chunks", DeleteRoute)
  }

  predicate IsRegistered(m: string, p: string) {
    (m == "GET" && (p == "/api/status" || p == "/api/chunks" || p == "/api/chunks/info")) ||
    (m == "POST" && p == "/api/upload") ||
    (m == "DELETE" && p == "/api/chunks")
  }

  // ------------------------------------------------------------------ JSON bodies

  function ErrorJson(message: string): Json {
    Obj([("error", Str(message))])
  }

  /** One registry record as `GET /api/chunks` lists it. */
  function ChunkJson(c: ChunkInfo): Json {
    Obj([("codec", Str(c.codec)), ("duration", Float(c.duration)), ("height", Number(c.height)),
         ("id", Str(c.chunkId)), ("size", Number(c.size)), ("status", Number(Code(c.status))),
         ("width", Number(c.width))])
  }

  /** One record as `GET /api/chunks/info` reports it: an `error` key only for a non-empty message. */
  function InfoJson(c: ChunkInfo): Json {
    if c.errorMessage == "" then ChunkJson(c)
    else
      Obj([("codec", Str(c.codec)), ("duration", Float(c.duration)), ("error", Str(c.errorMessage)),
           ("height", Number(c.height)), ("id", Str(c.chunkId)), ("size", Number(c.size)),
           ("status", Number(Code(c.status))), ("width", Number(c.width))])
  }

  /** The upload answer: the job's id and final status code. */
  function UploadJson(c: ChunkInfo): Json {
    Obj([("id", Str(c.chunkId)), ("status", Number(Code(c.status)))])
  }

  /**
   * The record report carries the id, the status code, the size, the dimensions, the
   * duration and the codec, and has an `error` key exactly when the error message is non-empty.
   */
  lemma InfoJsonFields(c: ChunkInfo)
    ensures Get(InfoJson(c), "id") == Some(Str(c.chunkId))
    ensures Get(InfoJson(c), "status") == Some(Number(Code(c.status)))
    ensures Get(InfoJson(c), "size") == Some(Number(c.size))
    ensures Get(InfoJson(c), "width") == Some(Number(c.width))
    ensures Get(InfoJson(c), "height") == Some(Number(c.height))
    ensures Get(InfoJson(c), "duration") == Some(Float(c.duration))
    ensures Get(InfoJson(c), "codec") == Some(Str(c.codec))
    ensures Get(InfoJson(c), "error").Some? <==> c.errorMessage != ""
    ensures c.errorMessage != "" ==> Get(InfoJson(c), "error") == Some(Str(c.errorMessage))
  {
    if c.errorMessage == "" {
      ChunkJsonFields(c);
    } else {
      ErrorJsonFields(c);
    }
  }

  lemma ChunkJsonFields(c: ChunkInfo)
    ensures Lookup(ChunkJson(c).fields, "id") == Some(Str(c.chunkId))
    ensures Lookup(ChunkJson(c).fields, "status") == Some(Number(Code(c.status)))
    ensures Lookup(ChunkJson(c).fields, "size") == Some(Number(c.size))
    ensures Lookup(ChunkJson(c).fields, "width") == Some(Number(c.width))
    ensures Lookup(ChunkJson(c).fields, "height") == Some(Number(c.height))
    ensures Lookup(ChunkJson(c).fields, "duration") == Some(Float(c.duration))
    ensures Lookup(ChunkJson(c).fields, "codec") == Some(Str(c.codec))
    ensures Lookup(ChunkJson(c).fields, "error") == None
  {
    ListingKeysFound(ChunkJson(c).fields);
  }

  lemma ErrorJsonFields(c: ChunkInfo)
    requires c.errorMessage != ""
    ensures Lookup(InfoJson(c).fields, "id") == Some(Str(c.chunkId))
    ensures Lookup(InfoJson(c).fields, "status") == Some(Number(Code(c.status)))
    ensures Lookup(InfoJson(c).fields, "size") == Some(Number(c.size))
    ensures Lookup(InfoJson(c).fields, "width") == Some(Number(c.width))
    ensures Lookup(InfoJson(c).fields, "height") == Some(Number(c.height))
    ensures Lookup(InfoJson(c).fields, "duration") == Some(Float(c.duration))
    ensures Lookup(InfoJson(c).fields, "codec") == Some(Str(c.codec))
    ensures Lookup(InfoJson(c).fields, "error") == Some(Str(c.errorMessage))
  {
    ReportKeysFound(InfoJson(c).fields);
  }

  /** Lookups in a document with the listing's seven keys. */
  lemma ListingKeysFound(f: seq<(string, Json)>)
    requires |f| == 7 && f[0].0 == "codec" && f[1].0 == "duration" && f[2].0 == "height"
    requires f[3].0 == "id" && f[4].0 == "size" && f[5].0 == "status" && f[6].0 == "width"
    ensures Lookup(f, "codec") == Some(f[0].1) && Lookup(f, "id") == Some(f[3].1)
    ensures Lookup(f, "size") == Some(f[4].1) && Lookup(f, "status") == Some(f[5].1)
    ensures Lookup(f, "duration") == Some(f[1].1) && Lookup(f, "height") == Some(f[2].1)
    ensures Lookup(f, "width") == Some(f[6].1)
    ensures Lookup(f, "error") == None
  {
    LookupDistinct(f, ["codec", "duration", "height", "id", "size", "status", "width"]);
    LookupAbsent(f, "error");
  }

  /** Lookups in a document with the report's eight keys. */
  lemma ReportKeysFound(f: seq<(string, Json)>)
    requires |f| == 8 && f[0].0 == "codec" && f[1].0 == "duration" && f[2].0 == "error" && f[3].0 == "height"
    requires f[4].0 == "id" && f[5].0 == "size" && f[6].0 == "status" && f[7].0 == "width"
    ensures Lookup(f, "codec") == Some(f[0].1) && Lookup(f, "error") == Some(f[2].1)
    ensures Lookup(f, "id") == Some(f[4].1) && Lookup(f, "size") == Some(f[5].1)
    ensures Lookup(f, "status") == Some(f[6].1)
    ensures Lookup(f, "duration") == Some(f[1].1) && Lookup(f, "height") == Some(f[3].1)
    ensures Lookup(f, "width") == Some(f[7].1)
  {
    LookupDistinct(f, ["codec", "duration", "error", "height", "id", "size", "status", "width"]);
  }

  /** Both record documents list their keys in ascending order, as `dump()` writes them. */
  lemma InfoJsonAscending(c: ChunkInfo)
    ensures KeysAscending(ChunkJson(c).fields)
    ensures KeysAscending(InfoJson(c).fields)
  {
  }

  // ------------------------------------------------------------------ handler decisions

  /** The response `GET /api/chunks/info` leaves, from the response it was given. */
  function InfoResponse(r: ResponseData, chunks: seq<ChunkInfo>, query: map<string, string>): ResponseData {
    if "id" !in query then
      WithJson(r.(statusCode := 400, statusText := "Bad Request"), ErrorJson("Missing chunk id"))
    else match FirstWithId(chunks, query["id"])
      case None => WithJson(r.(statusCode := 404, statusText := "Not Found"), ErrorJson("Chunk not found"))
      case Some(i) => WithJson(r, InfoJson(chunks[i]))
  }

  /** Without an `id` parameter the answer is 400, whatever the registry holds. */
  lemma InfoMissingId(chunks: seq<ChunkInfo>, other: seq<ChunkInfo>, query: map<string, string>)
    requires "id" !in query
    ensures var r := InfoResponse(FreshResponse, chunks, query);
      r == InfoResponse(FreshResponse, other, query) &&
      r.statusCode == 400 && r.statusText == "Bad Request" &&
      r.headers == map[ContentType := "application/json"] && r.body == Dump(ErrorJson("Missing chunk id"))
  {
  }

  /** An id no record carries is answered 404. */
  lemma InfoUnknownId(chunks: seq<ChunkInfo>, query: map<string, string>)
    requires "id" in query && forall j :: 0 <= j < |chunks| ==> chunks[j].chunkId != query["id"]
    ensures var r := InfoResponse(FreshResponse, chunks, query);
      r.statusCode == 404 && r.statusText == "Not Found" &&
      r.headers == map[ContentType := "application/json"] && r.body == Dump(ErrorJson("Chunk not found"))
  {
  }

  /** A known id is answered 200 with the report of the first record carrying it. */
  lemma InfoKnownId(chunks: seq<ChunkInfo>, query: map<string, string>, i: nat)
    requires "id" in query && i < |chunks| && chunks[i].chunkId == query["id"]
    requires forall j :: 0 <= j < i ==> chunks[j].chunkId != query["id"]
    ensures var r := InfoResponse(FreshResponse, chunks, query);
      r.statusCode == 200 && r.statusText == "OK" &&
      r.headers == map[ContentType := "application/json"] && r.body == Dump(InfoJson(chunks[i]))
  {
    FirstWithIdIs(chunks, query["id"], i);
  }

  /** `contentType.find("video/") != 0` rejects exactly the values that do not start with "video/". */
  lemma VideoGate(contentType: string)
    ensures FindText(contentType, "video/") == Some(0) <==> StartsWith(contentType, "video/")
  {
    if StartsWith(contentType, "video/") {
      assert OccursAt(contentType, "video/", 0);
    }
  }

  /** The options document a job receives: the parsed `options` parameter, or `{}` when absent or unparsable. */
  function UploadOptions(query: map<string, string>, parse: string -> Option<Json>): (j: Json)
    ensures "options" !in query ==> j == Obj([])
    ensures "options" in query && parse(query["options"]).None? ==> j == Obj([])
    ensures "options" in query && parse(query["options"]).Some? ==> j == parse(query["options"]).value
  {
    if "options" in query then
      match parse(query["options"])
      case Some(parsed) => parsed
      case None => Obj([])
    else Obj([])
  }

  /** The upload temp file: the temp directory, "/upload_", the clock count, ".mp4". */
  function TempFile(tempPath: string, now: int): string {
    tempPath + "/upload_" + IntToString(now) + ".mp4"
  }

  /** An empty options object adds no ffmpeg flag, so an upload without usable options transcodes plainly. */
  lemma FallbackOptionsAddNoFlags(query: map<string, string>, parse: string -> Option<Json>)
    requires "options" !in query || parse(query["options"]).None?
    ensures OptionsOf(UploadOptions(query, parse)) == Success(NoOptions)
  {
    OtherKeysAddNoFlags("", "", []);
  }

  // ------------------------------------------------------------------ handlers

  /** `GET /api/chunks`: a JSON array with one element per record, in registry order. */
  method ListChunksHandler(processor: VideoProcessor, req: Request, res: Response)
    modifies res
    ensures res.statusCode == old(res.statusCode) && res.statusText == old(res.statusText)
    ensures res.headers == old(res.headers)[ContentType := "application/json"]
    ensures exists items: seq<Json> ::
      (|items| == |processor.chunks| &&
       (forall i :: 0 <= i < |items| ==> items[i] == ChunkJson(processor.chunks[i])) &&
       res.body == Dump(Arr(items)))
  {
    var chunks := processor.ListChunks();
    var response: seq<Json> := [];
    var i := 0;
    while i < |chunks|
      invariant 0 <= i <= |chunks| && |response| == i
      invariant forall k :: 0 <= k < i ==> response[k] == ChunkJson(chunks[k])
    {
      response := response + [ChunkJson(chunks[i])];
      i := i + 1;
    }
    res.SetJson(Arr(response));
  }

  /** `GET /api/chunks/info`: 400 without an id, 404 for an unknown one, else the record's report. */
  method InfoHandler(processor: VideoProcessor, req: Request, res: Response)
    modifies res
    ensures res.Data() == InfoResponse(old(res.Data()), processor.chunks, req.queryParams)
  {
    var params := req.queryParams;
    if "id" !in params {
      res.statusCode := 400;
      res.statusText := "Bad Request";
      res.SetJson(ErrorJson("Missing chunk id"));
      return;
    }
    var chunkId := params["id"];
    var chunkInfo := processor.GetChunkInfo(chunkId);
    if chunkInfo.None? {
      res.statusCode := 404;
      res.statusText := "Not Found";
      res.SetJson(ErrorJson("Chunk not found"));
      return;
    }
    assert chunkInfo.value == processor.chunks[FirstWithId(processor.chunks, chunkId).value];
    res.SetJson(InfoJson(chunkInfo.value));
  }

  /**
   * `POST /api/upload`: reject a missing or non-video Content-Type with 400 before anything
   * is written, answer 500 when the temp file cannot be created (`tempFileOk`), and otherwise
   * run the job on the temp file and report its id and status. `parse` is the JSON parser
   * (None when it throws), `now` the clock count, `world` what the job meets. The ghost
   * result is the job's record, when a job ran.
   */
  method UploadHandler(processor: VideoProcessor, req: Request, res: Response, parse: string -> Option<Json>,
                       tempPath: string, now: int, tempFileOk: bool, world: JobWorld)
    returns (ghost job: Option<ChunkInfo>)
    modifies res, processor
    ensures !UploadAccepted(req.headers) ==>
      job.None? && processor.chunks == old(processor.chunks) &&
      res.Data() == WithJson(old(res.Data()).(statusCode := 400, statusText := "Bad Request"),
                             ErrorJson("Content-Type must be a video format"))
    ensures UploadAccepted(req.headers) && !tempFileOk ==>
      job.None? && processor.chunks == old(processor.chunks) &&
      res.Data() == WithJson(old(res.Data()).(statusCode := 500, statusText := "Internal Server Error"),
                             ErrorJson("Failed to create temporary file"))
    ensures UploadAccepted(req.headers) && tempFileOk ==>
      job.Some? && res.Data() == WithJson(old(res.Data()), UploadJson(job.value)) &&
      exists firstId, secondId :: IsHexId(firstId) && IsHexId(secondId) &&
        job.value == JobRecord(TempFile(tempPath, now), UploadOptions(req.queryParams, parse), world,
                               old(processor.storagePath), firstId, secondId)
    ensures job.Some? && job.value.status == Completed ==>
      Evicted(old(processor.chunks) + [job.value], processor.chunks, processor.maxChunks)
    ensures job.Some? && job.value.status != Completed ==> processor.chunks == old(processor.chunks) + [job.value]
    ensures job.None? ==>
      processor.processedChunks == old(processor.processedChunks) && processor.failedChunks == old(processor.failedChunks)
    ensures job.Some? && job.value.status == Completed ==>
      processor.processedChunks == old(processor.processedChunks) + 1 && processor.failedChunks == old(processor.failedChunks)
    ensures job.Some? && job.value.status != Completed ==>
      processor.failedChunks == old(processor.failedChunks) + 1 && processor.processedChunks == old(processor.processedChunks)
    ensures processor.maxChunks == old(processor.maxChunks) &&
      processor.storagePath == old(processor.storagePath) && processor.tempPath == old(processor.tempPath)
  {
    if "Content-Type" !in req.headers || FindText(req.headers["Content-Type"], "video/") != Some(0) {
      res.statusCode := 400;
      res.statusText := "Bad Request";
      res.SetJson(ErrorJson("Content-Type must be a video format"));
      return None;
    }
    var tempFile := tempPath + "/upload_" + IntToString(now) + ".mp4";
    if !tempFileOk {
      res.statusCode := 500;
      res.statusText := "Internal Server Error";
      res.SetJson(ErrorJson("Failed to create temporary file"));
      return None;
    }
    var options := ReadOptions(req.queryParams, parse);
    var result, firstId, secondId := processor.ProcessChunk(tempFile, options, world);
    assert IsHexId(firstId) && IsHexId(secondId) &&
      result == JobRecord(TempFile(tempPath, now), UploadOptions(req.queryParams, parse), world,
                          old(processor.storagePath), firstId, secondId);
    res.SetJson(UploadJson(result));
    job := Some(result);
  }

  /** The `options` parameter parsed, `{}` when it is absent or the parser throws. */
  method ReadOptions(query: map<string, string>, parse: string -> Option<Json>) returns (options: Json)
    ensures options == UploadOptions(query, parse)
  {
    options := Obj([]);
    if "options" in query {
      var parsed := parse(query["options"]);
      if parsed.Some? {
        options := parsed.value;
      }
    }
  }

  /** The upload gate: a Content-Type header whose value starts with "video/". */
  predicate UploadAccepted(headers: map<string, string>) {
    "Content-Type" in headers && FindText(headers["Content-Type"], "video/") == Some(0)
  }

  /** `DELETE /api/chunks`: 400 without an id; 200 `{"success":true}` when a record was erased; else 404. */
  method DeleteHandler(processor: VideoProcessor, req: Request, res: Response, removalThrows: bool)
    modifies res, processor
    ensures "id" !in req.queryParams ==>
      processor.chunks == old(processor.chunks) &&
      res.Data() == WithJson(old(res.Data()).(statusCode := 400, statusText := "Bad Request"), ErrorJson("Missing chunk id"))
    ensures "id" in req.queryParams ==>
      var found := FirstWithId(old(processor.chunks), req.queryParams["id"]);
      if found.Some? && !removalThrows then
        processor.chunks == EraseAt(old(processor.chunks), found.value) &&
        res.Data() == WithJson(old(res.Data()), Obj([("success", Bool(true))]))
      else
        processor.chunks == old(processor.chunks) &&
        res.Data() == WithJson(old(res.Data()).(statusCode := 404, statusText := "Not Found"),
                               ErrorJson("Chunk not found or could not be deleted"))
    ensures processor.maxChunks == old(processor.maxChunks) &&
      processor.storagePath == old(processor.storagePath) && processor.tempPath == old(processor.tempPath)
    ensures processor.processedChunks == old(processor.processedChunks) &&
      processor.failedChunks == old(processor.failedChunks)
  {
    var params := req.queryParams;
    if "id" !in params {
      res.statusCode := 400;
      res.statusText := "Bad Request";
      res.SetJson(ErrorJson("Missing chunk id"));
      return;
    }
    var chunkId := params["id"];
    var success := processor.DeleteChunk(chunkId, removalThrows);
    if success {
      res.SetJson(Obj([("success", Bool(true))]));
    } else {
      res.statusCode := 404;
      res.statusText := "Not Found";
      res.SetJson(ErrorJson("Chunk not found or could not be deleted"));
    }
  }
}
