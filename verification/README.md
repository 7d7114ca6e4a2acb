# ChadServr core in Dafny

This project models the sequential core of ChadServr, a small C++ HTTP server. The server accepts
video uploads and transcodes them with ffmpeg. Four pieces are modelled:

- **HTTP layer** (`src/http_server.cpp`, `include/http_server.hpp`):
  - parsing of the request line, the query string and the header fields;
  - the exact-match route table;
  - Content-Length body assembly;
  - the 404/500 dispatch rules;
  - the serialisation of a response;
  - the `HttpResponse` object and its `setJson`/`setText` updates.
- **The job registry of `VideoProcessor`** (`src/video_processor.cpp`, `include/video_processor.hpp`):
  - the `chunks_` sequence with lookup, listing, deletion, the capacity limit and eviction;
  - the job `processChunk` submits, including the ffmpeg command line it builds from the options
    document and the two random ids it draws;
  - the `ProcessingStatus` codes.
- **The route handlers of `main.cpp`** (`setupRoutes`):
  - registration of the five routes;
  - the 400/404/500/200 decisions of the listing, info, upload and delete handlers;
  - the JSON documents they answer with.
- **The in-memory index of `StorageManager`** (`src/storage_manager.cpp`):
  - the `files_` map and the `id + "_" + filename` naming scheme;
  - the first-`_` split that rebuilds the index at start-up;
  - `storeData`, `getMetadata`, `getFilePath`, `deleteFile`, `listFiles` and the shape of generated ids.

## Files

| file | module | contents |
|---|---|---|
| `wrappers.dfy` | `Wrappers` | `Option`, `Result` |
| `text.dfy` | `Text` | the C++ string facilities the core relies on: `isspace`, `std::getline`, `>>` extraction, `find`, `std::to_string`, `std::stoul`, `fs::path` joining |
| `json.dfy` | `Json` | JSON values as nlohmann holds them, key lookup and `dump()` |
| `http_message.dfy` | `HttpMessage` | `HttpRequest`, `HttpResponse` (a class) and its value `ResponseData` |
| `http_server.dfy` | `HttpServer` | the parsers, body framing, dispatch, serialisation and the `Server` class |
| `hex_id.dfy` | `HexId` | the 32-hex-digit id generator shared by `generateChunkId` and `generateUniqueId` |
| `video_processor.dfy` | `VideoProcessing` | records, options, the ffmpeg command, the job, the `VideoProcessor` class |
| `routes.dfy` | `Routes` | `setupRoutes` and the four modelled handlers |
| `storage_manager.dfy` | `Storage` | the naming scheme, the start-up index and the `StorageManager` class |

## How the model is built

Objects the source updates in place are classes with `modifies` clauses:

- `HttpResponse`;
- the route table of `HttpServer`;
- `VideoProcessor`;
- `StorageManager`.

Every mutating method states its whole new state. Usually it does so through a specification function. Examples:

- `ParseRequest` returns `RequestOf(requestStr)`;
- `InfoHandler` leaves `InfoResponse(old(res.Data()), …)`;
- `StorageManager.Initialize` leaves `Index(old(files), …)`.

The properties the source promises are proved as lemmas about those functions.

The loops of the source are loops here, each carrying its invariants:

- `parseQueryParams`, the header loop of `parseRequest` and the header loop of `sendResponse`;
- the id generator;
- the directory loop of `initialize`, `listFiles` and the eviction loop;
- the listing handler.

Anything outside the process is a parameter:

- **Sockets.** The bytes received up to the blank line and the result of the extra body read are inputs. The text written back is the output.
- **Handlers in `HttpServer`.** The effect of invoking a handler is a function `run` that says whether the handler returned or threw.
- **Files and processes.** Filesystem and ffmpeg/ffprobe outcomes are booleans or results, bundled in `JobWorld`, `DirEntry` and `BaseDir`.
- **Randomness.** It is a nondeterministic choice.
- **Clock.** `now` is a parameter.

Iteration over an `unordered_map` has an unspecified order. `sendResponse` and `listFiles` are therefore specified over *some* enumeration of the keys: each key appears exactly once, in an order the model leaves open.

Behaviour of the code that the model keeps, although a reader of the HTTP RFCs might expect otherwise:

- `Content-Length` is looked up case-sensitively (src/http_server.cpp:131).
- Header values are trimmed on the left only (src/http_server.cpp:229-231).
- A `Content-Length` that `std::stoul` rejects ends the connection without any response (src/http_server.cpp:133, 186-188).
- So does a missing part of the body too large for a `std::vector<char>` (`length_error` above `PTRDIFF_MAX` bytes) or too large to allocate (`bad_alloc`) (src/http_server.cpp:142, 186-188). `Content-Length: -1` is one such value: `stoul` reads it as 2^64 - 1.
- A failed extra body read leaves the body empty, and a response is still sent (src/http_server.cpp:151-156).
- When a job gets past the metadata probe, its record carries a second random id (src/video_processor.cpp:107-108). The output file is named after the first one (src/video_processor.cpp:104). `CompletedFileNamedByFirstDraw` proves that a completed job's file carries the record's id only when the two draws agree.
- Eviction sorts the registry by pointer address before dropping the front (src/video_processor.cpp:287-289). Which records survive is not determined. The model proves the count and that every survivor was present, and never claims "oldest first".
- A failed job does not run eviction (src/video_processor.cpp:154-163), so the registry may stay above its limit.

`src/storage_manager.cpp` is textually damaged. The header of `storeData` splices two signatures, `deleteFile` contains a stray copy of `storeData`'s body, and several functions appear twice. The model follows the coherent copies:

- `initialize`: lines 22-66;
- `storeData`: lines 139-195;
- `getMetadata`, `getFilePath`, `deleteFile` and `listFiles`: lines 307-396;
- `generateUniqueId`: lines 433-447.

## Model

| member | source | states |
|---|---|---|
| `HexId.RandomHexId` | src/video_processor.cpp:269-283 | an id is exactly 32 characters, each from `0123456789abcdef` (the same loop is `generateUniqueId`) |
| `HexId.HexIdHasNoSeparator` | src/storage_manager.cpp:433-447 | a generated id is non-empty and contains neither `_` nor `/` |
| `HttpMessage.Response.constructor` | include/http_server.hpp:23-27 | a fresh response is 200 "OK" with no headers and an empty body |
| `HttpMessage.Response.SetJson` | include/http_server.hpp:29-32 | the body becomes the dump of the document and `Content-Type` becomes `application/json`; status and other headers are untouched |
| `HttpMessage.Response.SetText` | include/http_server.hpp:34-37 | the body becomes exactly the text and `Content-Type` becomes `text/plain`; status and other headers are untouched |
| `HttpMessage.WithJsonFrame` | include/http_server.hpp:29-32 | `setJson` changes only the body and the `Content-Type` header (every other header keeps its value, the key set grows by at most `Content-Type`) and is idempotent |
| `HttpMessage.WithTextFrame` | include/http_server.hpp:34-37 | `setText` changes only the body and the `Content-Type` header and is idempotent |
| `HttpServer.AssignLookup` | src/http_server.cpp:245-255 | after writing name/value pairs into a map, a name maps to the value of its last pair; a name no pair carries keeps its old entry or stays absent |
| `HttpServer.SplitParamOfJoined` | src/http_server.cpp:246-250 | a parameter is cut at its first `=`, so a value may itself contain `=` |
| `HttpServer.QueryPairsOfEncoded` | src/http_server.cpp:240-258 | round trip: joining parameters (names without `=` or `&`, values without `&`) with `=` and `&` and parsing gives back exactly those pairs in order |
| `HttpServer.QueryPairsCons` | src/http_server.cpp:245 | one `getline(stream, param, '&')` step: the first segment is split off and the rest is parsed on |
| `HttpServer.ParseQueryParams` | src/http_server.cpp:240-258 | the loop builds the map of the `&`-separated segments, each split at its first `=` (no `=` gives `""`), later duplicates overwriting earlier ones |
| `HttpServer.HeaderFieldOf` | src/http_server.cpp:223-233 | a `name: value` line with a left-trimmed value yields exactly that name and value |
| `HttpServer.HeaderLineParsed` | src/http_server.cpp:218-234 | a well-formed header line terminated by `\r\n` contributes exactly its field and parsing continues with the next line |
| `HttpServer.HeaderLineSkipped` | src/http_server.cpp:223-234 | a non-blank line without `:` is skipped |
| `HttpServer.HeaderBlankLineEnds` | src/http_server.cpp:218 | a `""` or `"\r"` line ends the header block; nothing after it is read as a header |
| `HttpServer.ParseHeaders` | src/http_server.cpp:217-235 | the loop's map is the last-write-wins map of the header fields before the blank line |
| `HttpServer.ReadHeaderField` | src/http_server.cpp:219-231 | one header line, trailing `\r` dropped, becomes its field: name before the first `:`, left-trimmed value after it, or nothing |
| `HttpServer.ReadRequestLine` | src/http_server.cpp:196-197 | the first `getline` of the request gives the request line and the unread rest |
| `HttpServer.SplitTarget` | src/http_server.cpp:209-214 | the target is cut at its first `?` into the path and the parsed query; without `?` the path is the whole target and the query map is empty |
| `HttpServer.ParseRequest` | src/http_server.cpp:191-238 | the parsed request is the request line's three tokens, the split target and the header map, with an empty body |
| `HttpServer.PathHasNoQuestionMark` | src/http_server.cpp:209-214 | a parsed path never contains `?` |
| `HttpServer.RequestLineWords` | src/http_server.cpp:196-206 | a request line `m p v\r\n` is read whole, its `\r` removed, and split into exactly the tokens `m`, `p`, `v` |
| `HttpServer.RequestLineTokens` | src/http_server.cpp:205-206 | three `>>` extractions from `m p v` deliver `m`, `p` and `v` |
| `HttpServer.ParseRequestLine` | src/http_server.cpp:196-214 | for a request line of three words whose target has no `?`: method, path and version are those words, no query parameters, the headers are those of the following lines |
| `HttpServer.ParseRequestTarget` | src/http_server.cpp:209-214 | a target `path?query` gives that path and the parsed query, with method and version the other two words |
| `HttpServer.TargetOfQuery` | src/http_server.cpp:209-213 | the text after the first `?` is parsed as the query, the text before it is the path |
| `HttpServer.HeaderSize` | src/http_server.cpp:136 | the header size is the first `\r\n\r\n`'s position plus 4 and ends with that terminator |
| `HttpServer.ContentLengthComplete` | src/http_server.cpp:136-158 | for POST/PUT with a parsable Content-Length `n`: at least `n` bytes already read gives all of them as the body, not truncated |
| `HttpServer.ContentLengthRead` | src/http_server.cpp:140-156 | with bytes missing and a buffer that can be created, a successful read gives a body that starts with the bytes already read and never exceeds `n`; it is exactly the first `n` bytes received when the socket delivers enough |
| `HttpServer.ContentLengthReadFailed` | src/http_server.cpp:151-152 | with bytes missing, a failed read leaves the body empty but still yields a request to answer |
| `HttpServer.ContentLengthUnallocatable` | src/http_server.cpp:139-188 | with bytes missing, more than `PTRDIFF_MAX` of them (`length_error`) or a failed allocation (`bad_alloc`) gives no request and so no response |
| `HttpServer.NegativeContentLength` | src/http_server.cpp:133-142 | `Content-Length: -1` parses to `ULONG_MAX`, and for any request text a string can hold the connection then gets no response |
| `HttpServer.NoBodyWithoutContentLength` | src/http_server.cpp:130-132 | other methods, or no `Content-Length` header, leave the body as parsed |
| `HttpServer.Respond` | src/http_server.cpp:164-182 | no route gives 404 "Not Found" with text `Resource not found: <path>`; a throwing handler gives 500 "Internal Server Error" with text `Internal server error: <message>` over the headers it had set; otherwise the handler's own response |
| `HttpServer.HeaderLinesSnoc` | src/http_server.cpp:270-272 | writing one more header appends exactly its `name: value\r\n` line |
| `HttpServer.HeaderLinesEndWithCRLF` | src/http_server.cpp:270-272 | the header block is empty or ends with `\r\n` |
| `HttpServer.WriteHeaders` | src/http_server.cpp:269-272 | the loop writes one `name: value\r\n` line per header, each header exactly once, in some iteration order |
| `HttpServer.SendResponse` | src/http_server.cpp:260-283 | the serialisation is the status line, the Content-Length line, one line per header in some order, a blank line and the body |
| `HttpServer.WireLayout` | src/http_server.cpp:263-278 | every serialisation starts with `HTTP/1.1 <code> <text>\r\nContent-Length: <|body|>\r\n` and ends with `\r\n\r\n` followed by the body |
| `HttpServer.Server.constructor` | src/http_server.cpp:14-16 | a new server has no routes |
| `HttpServer.Server.FindHandler` | src/http_server.cpp:285-298 | the handler registered for exactly this method and path, or none |
| `HttpServer.Server.AddRoute` | src/http_server.cpp:88-91 | afterwards the pair finds the new handler (replacing an old one) and every other pair finds what it found before |
| `HttpServer.Server.ReadBody` | src/http_server.cpp:129-161 | the request gets the assembled body, or none when `stoul` throws on the Content-Length value or the body buffer cannot be created |
| `HttpServer.Server.Dispatch` | src/http_server.cpp:163-182 | the response is the dispatch rule applied to the handler found for the request's method and path |
| `HttpServer.Server.HandleClient` | src/http_server.cpp:107-189 | a failed read writes nothing; otherwise something is written exactly when the body could be assembled (the Content-Length parses and the body buffer can be created), and it is a serialisation of the dispatched response |
| `Text.FindChar` | src/http_server.cpp:209 | `find(c)`: the position of the first occurrence, or none exactly when the character is absent |
| `Text.FindCharAt` | src/http_server.cpp:223 | in `a + c + b` with `c` not in `a`, the first `c` is at `|a|` |
| `Text.FindText` | src/http_server.cpp:136 | `find(t)`: the first position at which `t` occurs, or none when it occurs nowhere |
| `Text.Getline` | src/http_server.cpp:197 | `getline`: none only at end of input; otherwise the text before the first delimiter and the rest after it, or everything when there is no delimiter |
| `Text.GetlineAt` | src/http_server.cpp:218 | a line without the delimiter followed by the delimiter is read exactly |
| `Text.TrimLeft` | src/http_server.cpp:229-231 | removes exactly the leading whitespace; the result is a suffix that starts with a non-space |
| `Text.DropCR` | src/http_server.cpp:200-202 | removes one trailing `\r` and nothing else |
| `Text.Word` | src/http_server.cpp:206 | one `>>` extraction reads the longest prefix without whitespace |
| `Text.WordOfWord` | src/http_server.cpp:206 | a word followed by whitespace or the end is extracted whole |
| `Text.TokensAreWords` | src/http_server.cpp:206 | every extracted token is a non-empty run of non-whitespace characters |
| `Text.NatToString` | src/http_server.cpp:267 | `to_string` of a size is a non-empty string of digits without a leading zero |
| `Text.DigitsValueOfNatToString` | src/http_server.cpp:267 | the digits `to_string` writes denote the number |
| `Text.Stoul` | src/http_server.cpp:133 | `stoul` fails exactly when, after left trimming and an optional sign, there is no digit or the digits exceed `ULONG_MAX` |
| `Text.StoulOfNatToString` | src/http_server.cpp:133 | a Content-Length written with `to_string` is read back unchanged |
| `Text.JoinPath` | src/video_processor.cpp:105 | `fs::path(dir) / name` ends with `name` |
| `Json.Get` | src/video_processor.cpp:113-128 | a key found in an object is one of its fields |
| `Json.LookupAt` | main.cpp:80-92 | a key's first field is the one found |
| `Json.LookupAbsent` | main.cpp:90-92 | a key no field carries is not found |
| `Json.LookupDistinct` | main.cpp:47-55 | in an object with distinct keys every key finds its own value |
| `VideoProcessing.Code` | include/video_processor.hpp:17-22 | the status codes are 0 to 3 |
| `VideoProcessing.CodeIsBijective` | include/video_processor.hpp:17-22 | PENDING, PROCESSING, COMPLETED and FAILED have the distinct codes 0, 1, 2, 3 |
| `VideoProcessing.MetadataRecord` | src/video_processor.cpp:230-267 | the probe's record has an empty id, the file path and no error; with nothing probed its metadata is 0, 0, 0.0 and "" |
| `VideoProcessing.Int32` | src/video_processor.cpp:115-116 | a JSON integer converted to `int` wraps modulo 2^32 into the 32-bit range |
| `VideoProcessing.Truncate` | src/video_processor.cpp:115-116 | a JSON double converted to `int` is truncated toward zero |
| `VideoProcessing.IntOf` | src/video_processor.cpp:115-116 | `get<int>` fails exactly on non-numbers and non-booleans and keeps in-range integers |
| `VideoProcessing.StringOf` | src/video_processor.cpp:122-127 | `get<std::string>` succeeds exactly on strings and returns the text |
| `VideoProcessing.FfmpegCommand` | src/video_processor.cpp:111-131 | the command starts with `ffmpeg -y -i "<in>"` and ends with ` "<out>" 2>&1` |
| `VideoProcessing.BuildFfmpegCommand` | src/video_processor.cpp:111-131 | the built command is the command line for the options, or the message of the first option conversion that throws |
| `VideoProcessing.AppendScale` | src/video_processor.cpp:113-119 | appends ` -vf scale=W:H` when `resize` holds both dimensions, nothing otherwise, or fails on a non-numeric dimension |
| `VideoProcessing.AppendTextOption` | src/video_processor.cpp:121-129 | appends the flag and the string value when the key is present, nothing otherwise, or fails on a non-string value |
| `VideoProcessing.RunFfmpeg` | src/video_processor.cpp:111-138 | the ffmpeg step fails with an option conversion error, `popen() failed`, or `Processing failed, output file not created`, in that order of checks |
| `VideoProcessing.OtherKeysAddNoFlags` | src/video_processor.cpp:93-131 | options with none of `resize`, `bitrate`, `codec` (or an empty options string) add no flags |
| `VideoProcessing.FlagOrder` | src/video_processor.cpp:111-131 | with all options present the flags come in the order scale, bitrate, codec between the input and the output |
| `VideoProcessing.ResizeNeedsBothDimensions` | src/video_processor.cpp:113-119 | a `resize` missing width or height adds no scale flag |
| `VideoProcessing.FirstWithId` | src/video_processor.cpp:173-175 | the position of the first record with the id, or none exactly when no record has it |
| `VideoProcessing.EraseAt` | src/video_processor.cpp:206 | erasing removes exactly one record and keeps the others in order |
| `VideoProcessing.EraseUniqueId` | src/video_processor.cpp:192-206 | with distinct ids, no record with the id remains after the erase |
| `VideoProcessing.FirstWithIdIs` | src/video_processor.cpp:173-178 | a record preceded by no record with its id is the one found |
| `VideoProcessing.FindAppended` | src/video_processor.cpp:144-150 | a record appended under a new id is found at the end |
| `VideoProcessing.EvictionKeepsLimit` | src/video_processor.cpp:285-308 | above a positive limit exactly `maxChunks` records remain, each present before (a sub-multiset); otherwise nothing changes |
| `VideoProcessing.JobOutcome` | src/video_processor.cpp:83-168 | a job ends COMPLETED exactly when no step throws and FAILED otherwise with the thrown message; never PENDING or PROCESSING |
| `VideoProcessing.CompletedJobRecord` | src/video_processor.cpp:104-142 | a completed record has the second id, the output path and size, and the probed metadata |
| `VideoProcessing.EarlyFailureKeepsDefaults` | src/video_processor.cpp:85-102 | a job failing before the probe keeps the first id, the input path and the metadata defaults |
| `VideoProcessing.CompletedFileNamedByFirstDraw` | src/video_processor.cpp:104-108 | a completed job's output file is named after the record's id exactly when the two id draws agree |
| `VideoProcessing.VideoProcessor.constructor` | src/video_processor.cpp:39-43 | a new processor has no records, limit 0 and zero counters |
| `VideoProcessing.VideoProcessor.Initialize` | src/video_processor.cpp:49-81 | succeeds exactly when the directories are ready and ffmpeg starts; the paths are set once the directories are ready; the registry is untouched |
| `VideoProcessing.VideoProcessor.FindChunk` | src/video_processor.cpp:173-175 | the search loop finds the first record with the id |
| `VideoProcessing.VideoProcessor.GetChunkInfo` | src/video_processor.cpp:170-182 | the first record with the id, or none exactly when no record has it |
| `VideoProcessing.VideoProcessor.ListChunks` | src/video_processor.cpp:184-187 | a copy of the registry in its order |
| `VideoProcessing.VideoProcessor.DeleteChunk` | src/video_processor.cpp:189-211 | true exactly when a record has the id and the file removal does not throw; then exactly the first such record is erased; otherwise nothing changes |
| `VideoProcessing.VideoProcessor.CleanupOldChunks` | src/video_processor.cpp:285-308 | the registry becomes the last `maxChunks` records of some rearrangement of it when the positive limit is exceeded, and is unchanged otherwise |
| `VideoProcessing.VideoProcessor.SetMaxChunks` | src/video_processor.cpp:213-219 | stores the limit; 0 evicts nothing, a positive limit evicts at once |
| `VideoProcessing.VideoProcessor.ProcessChunk` | src/video_processor.cpp:83-168 | the returned record is the job's record for its two hex ids; a completed one is appended, counted as processed and followed by eviction; a failed one is appended and counted as failed without eviction |
| `Routes.SetupRoutes` | main.cpp:31-164 | the five method/path pairs find their handlers and every other pair is unchanged; the table is the given one with the five routes added |
| `Routes.ChunkJsonFields` | main.cpp:47-55 | a listing element carries the id, the status code, the size, width, height, duration and codec, and no `error` |
| `Routes.ErrorJsonFields` | main.cpp:80-92 | a report with an error message carries it under `error` beside the other fields |
| `Routes.InfoJsonFields` | main.cpp:80-92 | the info report carries id, status code, size, width, height, duration and codec; `error` is present exactly when the error message is non-empty |
| `Routes.InfoJsonAscending` | main.cpp:80-94 | the report's fields are in the ascending key order in which `dump()` writes them |
| `Routes.InfoMissingId` | main.cpp:62-68 | without `id` the answer is 400 "Bad Request" `{"error":"Missing chunk id"}` whatever the registry holds |
| `Routes.InfoUnknownId` | main.cpp:70-78 | an id no record has is answered 404 "Not Found" `{"error":"Chunk not found"}` |
| `Routes.InfoKnownId` | main.cpp:80-94 | a known id is answered 200 with the report of the first record having it |
| `Routes.VideoGate` | main.cpp:99 | `find("video/") == 0` holds exactly when the content type starts with `video/` |
| `Routes.UploadOptions` | main.cpp:125-133 | the job's options are the parsed `options` parameter, or `{}` when it is absent or does not parse |
| `Routes.FallbackOptionsAddNoFlags` | main.cpp:125-135 | the `{}` fallback adds no ffmpeg flags |
| `Routes.ReadOptions` | main.cpp:125-133 | the handler's options are the upload options |
| `Routes.ListChunksHandler` | main.cpp:42-59 | the body is a JSON array with one element per record, in registry order |
| `Routes.InfoHandler` | main.cpp:61-95 | the response is the info decision (400, 404 or the report) for the registry and query |
| `Routes.UploadHandler` | main.cpp:97-142 | a missing or non-video Content-Type gives 400 and no job; an uncreatable temp file gives 500 and no job; otherwise the job runs on the temp file with the upload options and the answer is `{"id","status"}` of its record; the registry and the processed/failed counters move as the job's outcome says, untouched without a job, and the paths and capacity never change |
| `Routes.DeleteHandler` | main.cpp:144-163 | no `id` gives 400; a deleted record gives `{"success":true}` with exactly the first match erased; otherwise 404 with the registry unchanged; counters, paths and capacity never change |
| `Storage.SplitStoredName` | src/storage_manager.cpp:44-51 | a name is split at its first `_` into an id without `_` and the rest, and names without `_` are rejected |
| `Storage.SplitStoredNameOfStored` | src/storage_manager.cpp:45-51 | round trip: `id + "_" + filename` with an id without `_` splits back into exactly that id and file name |
| `Storage.GeneratedNameSplits` | src/storage_manager.cpp:145-148 | every name the manager writes splits back into its generated id and file name |
| `Storage.IndexStep` | src/storage_manager.cpp:39-57 | one step of the directory loop: skip, register under the split id, or stop on a throwing `file_size` |
| `Storage.IndexKeyed` | src/storage_manager.cpp:39-57 | rebuilding the index keeps every entry filed under its own id |
| `Storage.RestartRecoversStoredFile` | src/storage_manager.cpp:39-57 | a stored file is registered again under its id with its file name, size and path |
| `Storage.ListedSnoc` | src/storage_manager.cpp:391-393 | listing one more id appends exactly its metadata |
| `Storage.ListedLength` | src/storage_manager.cpp:385-396 | a listing has one element per listed id |
| `Storage.ListedContains` | src/storage_manager.cpp:391-393 | a listed id's metadata is in the listing |
| `Storage.ListingOnePerEntry` | src/storage_manager.cpp:385-396 | a listing over an iteration order has exactly as many elements as the index and contains every entry |
| `Storage.StorageManager.constructor` | src/storage_manager.cpp:17-20 | the singleton starts with no base path and an empty index |
| `Storage.StorageManager.Initialize` | src/storage_manager.cpp:22-66 | a missing uncreatable or non-directory path fails with nothing changed; otherwise the base path is set and the index is the directory loop's result |
| `Storage.StorageManager.StoreData` | src/storage_manager.cpp:139-195 | fails without change exactly when there is no usable base path or the write fails; otherwise the entry is filed under a newly drawn hex id, replacing any entry with that id, with the data's size and the path `base / id_filename` |
| `Storage.StorageManager.GetMetadata` | src/storage_manager.cpp:307-316 | the entry for the id, or none exactly when it is absent |
| `Storage.StorageManager.GetFilePath` | src/storage_manager.cpp:318-324 | the entry's path, or `""` when the id is absent |
| `Storage.StorageManager.DeleteFile` | src/storage_manager.cpp:354-383 | true exactly when the id is present and the file system does not throw; then exactly that entry is erased; otherwise nothing changes |
| `Storage.StorageManager.ListFiles` | src/storage_manager.cpp:385-396 | one element per entry, in some iteration order of the map |
| `Storage.StoredFileIsFound` | src/storage_manager.cpp:307-324 | a stored file is found again by its id, at a path ending in its stored name |

## Left out

- Sockets, `start`, `stop`, `acceptConnection` and the detached per-connection threads: what is read and written is input and output of `HandleClient`.
- The thread pool: the job `processChunk` submits runs to completion inside `ProcessChunk`, as `future.get()` in the upload handler waits for it.
- Mutexes and concurrent access to the registry and the index.
- `execCommand`/`popen` and `extractMetadata` (ffprobe output parsed as JSON, `std::stod`): their results are fields of `JobWorld`.
- The ffmpeg version check and directory creation in `VideoProcessor::initialize`: booleans.
- `processChunk` re-parses the options string the upload handler dumped. The model passes the options document itself, which assumes `parse(dump(j)) == j`.
- The JSON text parser used for the `options` parameter: a function parameter of the upload handler.
- `getLoadFactor` and the `GET /api/status` handler: floating-point load arithmetic and configuration lookups. The route is registered (`Routes.StatusRoute`) but its handler is not modelled.
- Creation of the temporary directory in the upload handler.
- The temporary file's contents.
- Filesystem effects (`fs::exists`, `fs::remove`, `fs::file_size`, file streams): booleans and results given as parameters.
- `cleanupOldFiles` (clock and `get_time`/`mktime`), `storeFile` and `readFile` (file reading), the logger and the configuration store.
- HttpServer.Server.HandleClient: handler invocation is the abstract parameter `run`. The handlers of `Routes` are not wired into it.
- Json.Dump: doubles are written as a whole part, a point and up to 17 fraction digits. nlohmann's shortest round-trip formatting and exponent notation are not modelled.
- VideoProcessing.Truncate: converting a double outside the `int` range is undefined behaviour in C++. The model truncates and then wraps.
- Unsigned widths: `size_t` sizes and the processed/failed counters are unbounded naturals. `std::stoul`'s `ULONG_MAX` bound is modelled; other wrap-around is not.
- Characters: one Dafny `char` stands for one byte of the request and response text, so `Content-Length` counts characters; multi-byte encodings are not modelled.
- Json.Dump: nlohmann's UTF-8 validation of strings (`type_error` 316 on invalid bytes) is not modelled; every string is written.
- Routes.UploadOptions: the `parse` parameter may return objects with repeated keys, which nlohmann's object cannot hold. Lookups then read the first occurrence, where nlohmann's parser would keep the last.
- `shared_ptr` aliasing: records are values. A listed or found record is a copy, not a handle that sees later updates.
- VideoProcessing.VideoProcessor.CleanupOldChunks: which records are evicted is left open, because the sort is by pointer address. Only the count and the sub-multiset property are stated.
- HttpServer.SendResponse: the header order is some enumeration of the map, not the library's actual bucket order.
- Storage.StorageManager.ListFiles: the listing order is some enumeration of the map, not the library's actual bucket order.
