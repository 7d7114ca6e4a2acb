/**
 * The video processor of src/video_processor.cpp and include/video_processor.hpp: the
 * in-memory registry of processed chunks (lookup, listing, deletion, capacity eviction),
 * the job that transcodes one uploaded chunk and records its outcome, and the ffmpeg
 * command line that job builds. The file system, ffprobe and ffmpeg are replaced by the
 * outcomes they report (a JobWorld); the thread pool runs the job at once.
 */
module VideoProcessing {
  import opened Wrappers
  import opened Text
  import opened Json
  import opened HexId

  // ------------------------------------------------------------------ records

  /** ProcessingStatus, in declaration order. */
  datatype Status = Pending | Processing | Completed | Failed

  /** `static_cast<int>(status)`, the number the routes report. */
  function Code(s: Status): (c: int)
    ensures 0 <= c <= 3
  {
    match s
    case Pending => 0
    case Processing => 1
    case Completed => 2
    case Failed => 3
  }

  /** The four values get the four codes 0..3, so a code names exactly one status. */
  lemma CodeIsBijective()
    ensures forall a: Status, b: Status :: Code(a) == Code(b) ==> a == b
    ensures {Code(Pending), Code(Processing), Code(Completed), Code(Failed)} == {0, 1, 2, 3}
  {
    assert Code(Pending) == 0 && Code(Processing) == 1 && Code(Completed) == 2 && Code(Failed) == 3;
  }

  /** ChunkInfo. `size` is a size_t; the metadata fields default to 0, 0, 0.0 and "". */
  datatype ChunkInfo = ChunkInfo(
    chunkId: string,
    filePath: string,
    size: nat,
    status: Status,
    errorMessage: string,
    width: int,
    height: int,
    duration: real,
    codec: string)

  /** What ffprobe reports for a file; all defaults when it reports nothing usable. */
  datatype Metadata = Metadata(width: int, height: int, duration: real, codec: string)

  const NoMetadata := Metadata(0, 0, 0.0, "")

  /**
   * The record `extractMetadata` returns: a fresh ChunkInfo (empty id, the metadata
   * defaults, an indeterminate size) with the file path and what the probe found. Its
   * status is indeterminate too; the job overwrites it with PROCESSING straight away,
   * which is the value used here.
   */
  function MetadataRecord(filePath: string, probe: Metadata, unsetSize: nat): (r: ChunkInfo)
    ensures r.chunkId == "" && r.filePath == filePath && r.errorMessage == ""
    ensures probe == NoMetadata ==> r.width == 0 && r.height == 0 && r.duration == 0.0 && r.codec == ""
  {
    ChunkInfo("", filePath, unsetSize, Processing, "", probe.width, probe.height, probe.duration, probe.codec)
  }

  // ------------------------------------------------------------------ job options

  const TwoTo32 := 0x1_0000_0000

  /** `static_cast<int>` of a 64-bit integer: reduction modulo 2^32 into [-2^31, 2^31). */
  function Int32(n: int): (r: int)
    ensures -0x8000_0000 <= r < 0x8000_0000
    ensures (r - n) % TwoTo32 == 0
  {
    (n + 0x8000_0000) % TwoTo32 - 0x8000_0000
  }

  /** Conversion of a double to an integer: truncation toward zero. */
  function Truncate(f: real): (r: int)
    ensures f >= 0.0 ==> r as real <= f < r as real + 1.0
    ensures f < 0.0 ==> r as real - 1.0 < f <= r as real
  {
    if f >= 0.0 then f.Floor else -((-f).Floor)
  }

  /** `get<int>()`: numbers and booleans convert, anything else throws type_error 302. */
  function IntOf(j: Json): (r: Result<int, string>)
    ensures r.Failure? <==> !(j.Number? || j.Float? || j.Bool?)
    ensures j.Number? && -0x8000_0000 <= j.n < 0x8000_0000 ==> r == Success(j.n)
  {
    match j
    case Number(n) => Success(Int32(n))
    case Float(f) => Success(Int32(Truncate(f)))
    case Bool(b) => Success(if b then 1 else 0)
    case _ => Failure(TypeError("number", j))
  }

  /** `get<std::string>()`: only strings convert. */
  function StringOf(j: Json): (r: Result<string, string>)
    ensures r.Success? <==> j.Str?
    ensures r.Success? ==> r.value == j.s
  {
    if j.Str? then Success(j.s) else Failure(TypeError("string", j))
  }

  /** The options a job reads: `resize` (both dimensions), `bitrate`, `codec`. */
  datatype Options = Options(scale: Option<(int, int)>, bitrate: Option<string>, codec: Option<string>)

  const NoOptions := Options(None, None, None)

  /**
   * The options as the job reads them from the parsed options document, in its order:
   * `resize` only when it holds both `width` and `height`, then `bitrate`, then `codec`;
   * the first conversion that throws ends the reading with its message.
   */
  function OptionsOf(options: Json): Result<Options, string> {
    match ScaleOf(options)
    case Failure(e) => Failure(e)
    case Success(scale) =>
      match StringOption(options, "bitrate")
      case Failure(e) => Failure(e)
      case Success(bitrate) =>
        match StringOption(options, "codec")
        case Failure(e) => Failure(e)
        case Success(codec) => Success(Options(scale, bitrate, codec))
  }

  /** `resize.width` and `resize.height` as ints, when `resize` holds both. */
  function ScaleOf(options: Json): Result<Option<(int, int)>, string> {
    match Get(options, "resize")
    case None => Success(None)
    case Some(resize) =>
      if Get(resize, "width").None? || Get(resize, "height").None? then Success(None)
      else match IntOf(Get(resize, "width").value)
        case Failure(e) => Failure(e)
        case Success(width) =>
          match IntOf(Get(resize, "height").value)
          case Failure(e) => Failure(e)
          case Success(height) => Success(Some((width, height)))
  }

  /** An optional string-valued option. */
  function StringOption(options: Json, key: string): Result<Option<string>, string> {
    match Get(options, key)
    case None => Success(None)
    case Some(v) => if v.Str? then Success(Some(v.s)) else Failure(TypeError("string", v))
  }

  /** The flags the options add, in the fixed order scale, bitrate, codec. */
  function Flags(o: Options): string {
    ScaleFlag(o.scale) + TextFlag(" -b:v ", o.bitrate) + TextFlag(" -c:v ", o.codec)
  }

  function ScaleFlag(scale: Option<(int, int)>): string {
    if scale.Some? then " -vf scale=" + IntToString(scale.value.0) + ":" + IntToString(scale.value.1) else ""
  }

  function TextFlag(flag: string, value: Option<string>): string {
    if value.Some? then flag + value.value else ""
  }

  function CommandHead(inputPath: string): string {
    "ffmpeg -y -i \"" + inputPath + "\""
  }

  function CommandTail(outputPath: string): string {
    " \"" + outputPath + "\" 2>&1"
  }

  /** The complete ffmpeg command line for the options. */
  function FfmpegCommand(inputPath: string, outputPath: string, o: Options): (cmd: string)
    ensures StartsWith(cmd, CommandHead(inputPath)) && EndsWith(cmd, CommandTail(outputPath))
  {
    var cmd := CommandHead(inputPath) + Flags(o) + CommandTail(outputPath);
    assert cmd[..|CommandHead(inputPath)|] == CommandHead(inputPath);
    assert cmd[|cmd| - |CommandTail(outputPath)|..] == CommandTail(outputPath);
    cmd
  }

  /** The command assembled with `+=` the way the job does it; a throwing conversion ends it. */
  method BuildFfmpegCommand(inputPath: string, options: Json, outputPath: string) returns (cmd: Result<string, string>)
    ensures OptionsOf(options).Failure? ==> cmd == Failure(OptionsOf(options).error)
    ensures OptionsOf(options).Success? ==> cmd == Success(FfmpegCommand(inputPath, outputPath, OptionsOf(options).value))
  {
    var ffmpegCmd := "ffmpeg -y -i \"" + inputPath + "\"";
    var scaled := AppendScale(ffmpegCmd, options);
    if scaled.Failure? {
      return Failure(scaled.error);
    }
    var withBitrate := AppendTextOption(scaled.value, options, "bitrate", " -b:v ");
    if withBitrate.Failure? {
      return Failure(withBitrate.error);
    }
    var withCodec := AppendTextOption(withBitrate.value, options, "codec", " -c:v ");
    if withCodec.Failure? {
      return Failure(withCodec.error);
    }
    CommandPieces(CommandHead(inputPath), ScaleFlag(ScaleOf(options).value),
      TextFlag(" -b:v ", StringOption(options, "bitrate").value),
      TextFlag(" -c:v ", StringOption(options, "codec").value), outputPath);
    cmd := Success(withCodec.value + " \"" + outputPath + "\" 2>&1");
  }

  /** The `resize` step: append the scale flag when both dimensions are present. */
  method AppendScale(ffmpegCmd: string, options: Json) returns (r: Result<string, string>)
    ensures ScaleOf(options).Failure? ==> r == Failure(ScaleOf(options).error)
    ensures ScaleOf(options).Success? ==> r == Success(ffmpegCmd + ScaleFlag(ScaleOf(options).value))
  {
    var resize := Get(options, "resize");
    if resize.Some? {
      var w, h := Get(resize.value, "width"), Get(resize.value, "height");
      if w.Some? && h.Some? {
        var width := IntOf(w.value);
        if width.Failure? {
          return Failure(width.error);
        }
        var height := IntOf(h.value);
        if height.Failure? {
          return Failure(height.error);
        }
        return Success(ffmpegCmd + (" -vf scale=" + IntToString(width.value) + ":" + IntToString(height.value)));
      }
    }
    assert ffmpegCmd + "" == ffmpegCmd;
    return Success(ffmpegCmd);
  }

  /** The `bitrate` or `codec` step: append the flag and the value when the key is present. */
  method AppendTextOption(ffmpegCmd: string, options: Json, key: string, flag: string) returns (r: Result<string, string>)
    ensures StringOption(options, key).Failure? ==> r == Failure(StringOption(options, key).error)
    ensures StringOption(options, key).Success? ==> r == Success(ffmpegCmd + TextFlag(flag, StringOption(options, key).value))
  {
    var value := Get(options, key);
    if value.Some? {
      var text := StringOf(value.value);
      if text.Failure? {
        return Failure(text.error);
      }
      return Success(ffmpegCmd + (flag + text.value));
    }
    assert ffmpegCmd + "" == ffmpegCmd;
    return Success(ffmpegCmd);
  }

  /**
   * The ffmpeg step of the job: build the command, run it (`world.launched` is whether
   * `popen` succeeded; its output is only logged), and check that the output file exists.
   */
  method RunFfmpeg(inputPath: string, options: Json, outputPath: string, world: JobWorld) returns (failure: Option<string>)
    ensures failure == TranscodeFailure(options, world)
  {
    var ffmpegCmd := BuildFfmpegCommand(inputPath, options, outputPath);
    if ffmpegCmd.Failure? {
      return Some(ffmpegCmd.error);
    }
    if !world.launched {
      return Some("popen() failed");
    }
    if !world.outputExists {
      return Some("Processing failed, output file not created");
    }
    return None;
  }

  lemma CommandPieces(head: string, scaleFlag: string, bitrateFlag: string, codecFlag: string, outputPath: string)
    ensures head + scaleFlag + bitrateFlag + codecFlag + " \"" + outputPath + "\" 2>&1" ==
      head + (scaleFlag + bitrateFlag + codecFlag) + CommandTail(outputPath)
  {
  }

  /**
   * Keys other than `resize`, `bitrate` and `codec` are ignored: an options object with
   * none of them (and the null document of an empty options string) adds no flag, and the
   * command is the input clause followed by the output clause.
   */
  lemma OtherKeysAddNoFlags(inputPath: string, outputPath: string, fields: seq<(string, Json)>)
    requires forall i :: 0 <= i < |fields| ==> fields[i].0 != "resize" && fields[i].0 != "bitrate" && fields[i].0 != "codec"
    ensures OptionsOf(Obj(fields)) == Success(NoOptions)
    ensures OptionsOf(Null) == Success(NoOptions)
    ensures FfmpegCommand(inputPath, outputPath, NoOptions) == CommandHead(inputPath) + CommandTail(outputPath)
  {
    LookupAbsent(fields, "resize");
    LookupAbsent(fields, "bitrate");
    LookupAbsent(fields, "codec");
  }

  /**
   * With every option present the flags appear in the order scale, bitrate, codec, between
   * the input and output clauses.
   */
  lemma FlagOrder(inputPath: string, outputPath: string, w: int, h: int, b: string, c: string)
    ensures FfmpegCommand(inputPath, outputPath, Options(Some((w, h)), Some(b), Some(c))) ==
      CommandHead(inputPath) + (" -vf scale=" + IntToString(w) + ":" + IntToString(h)) +
      (" -b:v " + b) + (" -c:v " + c) + CommandTail(outputPath)
  {
    var scale, bitrate, codec := " -vf scale=" + IntToString(w) + ":" + IntToString(h), " -b:v " + b, " -c:v " + c;
    assert Flags(Options(Some((w, h)), Some(b), Some(c))) == scale + bitrate + codec;
    Regroup(CommandHead(inputPath), scale, bitrate, codec, CommandTail(outputPath));
  }

  lemma Regroup(head: string, a: string, b: string, c: string, tail: string)
    ensures head + (a + b + c) + tail == head + a + b + c + tail
  {
  }

  /** A `resize` object lacking one of its dimensions adds no scale flag, and is no error. */
  lemma ResizeNeedsBothDimensions(resize: Json, options: Json)
    requires Get(options, "resize") == Some(resize)
    requires Get(resize, "width").None? || Get(resize, "height").None?
    ensures OptionsOf(options).Success? ==> OptionsOf(options).value.scale.None?
    ensures OptionsOf(options).Failure? ==>
      (Get(options, "bitrate").Some? && !Get(options, "bitrate").value.Str?) ||
      (Get(options, "codec").Some? && !Get(options, "codec").value.Str?)
  {
  }

  // ------------------------------------------------------------------ registry search

  /** The position of the first record with this id: what `std::find_if` finds. */
  function FirstWithId(chunks: seq<ChunkInfo>, chunkId: string): (r: Option<nat>)
    ensures r.Some? ==> r.value < |chunks| && chunks[r.value].chunkId == chunkId
    ensures r.Some? ==> forall j :: 0 <= j < r.value ==> chunks[j].chunkId != chunkId
    ensures r.None? <==> forall j :: 0 <= j < |chunks| ==> chunks[j].chunkId != chunkId
    decreases |chunks|
  {
    if chunks == [] then None
    else if chunks[0].chunkId == chunkId then Some(0)
    else match FirstWithId(chunks[1..], chunkId)
      case None => None
      case Some(i) => Some(i + 1)
  }

  /** The registry with the record at `i` erased, the others kept in order. */
  function EraseAt(chunks: seq<ChunkInfo>, i: nat): (r: seq<ChunkInfo>)
    requires i < |chunks|
    ensures |r| == |chunks| - 1
    ensures forall j :: 0 <= j < i ==> r[j] == chunks[j]
    ensures forall j :: i <= j < |r| ==> r[j] == chunks[j + 1]
    ensures multiset(r) + multiset{chunks[i]} == multiset(chunks)
  {
    assert chunks == chunks[..i] + [chunks[i]] + chunks[i + 1..];
    chunks[..i] + chunks[i + 1..]
  }

  /**
   * When ids are unique (as 32 random hex digits make them in practice), deleting the
   * record with an id leaves none with that id.
   */
  lemma EraseUniqueId(chunks: seq<ChunkInfo>, chunkId: string)
    requires FirstWithId(chunks, chunkId).Some?
    requires forall i, j :: 0 <= i < j < |chunks| ==> chunks[i].chunkId != chunks[j].chunkId
    ensures FirstWithId(EraseAt(chunks, FirstWithId(chunks, chunkId).value), chunkId).None?
  {
    var i := FirstWithId(chunks, chunkId).value;
    var r := EraseAt(chunks, i);
    forall j | 0 <= j < |r| ensures r[j].chunkId != chunkId {
      if j >= i {
        assert r[j] == chunks[j + 1];
      }
    }
  }

  /** The first match is determined by its defining property. */
  lemma FirstWithIdIs(chunks: seq<ChunkInfo>, chunkId: string, i: nat)
    requires i < |chunks| && chunks[i].chunkId == chunkId
    requires forall j :: 0 <= j < i ==> chunks[j].chunkId != chunkId
    ensures FirstWithId(chunks, chunkId) == Some(i)
  {
  }

  /** A record appended under a fresh id is the one a later lookup of that id finds. */
  lemma FindAppended(chunks: seq<ChunkInfo>, info: ChunkInfo)
    requires FirstWithId(chunks, info.chunkId).None?
    ensures FirstWithId(chunks + [info], info.chunkId) == Some(|chunks|)
  {
    var s := chunks + [info];
    forall j | 0 <= j < |chunks| ensures s[j].chunkId != info.chunkId {
      assert s[j] == chunks[j];
    }
    FirstWithIdIs(s, info.chunkId, |chunks|);
  }

  // ------------------------------------------------------------------ eviction

  /**
   * What `cleanupOldChunks` may leave: with a positive limit that is exceeded, the last
   * `maxChunks` records of some rearrangement of the registry (it sorts by pointer address,
   * an order the model does not know); otherwise the registry unchanged.
   */
  ghost predicate Evicted(before: seq<ChunkInfo>, after: seq<ChunkInfo>, maxChunks: nat) {
    if maxChunks > 0 && |before| > maxChunks then
      exists arranged: seq<ChunkInfo> ::
        multiset(arranged) == multiset(before) && |arranged| == |before| &&
        after == arranged[|before| - maxChunks..]
    else after == before
  }

  /** Eviction leaves exactly `maxChunks` records, each of which was there before. */
  lemma EvictionKeepsLimit(before: seq<ChunkInfo>, after: seq<ChunkInfo>, maxChunks: nat)
    requires Evicted(before, after, maxChunks)
    ensures maxChunks > 0 && |before| > maxChunks ==> |after| == maxChunks
    ensures maxChunks == 0 || |before| <= maxChunks ==> after == before
    ensures multiset(after) <= multiset(before)
    ensures forall c :: c in after ==> c in before
  {
    if maxChunks > 0 && |before| > maxChunks {
      var arranged: seq<ChunkInfo> :| multiset(arranged) == multiset(before) && |arranged| == |before| &&
        after == arranged[|before| - maxChunks..];
      var k := |before| - maxChunks;
      assert arranged == arranged[..k] + after;
      assert multiset(arranged) == multiset(arranged[..k]) + multiset(after);
      forall c | c in after ensures c in before {
        assert multiset(after)[c] > 0;
        assert multiset(before)[c] > 0;
      }
    }
  }

  // ------------------------------------------------------------------ the job

  /**
   * What the outside world reports to one job: `fs::file_size` of the input (its value or
   * the exception text), `fs::exists` of the input, what ffprobe finds, whether `popen`
   * starts ffmpeg, whether the output file then exists and its size, and the indeterminate
   * value an uninitialised `size_t` holds.
   */
  datatype JobWorld = JobWorld(
    inputSize: Result<nat, string>,
    inputExists: bool,
    probe: Metadata,
    launched: bool,
    outputExists: bool,
    outputSize: Result<nat, string>,
    unsetSize: nat)

  /** The output file of a job: its first id followed by "_processed.mp4", in the storage directory. */
  function OutputPath(storagePath: string, firstId: string): string {
    JoinPath(storagePath, firstId + "_processed.mp4")
  }

  /** The message of the first step of the job that throws, or None when it completes. */
  function JobFailure(options: Json, world: JobWorld): Option<string> {
    match world.inputSize
    case Failure(e) => Some(e)
    case Success(_) =>
      if !world.inputExists then Some("Input file does not exist")
      else match TranscodeFailure(options, world)
        case Some(e) => Some(e)
        case None =>
          match world.outputSize
          case Failure(e) => Some(e)
          case Success(_) => None
  }

  /**
   * The message of the ffmpeg step when it throws: an option that does not convert, a
   * failed `popen`, or no output file afterwards.
   */
  function TranscodeFailure(options: Json, world: JobWorld): Option<string> {
    match OptionsOf(options)
    case Failure(e) => Some(e)
    case Success(_) =>
      if !world.launched then Some("popen() failed")
      else if !world.outputExists then Some("Processing failed, output file not created")
      else None
  }

  /**
   * The record the job returns and appends, given the id drawn when it starts
   * (`firstId`, which names the output file) and the one drawn after the metadata probe
   * (`secondId`, which the record keeps, since the probe's fresh record has an empty id).
   */
  function JobRecord(inputPath: string, options: Json, world: JobWorld, storagePath: string,
                     firstId: string, secondId: string): ChunkInfo
  {
    var started := ChunkInfo(firstId, inputPath, world.unsetSize, Processing, "", 0, 0, 0.0, "");
    match world.inputSize
    case Failure(e) => started.(status := Failed, errorMessage := e)
    case Success(n) =>
      if !world.inputExists then started.(size := n, status := Failed, errorMessage := "Input file does not exist")
      else
        var probed := MetadataRecord(inputPath, world.probe, world.unsetSize).(chunkId := secondId);
        match TranscodeFailure(options, world)
        case Some(e) => probed.(status := Failed, errorMessage := e)
        case None =>
          match world.outputSize
            case Failure(e) => probed.(filePath := OutputPath(storagePath, firstId), status := Failed, errorMessage := e)
            case Success(m) => probed.(filePath := OutputPath(storagePath, firstId), size := m, status := Completed)
  }

  /**
   * A job ends COMPLETED exactly when no step throws, and FAILED otherwise with the
   * thrown message as its error; it never ends PENDING or PROCESSING.
   */
  lemma JobOutcome(inputPath: string, options: Json, world: JobWorld, storagePath: string, firstId: string, secondId: string)
    ensures var r := JobRecord(inputPath, options, world, storagePath, firstId, secondId);
      (r.status == Completed <==> JobFailure(options, world).None?) &&
      (r.status == Failed <==> JobFailure(options, world).Some?) &&
      (r.status == Failed ==> r.errorMessage == JobFailure(options, world).value) &&
      (r.status == Completed ==> r.errorMessage == "")
  {
  }

  /**
   * A completed job's record carries the output file's path and size and the probed
   * metadata; its id is the second draw, while the output file is named after the first.
   */
  lemma CompletedJobRecord(inputPath: string, options: Json, world: JobWorld, storagePath: string,
                           firstId: string, secondId: string)
    requires JobFailure(options, world).None?
    ensures var r := JobRecord(inputPath, options, world, storagePath, firstId, secondId);
      r.chunkId == secondId && r.filePath == OutputPath(storagePath, firstId) &&
      r.size == world.outputSize.value &&
      r.width == world.probe.width && r.height == world.probe.height &&
      r.duration == world.probe.duration && r.codec == world.probe.codec
  {
  }

  /**
   * A job that fails before the probe keeps the metadata defaults: width 0, height 0,
   * duration 0.0 and an empty codec.
   */
  lemma EarlyFailureKeepsDefaults(inputPath: string, options: Json, world: JobWorld, storagePath: string,
                                  firstId: string, secondId: string)
    requires world.inputSize.Failure? || !world.inputExists
    ensures var r := JobRecord(inputPath, options, world, storagePath, firstId, secondId);
      r.status == Failed && r.chunkId == firstId && r.filePath == inputPath &&
      r.width == 0 && r.height == 0 && r.duration == 0.0 && r.codec == ""
  {
  }

  /**
   * The output file of a completed job is named after the record's own id exactly when the
   * two id draws agree.
   */
  lemma CompletedFileNamedByFirstDraw(inputPath: string, options: Json, world: JobWorld, storagePath: string,
                                      firstId: string, secondId: string)
    requires JobFailure(options, world).None?
    requires IsHexId(firstId) && IsHexId(secondId)
    ensures var r := JobRecord(inputPath, options, world, storagePath, firstId, secondId);
      EndsWith(r.filePath, r.chunkId + "_processed.mp4") <==> firstId == secondId
  {
    var r := JobRecord(inputPath, options, world, storagePath, firstId, secondId);
    var named := firstId + "_processed.mp4";
    var expected := secondId + "_processed.mp4";
    assert r.filePath == OutputPath(storagePath, firstId);
    assert EndsWith(r.filePath, named);
    if EndsWith(r.filePath, expected) {
      assert |named| == |expected|;
      assert named == expected;
      assert named[..IdLength] == firstId && expected[..IdLength] == secondId;
    }
  }

  // ------------------------------------------------------------------ the processor

  /** VideoProcessor: the registry, its limit (0 = unlimited), counters and directories. */
  class VideoProcessor {
    var storagePath: string
    var tempPath: string
    var maxChunks: nat
    var chunks: seq<ChunkInfo>
    var processedChunks: nat
    var failedChunks: nat

    /** The constructor: no limit, an empty registry, zero counters. */
    constructor ()
      ensures maxChunks == 0 && chunks == [] && processedChunks == 0 && failedChunks == 0
      ensures storagePath == "" && tempPath == ""
    {
      storagePath, tempPath := "", "";
      maxChunks := 0;
      chunks := [];
      processedChunks, failedChunks := 0, 0;
    }

    /**
     * `initialize`: succeeds when both directories exist or can be created and ffmpeg can
     * be started; the paths are recorded once the directories are in place.
     */
    method Initialize(storage: string, temp: string, directoriesReady: bool, ffmpegStarts: bool) returns (ok: bool)
      modifies this
      ensures ok <==> directoriesReady && ffmpegStarts
      ensures directoriesReady ==> storagePath == storage && tempPath == temp
      ensures !directoriesReady ==> storagePath == old(storagePath) && tempPath == old(tempPath)
      ensures chunks == old(chunks) && maxChunks == old(maxChunks)
      ensures processedChunks == old(processedChunks) && failedChunks == old(failedChunks)
    {
      if !directoriesReady {
        return false;
      }
      storagePath := storage;
      tempPath := temp;
      if !ffmpegStarts {
        return false;
      }
      return true;
    }

    /** The `std::find_if` scan shared by lookup and deletion. */
    method FindChunk(chunkId: string) returns (pos: Option<nat>)
      ensures pos == FirstWithId(chunks, chunkId)
    {
      var i := 0;
      while i < |chunks|
        invariant 0 <= i <= |chunks|
        invariant forall j :: 0 <= j < i ==> chunks[j].chunkId != chunkId
      {
        if chunks[i].chunkId == chunkId {
          return Some(i);
        }
        i := i + 1;
      }
      return None;
    }

    /** `getChunkInfo`: the first record with the id, or None (nullptr); nothing changes. */
    method GetChunkInfo(chunkId: string) returns (r: Option<ChunkInfo>)
      ensures r.None? <==> forall j :: 0 <= j < |chunks| ==> chunks[j].chunkId != chunkId
      ensures r.Some? ==> r.value.chunkId == chunkId
      ensures r.Some? ==> exists i :: (0 <= i < |chunks| && chunks[i] == r.value &&
        forall j :: 0 <= j < i ==> chunks[j].chunkId != chunkId)
    {
      var pos := FindChunk(chunkId);
      if pos.None? {
        return None;
      }
      return Some(chunks[pos.value]);
    }

    /** `listChunks`: a copy of the registry, in its current order. */
    method ListChunks() returns (r: seq<ChunkInfo>)
      ensures |r| == |chunks| && forall i :: 0 <= i < |r| ==> r[i] == chunks[i]
    {
      r := chunks;
    }

    /**
     * `deleteChunk`: erase the first record with the id, unless there is none or removing
     * its file throws (`removalThrows`); the result says whether a record was erased.
     */
    method DeleteChunk(chunkId: string, removalThrows: bool) returns (deleted: bool)
      modifies this
      ensures deleted <==> FirstWithId(old(chunks), chunkId).Some? && !removalThrows
      ensures deleted ==> chunks == EraseAt(old(chunks), FirstWithId(old(chunks), chunkId).value)
      ensures !deleted ==> chunks == old(chunks)
      ensures maxChunks == old(maxChunks) && storagePath == old(storagePath) && tempPath == old(tempPath)
      ensures processedChunks == old(processedChunks) && failedChunks == old(failedChunks)
    {
      var pos := FindChunk(chunkId);
      if pos.None? {
        return false;
      }
      if removalThrows {
        return false;
      }
      chunks := chunks[..pos.value] + chunks[pos.value + 1..];
      return true;
    }

    /** `cleanupOldChunks`: reorder by pointer address, then erase from the front down to the limit. */
    method CleanupOldChunks()
      modifies this
      ensures Evicted(old(chunks), chunks, maxChunks)
      ensures maxChunks == old(maxChunks) && storagePath == old(storagePath) && tempPath == old(tempPath)
      ensures processedChunks == old(processedChunks) && failedChunks == old(failedChunks)
    {
      if maxChunks > 0 && |chunks| > maxChunks {
        ghost var before := chunks;
        assert multiset(chunks) == multiset(before) && |chunks| == |before|;
        var arranged :| multiset(arranged) == multiset(chunks) && |arranged| == |chunks|;
        chunks := arranged;
        var toDelete := |chunks| - maxChunks;
        var i := 0;
        while i < toDelete && chunks != []
          invariant 0 <= i <= toDelete
          invariant chunks == arranged[i..]
          invariant maxChunks == old(maxChunks) && storagePath == old(storagePath) && tempPath == old(tempPath)
          invariant processedChunks == old(processedChunks) && failedChunks == old(failedChunks)
        {
          chunks := chunks[1..];
          i := i + 1;
        }
        assert chunks == arranged[|before| - maxChunks..];
      }
    }

    /** `setMaxChunks`: store the limit; a positive one is enforced at once, 0 means unlimited. */
    method SetMaxChunks(limit: nat)
      modifies this
      ensures maxChunks == limit
      ensures Evicted(old(chunks), chunks, limit)
      ensures limit == 0 ==> chunks == old(chunks)
      ensures storagePath == old(storagePath) && tempPath == old(tempPath)
      ensures processedChunks == old(processedChunks) && failedChunks == old(failedChunks)
    {
      maxChunks := limit;
      if maxChunks > 0 {
        CleanupOldChunks();
      }
    }

    /**
     * The job `processChunk` submits, run to completion. It returns the record it appends:
     * a COMPLETED one (then the success counter grows and eviction runs) or a FAILED one
     * carrying the exception text (then the failure counter grows and no eviction runs, so
     * the registry may exceed its limit). The ghost results are the two ids it draws.
     */
    method ProcessChunk(inputPath: string, options: Json, world: JobWorld)
      returns (info: ChunkInfo, ghost firstId: string, ghost secondId: string)
      modifies this
      ensures IsHexId(firstId) && IsHexId(secondId)
      ensures info == JobRecord(inputPath, options, world, old(storagePath), firstId, secondId)
      ensures info.status == Completed ==>
        Evicted(old(chunks) + [info], chunks, maxChunks) &&
        processedChunks == old(processedChunks) + 1 && failedChunks == old(failedChunks)
      ensures info.status != Completed ==>
        chunks == old(chunks) + [info] &&
        failedChunks == old(failedChunks) + 1 && processedChunks == old(processedChunks)
      ensures maxChunks == old(maxChunks) && storagePath == old(storagePath) && tempPath == old(tempPath)
    {
      var chunkId := RandomHexId();
      firstId, secondId := chunkId, chunkId;
      info := ChunkInfo(chunkId, inputPath, world.unsetSize, Processing, "", 0, 0, 0.0, "");
      var failure: Option<string> := None;
      if world.inputSize.Failure? {
        failure := Some(world.inputSize.error);
      } else {
        info := info.(size := world.inputSize.value);
        if !world.inputExists {
          failure := Some("Input file does not exist");
        } else {
          var outputPath := JoinPath(storagePath, info.chunkId + "_processed.mp4");
          info := MetadataRecord(inputPath, world.probe, world.unsetSize);
          if info.chunkId == "" {
            var newId := RandomHexId();
            secondId := newId;
            info := info.(chunkId := newId);
          }
          info := info.(status := Processing);
          failure := RunFfmpeg(inputPath, options, outputPath, world);
          if failure.None? {
            info := info.(filePath := outputPath);
            if world.outputSize.Failure? {
              failure := Some(world.outputSize.error);
            } else {
              info := info.(size := world.outputSize.value, status := Completed);
              chunks := chunks + [info];
              processedChunks := processedChunks + 1;
              CleanupOldChunks();
            }
          }
        }
      }
      if failure.Some? {
        info := info.(status := Failed, errorMessage := failure.value);
        chunks := chunks + [info];
        failedChunks := failedChunks + 1;
      }
    }
  }
}
