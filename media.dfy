/**
 * The decision logic of the video backend: the per-second frame-metadata
 * sampler fed by the appsink and the bus loop around it
 * (process_video_with_gstreamer), the upload field check, the chunk
 * accumulation and the storage-path layout (store_video_file), and the append
 * to the media-file index (store_mediafile_data). GStreamer, the multipart
 * stream and the file system are oracles: what they deliver or report is a
 * parameter, and what would be written to disk is returned.
 */
module VideoBackend {
  import opened Wrappers

  const NanosPerSecond: nat := 1_000_000_000

  /** The directory, under the storage root, that holds one directory per upload. */
  const MediaPath: string := "media_files"

  /** The one multipart field name an upload may use. */
  const MediaFileField: string := "media_file"

  const BadRequest: nat := 400
  const InternalServerError: nat := 500

  type I32 = x: int | -0x8000_0000 <= x < 0x8000_0000
  type U32 = x: int | 0 <= x < 0x1_0000_0000
  type Byte = x: int | 0 <= x < 0x100

  /** `x as u32` for an i32: the two's-complement bit pattern read as unsigned. */
  function AsU32(x: I32): (r: U32)
    ensures (r - x) % 0x1_0000_0000 == 0
    ensures x >= 0 ==> r == x
  {
    if x < 0 then x + 0x1_0000_0000 else x
  }

  /** An entry of media_files.json. */
  datatype MediaFiles = MediaFiles(id: string, filename: string)

  /** A record of metadata.json. The sampler only ever stores whole seconds in `timestamp`. */
  datatype MediaFileMetadata = MediaFileMetadata(timestamp: nat, x: U32, y: U32, width: U32, height: U32)

  // ---------------------------------------------------------------------------
  // The per-second sampler

  /** The first structure of a sample's caps, with its "width" and "height" as i32 when present. */
  datatype Structure = Structure(width: Option<I32>, height: Option<I32>)
  /** Caps; `structure` is `structure(0)`. */
  datatype Caps = Caps(structure: Option<Structure>)
  /** A buffer; `pts` in nanoseconds. */
  datatype Buffer = Buffer(pts: Option<nat>)
  /** A pulled sample: its buffer and caps, either possibly missing. */
  datatype Sample = Sample(buffer: Option<Buffer>, caps: Option<Caps>)

  datatype FlowReturn = FlowOk | FlowError

  /** What the new_sample closure has captured: `last_second`, the shared list, and how its last call returned. */
  datatype Sampler = Sampler(lastSecond: int, records: seq<MediaFileMetadata>, flow: FlowReturn)

  /** Before the first sample: `last_second` is -1, so the first timed sample always records. */
  const SamplerStart: Sampler := Sampler(-1, [], FlowOk)

  /** `floor(pts / 1e9)`: the whole second a timestamp falls in. */
  function WholeSecond(pts: nat): (s: nat)
    ensures s * NanosPerSecond <= pts < (s + 1) * NanosPerSecond
  {
    pts / NanosPerSecond
  }

  /** A caps dimension as stored: the i32 read as u32, 0 when the field is absent. */
  function Dimension(d: Option<I32>): (r: U32)
    ensures d.None? ==> r == 0
    ensures d.Some? && d.value >= 0 ==> r == d.value
  {
    if d.Some? then AsU32(d.value) else 0
  }

  /** The whole second of a pulled sample that has a buffer, caps and a timestamp. */
  function TimedSecond(pulled: Option<Sample>): Option<nat> {
    if pulled.Some? && pulled.value.buffer.Some? && pulled.value.caps.Some? && pulled.value.buffer.value.pts.Some?
    then Some(WholeSecond(pulled.value.buffer.value.pts.value))
    else None
  }

  /**
   * One call of the new_sample closure on a pulled sample (`None` when
   * pull_sample fails): a missing sample, buffer or caps is a flow error; a
   * sample without timestamp is skipped; a sample in a later whole second than
   * any before moves `last_second` there and appends a record, or is a flow
   * error when its caps have no structure.
   */
  function OnNewSample(s: Sampler, pulled: Option<Sample>): (t: Sampler)
    requires s.flow == FlowOk
    ensures pulled.None? || pulled.value.buffer.None? || pulled.value.caps.None? ==> t == s.(flow := FlowError)
    ensures TimedSecond(pulled).None? ==> t.records == s.records && t.lastSecond == s.lastSecond
    ensures (pulled.Some? && pulled.value.buffer.Some? && pulled.value.caps.Some? &&
             pulled.value.buffer.value.pts.None?) ==> t == s
    ensures TimedSecond(pulled).Some? && TimedSecond(pulled).value <= s.lastSecond ==> t == s
    ensures TimedSecond(pulled).Some? && TimedSecond(pulled).value > s.lastSecond ==>
              && t.lastSecond == TimedSecond(pulled).value
              && (t.flow == FlowOk <==> pulled.value.caps.value.structure.Some?)
              && t.records == s.records + (if t.flow == FlowOk then [Record(t.lastSecond, pulled.value.caps.value.structure.value)] else [])
  {
    if pulled.None? || pulled.value.buffer.None? || pulled.value.caps.None? then
      s.(flow := FlowError)
    else if pulled.value.buffer.value.pts.None? then
      s
    else
      var current := WholeSecond(pulled.value.buffer.value.pts.value);
      if current > s.lastSecond then
        var structure := pulled.value.caps.value.structure;
        if structure.None? then s.(lastSecond := current, flow := FlowError)
        else s.(lastSecond := current, records := s.records + [Record(current, structure.value)])
      else
        s
  }

  /** The record for a whole second: placed at the origin, sized from the caps. */
  function Record(second: nat, structure: Structure): (m: MediaFileMetadata)
    ensures m.timestamp == second && m.x == 0 && m.y == 0
    ensures m.width == Dimension(structure.width) && m.height == Dimension(structure.height)
  {
    MediaFileMetadata(second, 0, 0, Dimension(structure.width), Dimension(structure.height))
  }

  /**
   * The captured state after the appsink has offered `samples` in order.
   * Once the closure has returned a flow error, streaming stops and later
   * samples are never delivered.
   */
  function Collect(samples: seq<Option<Sample>>): (c: Sampler)
    ensures |c.records| <= |samples|
    ensures c.lastSecond >= -1
    decreases |samples|
  {
    if samples == [] then SamplerStart
    else
      var before := Collect(samples[..|samples| - 1]);
      if before.flow == FlowError then before else OnNewSample(before, samples[|samples| - 1])
  }

  predicate StrictlyIncreasing(records: seq<MediaFileMetadata>) {
    forall i, j :: 0 <= i < j < |records| ==> records[i].timestamp < records[j].timestamp
  }

  /**
   * What the sampler keeps: timestamps strictly increase (one record per
   * second at most), none is past `last_second`, every record sits at the
   * origin, and while streaming goes on the last record is for `last_second`
   * (or there is none and `last_second` is still -1).
   */
  predicate Coherent(s: Sampler) {
    && StrictlyIncreasing(s.records)
    && s.lastSecond >= -1
    && (forall i :: 0 <= i < |s.records| ==> s.records[i].timestamp <= s.lastSecond)
    && (forall i :: 0 <= i < |s.records| ==> s.records[i].x == 0 && s.records[i].y == 0)
    && (s.flow == FlowOk && s.records == [] ==> s.lastSecond == -1)
    && (s.flow == FlowOk && s.records != [] ==> s.records[|s.records| - 1].timestamp == s.lastSecond)
  }

  lemma {:induction false} CollectCoherent(samples: seq<Option<Sample>>)
    ensures Coherent(Collect(samples))
    decreases |samples|
  {
    if samples != [] {
      var prefix := samples[..|samples| - 1];
      CollectCoherent(prefix);
      if Collect(prefix).flow == FlowOk {
        OnNewSampleCoherent(Collect(prefix), samples[|samples| - 1]);
      }
    }
  }

  /** One call of the closure keeps the sampler coherent. */
  lemma OnNewSampleCoherent(s: Sampler, pulled: Option<Sample>)
    requires s.flow == FlowOk && Coherent(s)
    ensures Coherent(OnNewSample(s, pulled))
  {
  }

  /** Each record is for the whole second of some timed sample that was offered. */
  lemma {:induction false} RecordsComeFromSamples(samples: seq<Option<Sample>>)
    ensures forall j :: 0 <= j < |Collect(samples).records| ==>
              exists k :: 0 <= k < |samples| && TimedSecond(samples[k]) == Some(Collect(samples).records[j].timestamp)
    decreases |samples|
  {
    if samples == [] {
      assert Collect(samples).records == [];
    } else {
      var prefix := samples[..|samples| - 1];
      RecordsComeFromSamples(prefix);
      forall j | 0 <= j < |Collect(samples).records|
        ensures exists k :: 0 <= k < |samples| && TimedSecond(samples[k]) == Some(Collect(samples).records[j].timestamp)
      {
        if j < |Collect(prefix).records| {
          var k :| 0 <= k < |prefix| && TimedSecond(prefix[k]) == Some(Collect(prefix).records[j].timestamp);
          assert samples[k] == prefix[k];
        } else {
          assert TimedSecond(samples[|samples| - 1]) == Some(Collect(samples).records[j].timestamp);
        }
      }
    }
  }

  /** The state after a prefix is the start of the state after the whole: records are only ever appended. */
  lemma {:induction false} CollectGrows(samples: seq<Option<Sample>>, n: nat)
    requires n <= |samples|
    ensures Collect(samples[..n]).records <= Collect(samples).records
    ensures Collect(samples[..n]).lastSecond <= Collect(samples).lastSecond
    decreases |samples|
  {
    if n < |samples| {
      var prefix := samples[..|samples| - 1];
      assert samples[..n] == prefix[..n];
      CollectGrows(prefix, n);
    } else {
      assert samples[..n] == samples;
    }
  }

  /**
   * No second is missed: a timed sample delivered while streaming was still
   * fine falls in a second no later than `last_second` at the end.
   */
  lemma {:induction false} DeliveredSecondsCovered(samples: seq<Option<Sample>>, k: nat)
    requires k < |samples|
    requires Collect(samples[..k]).flow == FlowOk
    requires TimedSecond(samples[k]).Some?
    ensures TimedSecond(samples[k]).value <= Collect(samples).lastSecond
  {
    assert samples[..k + 1][..k] == samples[..k];
    assert Collect(samples[..k + 1]).lastSecond >= TimedSecond(samples[k]).value;
    CollectGrows(samples, k + 1);
  }

  /** While nothing has been recorded, the next well-formed timed sample is recorded. */
  lemma FirstTimedSampleRecords(samples: seq<Option<Sample>>, sample: Sample)
    requires Collect(samples).flow == FlowOk && Collect(samples).records == []
    requires sample.buffer.Some? && sample.buffer.value.pts.Some?
    requires sample.caps.Some? && sample.caps.value.structure.Some?
    ensures Collect(samples + [Some(sample)]).records ==
              [Record(WholeSecond(sample.buffer.value.pts.value), sample.caps.value.structure.value)]
  {
    CollectCoherent(samples);
    assert (samples + [Some(sample)])[..|samples|] == samples;
  }

  /** Once the closure has failed, later samples change nothing. */
  lemma {:induction false} CollectStopsAtError(samples: seq<Option<Sample>>, n: nat)
    requires n <= |samples|
    requires Collect(samples[..n]).flow == FlowError
    ensures Collect(samples) == Collect(samples[..n])
    decreases |samples|
  {
    if n < |samples| {
      var prefix := samples[..|samples| - 1];
      assert samples[..n] == prefix[..n];
      CollectStopsAtError(prefix, n);
    } else {
      assert samples[..n] == samples;
    }
  }

  /**
   * The sampler as it runs: the closure's body inlined in a loop over the
   * samples the appsink offers, with `last_second` and the list as mutable
   * state, stopping at the first flow error.
   */
  method CollectMetadata(samples: seq<Option<Sample>>) returns (records: seq<MediaFileMetadata>, flow: FlowReturn)
    ensures records == Collect(samples).records && flow == Collect(samples).flow
    ensures StrictlyIncreasing(records)
    ensures forall i :: 0 <= i < |records| ==> records[i].x == 0 && records[i].y == 0
  {
    var lastSecond := -1;
    records, flow := [], FlowOk;
    var i := 0;
    while i < |samples| && flow == FlowOk
      invariant 0 <= i <= |samples|
      invariant Sampler(lastSecond, records, flow) == Collect(samples[..i])
    {
      assert samples[..i + 1][..i] == samples[..i];
      var pulled := samples[i];
      if pulled.None? || pulled.value.buffer.None? || pulled.value.caps.None? {
        flow := FlowError;
      } else if pulled.value.buffer.value.pts.Some? {
        var current := pulled.value.buffer.value.pts.value / NanosPerSecond;
        if current > lastSecond {
          lastSecond := current;
          var structure := pulled.value.caps.value.structure;
          if structure.None? {
            flow := FlowError;
          } else {
            var width := if structure.value.width.Some? then AsU32(structure.value.width.value) else 0;
            var height := if structure.value.height.Some? then AsU32(structure.value.height.value) else 0;
            records := records + [MediaFileMetadata(current, 0, 0, width, height)];
          }
        }
      }
      i := i + 1;
    }
    if i < |samples| {
      CollectStopsAtError(samples, i);
    } else {
      assert samples[..i] == samples;
    }
    CollectCoherent(samples);
  }

  // ---------------------------------------------------------------------------
  // The pipeline around the sampler

  /** The bus messages the loop tells apart. */
  datatype BusMessage = Eos | BusError(text: string) | OtherMessage

  /** The text of the Error message that arrives before any EOS, if one does. */
  function BusVerdict(messages: seq<BusMessage>): (v: Option<string>)
    ensures v.Some? <==> exists k :: 0 <= k < |messages| && messages[k].BusError? &&
                                     forall j :: 0 <= j < k ==> !messages[j].Eos? && !messages[j].BusError?
    ensures v.Some? ==> exists k :: 0 <= k < |messages| && messages[k] == BusError(v.value) &&
                                    forall j :: 0 <= j < k ==> !messages[j].Eos? && !messages[j].BusError?
  {
    if messages == [] then None
    else match messages[0]
      case Eos => None
      case BusError(text) => Some(text)
      case OtherMessage =>
        var v := BusVerdict(messages[1..]);
        assert forall k :: 0 < k < |messages| ==> messages[k] == messages[1..][k - 1];
        v
  }

  /**
   * The bus is read without timeout, so the loop only ever leaves on EOS or
   * Error: the message list stands for the bus up to and including the first
   * of them.
   */
  predicate BusEnds(messages: seq<BusMessage>) {
    exists k :: 0 <= k < |messages| && (messages[k].Eos? || messages[k].BusError?)
  }

  /** Why processing failed; the wrapped texts are the library's error texts. */
  datatype ProcessError =
    | CreatePipeline(message: string)
    | CastToPipeline
    | GetAppsink
    | CastToAppsink
    | SetPlaying(message: string)
    | GetBus
    | Bus(message: string)
    | StopPipeline(message: string)

  /**
   * What GStreamer does for one run: whether `parse::launch` fails (and how),
   * whether the casts and the appsink lookup succeed, whether the Playing
   * state change fails, whether there is a bus, the messages on it, and
   * whether the final Null state change fails.
   */
  datatype Pipeline = Pipeline(
    launch: Option<string>,
    isPipeline: bool,
    hasAppsink: bool,
    isAppsink: bool,
    start: Option<string>,
    hasBus: bool,
    messages: seq<BusMessage>,
    stop: Option<string>)

  /** The first step of the run that fails, in the order the run takes them. */
  function FirstFailure(p: Pipeline): (f: Option<ProcessError>)
    ensures f.None? <==> && p.launch.None? && p.isPipeline && p.hasAppsink && p.isAppsink
                         && p.start.None? && p.hasBus && BusVerdict(p.messages).None? && p.stop.None?
    ensures p.launch.Some? ==> f == Some(CreatePipeline(p.launch.value))
    ensures f.Some? && f.value.Bus? ==> p.hasBus && BusVerdict(p.messages) == Some(f.value.message)
  {
    if p.launch.Some? then Some(CreatePipeline(p.launch.value))
    else if !p.isPipeline then Some(CastToPipeline)
    else if !p.hasAppsink then Some(GetAppsink)
    else if !p.isAppsink then Some(CastToAppsink)
    else if p.start.Some? then Some(SetPlaying(p.start.value))
    else if !p.hasBus then Some(GetBus)
    else if BusVerdict(p.messages).Some? then Some(Bus(BusVerdict(p.messages).value))
    else if p.stop.Some? then Some(StopPipeline(p.stop.value))
    else None
  }

  /**
   * `process_video_with_gstreamer`: the records the sampler collected, unless
   * a step fails; in particular an Error on the bus before EOS is an error
   * whatever was collected.
   */
  method ProcessVideo(p: Pipeline, samples: seq<Option<Sample>>) returns (r: Result<seq<MediaFileMetadata>, ProcessError>)
    requires BusEnds(p.messages)
    ensures FirstFailure(p).Some? ==> r == Err(FirstFailure(p).value)
    ensures FirstFailure(p).None? ==> r == Ok(Collect(samples).records)
    ensures p.hasBus && BusVerdict(p.messages).Some? ==> r.Err?
    ensures r.Ok? ==> StrictlyIncreasing(r.value)
  {
    if p.launch.Some? {
      return Err(CreatePipeline(p.launch.value));
    }
    if !p.isPipeline {
      return Err(CastToPipeline);
    }
    if !p.hasAppsink {
      return Err(GetAppsink);
    }
    if !p.isAppsink {
      return Err(CastToAppsink);
    }
    if p.start.Some? {
      return Err(SetPlaying(p.start.value));
    }
    var records, _ := CollectMetadata(samples);
    if !p.hasBus {
      return Err(GetBus);
    }
    var i := 0;
    while i < |p.messages|
      invariant 0 <= i <= |p.messages|
      invariant BusVerdict(p.messages[i..]) == BusVerdict(p.messages)
    {
      assert p.messages[i..][1..] == p.messages[i + 1..];
      match p.messages[i] {
        case Eos =>
          break;
        case BusError(text) =>
          return Err(Bus(text));
        case OtherMessage =>
      }
      i := i + 1;
    }
    if p.stop.Some? {
      return Err(StopPipeline(p.stop.value));
    }
    r := Ok(records);
  }

  // ---------------------------------------------------------------------------
  // Upload: field check, chunks, storage path

  /** One read of a field's next chunk: the bytes, or a failed read. */
  datatype ChunkRead = Chunk(bytes: seq<Byte>) | ChunkFailed

  /** A multipart field: its file name and field name, if given, and its chunk reads. */
  datatype Field = Field(fileName: Option<string>, name: Option<string>, chunks: seq<ChunkRead>)

  /** An error response: status code and message. */
  datatype Rejection = Rejection(status: nat, message: string)

  const MissingName: Rejection := Rejection(BadRequest, "File name or field name is missing")
  const NoFile: Rejection := Rejection(BadRequest, "No file found in the request")
  const StoreFailed: Rejection := Rejection(InternalServerError, "Failed to store video")

  /** The field check: a file name and the field name `media_file` are required; the file name is kept. */
  function CheckField(field: Field): (r: Result<string, Rejection>)
    ensures r.Ok? <==> field.fileName.Some? && field.name == Some(MediaFileField)
    ensures r.Ok? ==> r.value == field.fileName.value
    ensures r.Err? ==> r.error == MissingName
  {
    if field.fileName.None? || field.name.None? then Err(MissingName)
    else if field.name.value != MediaFileField then Err(MissingName)
    else Ok(field.fileName.value)
  }

  /** The bytes of a field: its chunks concatenated, up to the first failed read. */
  function Received(chunks: seq<ChunkRead>): (r: seq<Byte>)
    ensures chunks != [] && chunks[0].Chunk? ==> chunks[0].bytes <= r
    ensures chunks == [] || chunks[0].ChunkFailed? ==> r == []
  {
    if chunks == [] || chunks[0].ChunkFailed? then []
    else chunks[0].bytes + Received(chunks[1..])
  }

  /** With no failed read, every chunk's bytes are received, in order. */
  lemma {:induction false} ReceivedAll(chunks: seq<ChunkRead>, k: nat)
    requires forall j :: 0 <= j < |chunks| ==> chunks[j].Chunk?
    requires k < |chunks|
    ensures chunks[k].bytes <= Received(chunks[k..])
    ensures exists pre :: pre + Received(chunks[k..]) == Received(chunks)
    decreases k
  {
    if k == 0 {
      assert chunks[0..] == chunks;
      assert [] + Received(chunks) == Received(chunks);
    } else {
      ReceivedAll(chunks, k - 1);
      var pre :| pre + Received(chunks[k - 1..]) == Received(chunks);
      assert chunks[k - 1..][1..] == chunks[k..];
      assert (pre + chunks[k - 1].bytes) + Received(chunks[k..]) == Received(chunks);
    }
  }

  /** The bytes of the successful reads among `chunks`, concatenated in order. */
  function Concat(chunks: seq<ChunkRead>): seq<Byte> {
    if chunks == [] then []
    else (if chunks[0].Chunk? then chunks[0].bytes else []) + Concat(chunks[1..])
  }

  /**
   * The received bytes are exactly the concatenation of the reads before the
   * first failed one; every read after a failure is lost. With `k == |chunks|`
   * (no read fails) this is every chunk, in order, and nothing else.
   */
  lemma {:induction false} ReceivedUpToFailure(chunks: seq<ChunkRead>, k: nat)
    requires k <= |chunks|
    requires forall j :: 0 <= j < k ==> chunks[j].Chunk?
    requires k < |chunks| ==> chunks[k].ChunkFailed?
    ensures Received(chunks) == Concat(chunks[..k])
    decreases k
  {
    if k == 0 {
      assert chunks[..0] == [];
    } else {
      assert chunks[..k][1..] == chunks[1..][..k - 1];
      ReceivedUpToFailure(chunks[1..], k - 1);
    }
  }

  /** `Path::join` on Unix: an absolute part replaces the base, otherwise a separator is added when needed. */
  function Join(base: string, part: string): (p: string)
    ensures |part| > 0 && part[0] == '/' ==> p == part
    ensures !(|part| > 0 && part[0] == '/') ==> base <= p && |part| <= |p| && p[|p| - |part|..] == part
  {
    if |part| > 0 && part[0] == '/' then part
    else if base == [] || base[|base| - 1] == '/' then base + part
    else base + "/" + part
  }

  /** Where an upload is stored: `root/media_files/{id}/{filename}`. */
  function StoragePath(root: string, id: string, fileName: string): (p: string)
    ensures |fileName| > 0 && fileName[0] == '/' ==> p == fileName
    ensures !(|fileName| > 0 && fileName[0] == '/') ==> |fileName| <= |p| && p[|p| - |fileName|..] == fileName
  {
    Join(Join(Join(root, MediaPath), id), fileName)
  }

  predicate Relative(part: string) {
    |part| > 0 && part[0] != '/' && part[|part| - 1] != '/'
  }

  /** For a root (absolute or not) without trailing separator and relative names, the path is the documented layout. */
  lemma StoragePathLayout(root: string, id: string, fileName: string)
    requires |root| > 0 && root[|root| - 1] != '/'
    requires Relative(id) && |fileName| > 0 && fileName[0] != '/'
    ensures StoragePath(root, id, fileName) == root + "/" + MediaPath + "/" + id + "/" + fileName
  {
    assert MediaPath[0] != '/' && MediaPath[|MediaPath| - 1] != '/';
    var a := root + "/" + MediaPath;
    assert Join(root, MediaPath) == a;
    assert a[|a| - 1] == MediaPath[|MediaPath| - 1];
    var b := a + "/" + id;
    assert Join(a, id) == b;
    assert b[|b| - 1] == id[|id| - 1];
  }

  /** The file name is the client's: an absolute one replaces the whole storage path. */
  lemma AbsoluteFileNameEscapesRoot(root: string, id: string, fileName: string)
    requires |fileName| > 0 && fileName[0] == '/'
    ensures StoragePath(root, id, fileName) == fileName
  {
  }

  /** What the file system reports: directory creation, file creation, and the byte count or error of the write. */
  datatype Storage = Storage(dirCreated: bool, fileCreated: bool, write: Result<nat, string>)

  /** The outcome of a stored upload: the index entry, the path, and the bytes that reached the file. */
  datatype StoredVideo = StoredVideo(mediaFile: MediaFiles, path: string, contents: seq<Byte>)

  /** The prefix of `data` a single `write` reporting `count` bytes puts in the file. */
  function WrittenPrefix(data: seq<Byte>, count: nat): (w: seq<Byte>)
    ensures w <= data && (count >= |data| ==> w == data)
  {
    if count < |data| then data[..count] else data
  }

  /**
   * `store_video_file`. Only the first field is looked at (every path of the
   * loop body returns): no field is 400 "No file found"; a bad first field is
   * 400; a storage failure is 500; otherwise the upload is stored at
   * StoragePath under the given id. The file receives the bytes read before
   * any failed chunk read, cut to what the single `write` reports.
   */
  method StoreVideoFile(fields: seq<Field>, root: string, id: string, storage: Storage)
    returns (r: Result<StoredVideo, Rejection>)
    ensures fields == [] ==> r == Err(NoFile)
    ensures fields != [] && CheckField(fields[0]).Err? ==> r == Err(MissingName)
    ensures (fields != [] && CheckField(fields[0]).Ok? &&
             (!storage.dirCreated || !storage.fileCreated || storage.write.Err?)) ==> r == Err(StoreFailed)
    ensures r.Ok? <==> fields != [] && CheckField(fields[0]).Ok? &&
                       storage.dirCreated && storage.fileCreated && storage.write.Ok?
    ensures r.Ok? ==>
              && fields != [] && CheckField(fields[0]).Ok? && storage.write.Ok?
              && var name := CheckField(fields[0]).value;
                 r.value == StoredVideo(MediaFiles(id, name), StoragePath(root, id, name),
                                        WrittenPrefix(Received(fields[0].chunks), storage.write.value))
  {
    if fields == [] {
      return Err(NoFile);
    }
    var field := fields[0];
    var data: seq<Byte> := [];
    var fileName := CheckField(field);
    if fileName.Err? {
      return Err(fileName.error);
    }
    var j := 0;
    while j < |field.chunks| && field.chunks[j].Chunk?
      invariant 0 <= j <= |field.chunks|
      invariant data + Received(field.chunks[j..]) == Received(field.chunks)
    {
      assert field.chunks[j..][1..] == field.chunks[j + 1..];
      data := data + field.chunks[j].bytes;
      j := j + 1;
    }
    var mediaFile := MediaFiles(id, fileName.value);
    var path := StoragePath(root, mediaFile.id, mediaFile.filename);
    if !storage.dirCreated || !storage.fileCreated || storage.write.Err? {
      return Err(StoreFailed);
    }
    r := Ok(StoredVideo(mediaFile, path, WrittenPrefix(data, storage.write.value)));
  }

  // ---------------------------------------------------------------------------
  // The media-file index

  /** The state of media_files.json: absent, unreadable, not parseable, or a list of entries. */
  datatype IndexFile = Missing | Unreadable(error: string) | Unparsable(error: string) | Loaded(entries: seq<MediaFiles>)

  /**
   * `store_mediafile_data`: load the index (empty when absent), push the new
   * entry, write it back. The result is the list written.
   */
  method StoreMediaFileData(entry: MediaFiles, index: IndexFile, write: Option<string>)
    returns (r: Result<seq<MediaFiles>, string>)
    ensures index.Unreadable? ==> r == Err("Failed to read media files JSON: " + index.error)
    ensures index.Unparsable? ==> r == Err("Failed to parse media files JSON: " + index.error)
    ensures (index.Missing? || index.Loaded?) && write.Some? ==> r == Err("Failed to write media files JSON: " + write.value)
    ensures r.Ok? ==> write.None? && |r.value| > 0 && r.value[|r.value| - 1] == entry
    ensures r.Ok? && index.Missing? ==> r.value == [entry]
    ensures r.Ok? && index.Loaded? ==> r.value[..|r.value| - 1] == index.entries
    ensures r.Ok? <==> (index.Missing? || index.Loaded?) && write.None?
  {
    var mediaFiles: seq<MediaFiles>;
    match index {
      case Missing => mediaFiles := [];
      case Unreadable(e) => return Err("Failed to read media files JSON: " + e);
      case Unparsable(e) => return Err("Failed to parse media files JSON: " + e);
      case Loaded(entries) => mediaFiles := entries;
    }
    mediaFiles := mediaFiles + [entry];
    if write.Some? {
      return Err("Failed to write media files JSON: " + write.value);
    }
    r := Ok(mediaFiles);
  }
}
