# AugMediaPlayer core, modelled in Dafny

AugMediaPlayer is a GTK4 desktop player driving a GStreamer `playbin`, a REST
backend that stores uploaded videos and samples one frame-metadata record per
second through an `appsink`, and a browser module that rescales those records.
This project models the logic of its own that sits between those frameworks:

- **The mirrored player state** kept by both player structs
  (`DesktopMediaPlayer` in the desktop application, `MediaPlayer` in the
  single-binary player): playing, seek-enabled, duration, user-is-seeking,
  volume, muted and volume-before-mute. Module `PlayerState` defines each field
  transition once (set_volume, toggle_mute, set_user_is_seeking,
  handle_message) with the invariant they keep; the classes
  `DesktopPlayer.DesktopMediaPlayer` and `MediaPlayer.MediaPlayer` have the
  struct's fields and prove each method against those functions. The playbin is
  an abstract oracle (`Gst.Playbin`): position, duration and seeking queries
  and the outcomes of seeks and state changes are method parameters, and every
  volume write, seek and state change is appended to its ghost call log. Each
  player's invariant includes "the playbin's volume property, as last written,
  equals the `volume` field".
- **The two seek policies.** The desktop player works in f64 seconds (here
  `real`), queries the position before anything else, and refuses a seek with
  `ErrorSeekingUnavailable` when seeking is disabled. The single-binary player
  works in integer nanoseconds, checks seek-enabled first, and then returns
  `Ok` without querying or seeking. Both step ten seconds and clamp a backward
  step at zero.
- **The per-second sampler** of the backend (`VideoBackend`): the new_sample
  closure as a function over the captured `last_second` and record list, the
  stream of samples as a loop, and the bus loop that turns an Error before EOS
  into a failure whatever was collected. The whole second is the integer
  quotient of the nanosecond timestamp.
- **The upload path**: the multipart field check, the accumulation of chunks,
  the storage path `root/media_files/{id}/{filename}` built with `Path::join`
  semantics, and the append to `media_files.json`. The uuid, the chunks, and
  what the file system reports are parameters. Three consequences of the code as
  written are stated in the contracts. A failed chunk read ends the upload
  silently: every read after it is lost. A single `write` is issued and its byte count is ignored, so the
  stored file is the prefix that write reports. An absolute client file name
  replaces the whole storage path.
- **`resize_metadata`**, the caps-name classifier and pad-routing decision of
  the dynamic-pad pipeline, and `Args::formatted_uri`.

## Model

| member | source | states |
|---|---|---|
| `DesktopPlayer.DesktopMediaPlayer.Build` | desktop_app/src/desktop_player.rs:38-64 | a fresh player is not playing, cannot seek, has no duration, is unmuted with volume and volume-before-mute 0.5, and 0.5 was written to the playbin |
| `DesktopPlayer.DesktopMediaPlayer.VolumeWasWritten` | desktop_app/src/desktop_player.rs:51 | a valid player's playbin log holds a write of the current volume |
| `Gst.LastVolumeIsWritten` | desktop_app/src/desktop_player.rs:215 | the playbin's last written volume is the volume of one of the logged writes |
| `DesktopPlayer.DesktopMediaPlayer.Play` | desktop_app/src/desktop_player.rs:141-146 | requests Playing from the playbin and maps a failure to ErrorPlaying; the mirrored fields do not change |
| `DesktopPlayer.DesktopMediaPlayer.Pause` | desktop_app/src/desktop_player.rs:134-139 | requests Paused; failure is ErrorPausing; fields unchanged |
| `DesktopPlayer.DesktopMediaPlayer.Stop` | desktop_app/src/desktop_player.rs:148-153 | requests Ready; failure is Errorstopping; fields unchanged |
| `DesktopPlayer.DesktopMediaPlayer.IsPlaying` | desktop_app/src/desktop_player.rs:155-157 | reports the mirrored playing flag |
| `DesktopPlayer.DesktopMediaPlayer.UserIsSeeking` | desktop_app/src/desktop_player.rs:161-163 | reports the user-is-seeking flag |
| `DesktopPlayer.DesktopMediaPlayer.CanSeek` | desktop_app/src/desktop_player.rs:200-202 | reports the mirrored seek-enabled flag |
| `DesktopPlayer.DesktopMediaPlayer.GetVolume` | desktop_app/src/desktop_player.rs:222-224 | reports the volume field, which for a valid player lies in [0, 1] and is the volume last written to the playbin |
| `DesktopPlayer.DesktopMediaPlayer.IsMuted` | desktop_app/src/desktop_player.rs:239-241 | reports the muted flag; when unmuted, the volume to restore is the current one |
| `DesktopPlayer.DesktopMediaPlayer.DurationSeconds` | desktop_app/src/desktop_player.rs:169-171 | the duration in seconds exists exactly when the nanosecond duration does, and scales back to it |
| `DesktopPlayer.DesktopMediaPlayer.SetUserIsSeeking` | desktop_app/src/desktop_player.rs:165-167 | only the user-is-seeking flag changes |
| `DesktopPlayer.DesktopMediaPlayer.Position` | desktop_app/src/desktop_player.rs:204-209 | ErrorGettingPosition exactly when the position query yields nothing; otherwise the queried nanoseconds in seconds |
| `DesktopPlayer.Seconds` | desktop_app/src/desktop_player.rs:207 | a nanosecond clock time as non-negative seconds that scale back to it |
| `DesktopPlayer.DesktopMediaPlayer.SeekTo` | desktop_app/src/desktop_player.rs:178-188 | seeking disabled: ErrorSeekingUnavailable and no seek issued; enabled: exactly one seek to the position, whose failure is ErrorSeeking |
| `DesktopPlayer.SeekResult` | desktop_app/src/desktop_player.rs:182-187 | a seek succeeds exactly when seek_simple does; its error text is carried in ErrorSeeking |
| `DesktopPlayer.DesktopMediaPlayer.SeekForward` | desktop_app/src/desktop_player.rs:173-176 | a failed position query is ErrorGettingPosition with no seek, even when seeking is disabled; otherwise seek_to ten seconds ahead |
| `DesktopPlayer.ForwardTarget` | desktop_app/src/desktop_player.rs:175 | the forward target is ten seconds past the position |
| `DesktopPlayer.DesktopMediaPlayer.SeekBackward` | desktop_app/src/desktop_player.rs:190-198 | as seek_forward, with the backward target |
| `DesktopPlayer.BackwardTarget` | desktop_app/src/desktop_player.rs:192-196 | the backward target is never negative, never more than ten seconds back, never past the position, and exactly ten seconds back whenever it is not zero |
| `DesktopPlayer.DesktopMediaPlayer.SetVolume` | desktop_app/src/desktop_player.rs:213-220 | writes the clamped volume to the playbin; fields become PlayerState.SetVolume of the old ones; invariant kept |
| `DesktopPlayer.DesktopMediaPlayer.ToggleMute` | desktop_app/src/desktop_player.rs:226-237 | writes 0 when muting and the saved volume when unmuting; fields become PlayerState.ToggleMute of the old ones |
| `DesktopPlayer.HandleMessage` | desktop_app/src/desktop_player.rs:88-127 | the bus watch leaves the fields as PlayerState.HandleMessage says and keeps the invariant |
| `PlayerState.InitialValid` | desktop_app/src/desktop_player.rs:53-63 | the initial state satisfies the volume invariant |
| `PlayerState.Clamp` | desktop_app/src/desktop_player.rs:214 | the clamped value lies in the bounds, is the input when the input does, and is the closest point of the range to the input |
| `PlayerState.SetVolume` | desktop_app/src/desktop_player.rs:213-220 | volume becomes the clamped input; muted never changes; volume-before-mute follows the volume only when unmuted; nothing else changes; the invariant is kept |
| `PlayerState.ToggleMute` | desktop_app/src/desktop_player.rs:226-237 | muted flips; muting saves the volume and zeroes it; unmuting restores the saved volume; nothing else changes; the invariant is kept |
| `PlayerState.SetUserIsSeeking` | desktop_app/src/desktop_player.rs:165-167 | sets the flag and nothing else |
| `PlayerState.HandleMessage` | desktop_app/src/desktop_player.rs:99-124 | DurationChanged clears the duration; a StateChanged from the playbin sets playing to "current is Playing"; on reaching Playing an absent duration is filled from the query and a successful seeking query sets seek-enabled to its answer, and only then do these fields change; every other message changes nothing; volume fields untouched; the invariant is kept |
| `PlayerState.StartPlayingLearnsDurationAndSeekability` | desktop_app/src/desktop_player.rs:109-121 | reaching Playing with no known duration records the queried duration and whether the stream is seekable, whichever the answer |
| `PlayerState.ToggleMuteTwice` | desktop_app/src/desktop_player.rs:226-237 | muting then unmuting a valid unmuted state gives back exactly that state |
| `PlayerState.RunPreservesValid` | src/media_player.rs:163-193 | every sequence of volume, mute, seeking-flag and bus-message operations keeps the invariant |
| `PlayerState.ReachableVolumeInRange` | src/media_player.rs:49-59 | from a freshly built player the volume stays within [0, 1] after any sequence of operations |
| `PlayerState.MutedFlipsPerToggle` | src/media_player.rs:179-193 | only toggle_mute changes `muted`, flipping it once per call |
| `PlayerState.MutedKeepsSavedVolume` | src/media_player.rs:167-169 | while muted, no operation other than toggle_mute changes the volume to restore |
| `PlayerState.UnmuteRestoresVolume` | src/media_player.rs:179-193 | mute, then anything but another toggle (volume changes included), then unmute: unmuted at the volume from before muting |
| `PlayerState.SetVolumeWhileMutedIsAudible` | src/media_player.rs:163-171 | from any valid unmuted state, muting and then setting a volume leaves the player reporting itself muted while the clamped volume is current (audible when positive), and unmuting would restore the volume from before muting |
| `MediaPlayer.MediaPlayer.Build` | src/media_player.rs:34-60 | the same initial fields as the desktop player, and 0.5 written to the playbin |
| `MediaPlayer.MediaPlayer.UserIsSeeking` | src/media_player.rs:63-65 | reports the user-is-seeking flag |
| `MediaPlayer.MediaPlayer.Duration` | src/media_player.rs:67-69 | reports the known duration in nanoseconds, if any |
| `MediaPlayer.MediaPlayer.SeekEnabled` | src/media_player.rs:71-73 | reports the seek-enabled flag |
| `MediaPlayer.MediaPlayer.IsPlaying` | src/media_player.rs:87-89 | reports the playing flag |
| `MediaPlayer.MediaPlayer.GetVolume` | src/media_player.rs:174-176 | reports the volume field, which for a valid player lies in [0, 1] and is the volume last written to the playbin |
| `MediaPlayer.MediaPlayer.IsMuted` | src/media_player.rs:196-198 | reports the muted flag; when unmuted, the volume to restore is the current one |
| `MediaPlayer.MediaPlayer.GetPosition` | src/media_player.rs:91-96 | ErrorGettingPosition exactly when the position query yields nothing; otherwise the queried clock time |
| `MediaPlayer.MediaPlayer.SetUserIsSeeking` | src/media_player.rs:99-101 | only the user-is-seeking flag changes |
| `MediaPlayer.MediaPlayer.PausePlayer` | src/media_player.rs:103-108 | requests Paused; failure is ErrorPausing; fields unchanged |
| `MediaPlayer.MediaPlayer.PlayPlayer` | src/media_player.rs:110-115 | requests Playing; failure is ErrorPlaying; fields unchanged |
| `MediaPlayer.MediaPlayer.StopPlayer` | src/media_player.rs:117-122 | requests Ready; failure is Errorstopping; fields unchanged |
| `MediaPlayer.MediaPlayer.MoveForward` | src/media_player.rs:124-135 | seeking disabled: Ok, no query, no seek; else a failed query is ErrorGettingPosition, otherwise one seek ten seconds ahead whose failure is ErrorSeekingForward |
| `MediaPlayer.StepForward` | src/media_player.rs:132 | the forward target is ten seconds of nanoseconds past the position |
| `MediaPlayer.MediaPlayer.SeekPosition` | src/media_player.rs:137-144 | seeking disabled: Ok and no seek; else one seek to the position whose failure is ErrorSeeking |
| `MediaPlayer.MediaPlayer.MoveBackward` | src/media_player.rs:146-160 | as move_forward, with the backward target and ErrorSeekingBackward |
| `MediaPlayer.StepBackward` | src/media_player.rs:151-155 | saturating subtraction: the target is never past the position, at most ten seconds back, and exactly ten seconds back unless it is zero |
| `MediaPlayer.MediaPlayer.SetVolume` | src/media_player.rs:163-171 | as the desktop set_volume, and always Ok |
| `MediaPlayer.MediaPlayer.ToggleMute` | src/media_player.rs:179-193 | as the desktop toggle_mute, and always Ok |
| `MediaPlayer.HandleMessage` | src/media_player.rs:233-272 | the same transitions as the desktop bus watch |
| `VideoBackend.AsU32` | video-backend/src/media.rs:343-344 | `as u32` of an i32 keeps the value modulo 2^32 and keeps non-negative values |
| `VideoBackend.Dimension` | video-backend/src/media.rs:343-344 | a missing caps dimension is 0; a non-negative one is kept |
| `VideoBackend.WholeSecond` | video-backend/src/media.rs:332-336 | the whole second is the floor of the timestamp in seconds |
| `VideoBackend.Record` | video-backend/src/media.rs:342-352 | a record carries the whole second, sits at x = 0, y = 0, and takes width and height from the caps through the i32-to-u32 cast, 0 when absent |
| `VideoBackend.OnNewSample` | video-backend/src/media.rs:321-359 | a missing sample, buffer or caps is a flow error; a sample with buffer and caps but no timestamp is skipped, leaving the sampler exactly as it was; a record is appended exactly when the second is later than last_second and the caps have a structure; a later second without structure moves last_second and is a flow error |
| `VideoBackend.Collect` | video-backend/src/media.rs:313-361 | the sampler's state after the appsink has offered a stream of samples, delivery stopping after a flow error: at most one record per sample, last_second never below -1 |
| `VideoBackend.OnNewSampleCoherent` | video-backend/src/media.rs:321-359 | one call of the closure keeps the sampler coherent |
| `VideoBackend.CollectCoherent` | video-backend/src/media.rs:316-356 | over any sample stream, timestamps strictly increase, none passes last_second, all records sit at the origin, and while streaming the last record is for last_second (none recorded means last_second is still -1) |
| `VideoBackend.RecordsComeFromSamples` | video-backend/src/media.rs:332-352 | every record is for the whole second of some sample offered |
| `VideoBackend.CollectGrows` | video-backend/src/media.rs:354-355 | records are only appended, in arrival order, and last_second never decreases |
| `VideoBackend.DeliveredSecondsCovered` | video-backend/src/media.rs:335-338 | no second is missed: every timed sample delivered ends at or before last_second |
| `VideoBackend.FirstTimedSampleRecords` | video-backend/src/media.rs:316-338 | while nothing is recorded, the next well-formed timed sample is recorded |
| `VideoBackend.CollectStopsAtError` | video-backend/src/media.rs:322-324 | after the closure returns a flow error, later samples change nothing |
| `VideoBackend.CollectMetadata` | video-backend/src/media.rs:316-361 | the loop over the samples yields exactly the sampler's records and flow, with strictly increasing timestamps and boxes at the origin |
| `VideoBackend.BusVerdict` | video-backend/src/media.rs:370-386 | an error is reported exactly when an Error message arrives before any EOS, and its text is that first Error's |
| `VideoBackend.FirstFailure` | video-backend/src/media.rs:295-391 | the run fails at no step exactly when launch, both casts, the appsink lookup, the Playing change, the bus lookup, the bus and the final Null change all succeed; a launch failure comes first; a bus failure carries the first Error's text |
| `VideoBackend.ProcessVideo` | video-backend/src/media.rs:288-396 | for a bus that ends in EOS or Error, the first failing pipeline step decides the error; an Error on the bus before EOS fails the run; otherwise the result is the sampler's records, strictly increasing |
| `VideoBackend.CheckField` | video-backend/src/media.rs:197-223 | a field passes exactly when it has a file name and is named `media_file`; the file name is kept; otherwise 400 "File name or field name is missing" |
| `VideoBackend.Received` | video-backend/src/media.rs:225-227 | the bytes of a field, read chunk by chunk until the first failed read: a successful first read starts them, a failed first read (or none) gives nothing; pinned exactly by ReceivedUpToFailure |
| `VideoBackend.ReceivedAll` | video-backend/src/media.rs:225-227 | with no failed read, every chunk's bytes are received, in order |
| `VideoBackend.ReceivedUpToFailure` | video-backend/src/media.rs:225-227 | the received bytes are exactly the concatenation of the reads before the first failed one, so every read after a failure is lost; with no failure they are all chunks, in order, and nothing else |
| `VideoBackend.Join` | video-backend/src/media.rs:234-237 | `Path::join`: an absolute part replaces the base; otherwise the result starts with the base and ends with the part |
| `VideoBackend.StoragePath` | video-backend/src/media.rs:234-237 | the storage path ends with a relative client file name, and is an absolute one |
| `VideoBackend.StoragePathLayout` | video-backend/src/media.rs:234-237 | for a storage root without trailing separator, absolute or relative, and relative id and file name, the stored path is `root/media_files/{id}/{filename}` |
| `VideoBackend.AbsoluteFileNameEscapesRoot` | video-backend/src/media.rs:234-237 | an absolute client file name becomes the whole storage path |
| `VideoBackend.WrittenPrefix` | video-backend/src/media.rs:266 | what one write puts in the file is a prefix of the data, all of it when the reported count covers it |
| `VideoBackend.StoreVideoFile` | video-backend/src/media.rs:190-286 | no field is 400 "No file found in the request"; only the first field is processed; a bad first field is 400; a storage failure is 500 "Failed to store video"; the upload succeeds exactly when the first field is valid and directory, file and write all succeed; then the entry has the given id and the client file name, the path is the storage layout, and the contents are the bytes read before any failed chunk, cut to what the write reports |
| `VideoBackend.StoreMediaFileData` | video-backend/src/media.rs:411-434 | a missing index gives a one-element list; a loaded one keeps its entries in order and gains the new entry at the end; read, parse and write failures give their error texts; it succeeds exactly when the index loads and the write succeeds |
| `MetadataParser.ScaleCoord` | wasm_app/src/metadata_parser.rs:30-31 | a zero coordinate maps to zero; over a zero-sized canvas the NaN and infinite quotients cast to 0 and u32::MAX |
| `MetadataParser.ScaleCoordTruncates` | wasm_app/src/metadata_parser.rs:30-31 | on a non-empty canvas the result is the exact quotient rounded toward zero, saturated at u32::MAX |
| `MetadataParser.ScaleCoordInside` | wasm_app/src/metadata_parser.rs:30-31 | a coordinate inside its canvas lands inside the new canvas |
| `MetadataParser.ResizeMetadata` | wasm_app/src/metadata_parser.rs:19-38 | same length and order; timestamps kept; every box gets the new width and height and scaled coordinates |
| `MetadataParser.ScaleCoordIdempotent` | wasm_app/src/metadata_parser.rs:30-33 | scaling a coordinate again to the canvas it was scaled to changes nothing |
| `MetadataParser.ResizeIdempotent` | wasm_app/src/metadata_parser.rs:26-35 | resizing twice to the same canvas is resizing once |
| `MetadataParser.ResizeKeepsInside` | wasm_app/src/metadata_parser.rs:30-33 | a box origin inside its canvas stays inside the new canvas |
| `PadRouting.CapTypeFromStr` | src/main.rs:17-25 | Audio exactly for names starting with `audio/x-raw`, Video exactly for names starting with `video/x-raw`, Other for every other name |
| `PadRouting.ClassKeptUnderSuffix` | src/main.rs:17-25 | appending to an audio or video name keeps its class |
| `PadRouting.OtherNotKeptUnderSuffix` | src/main.rs:17-25 | an Other name can become Audio when extended |
| `PadRouting.OnPadAdded` | src/main.rs:93-122 | Other pads are ignored; audio pads go to `convert`'s sink and video pads to `v_convert`'s; a link is attempted exactly when the class is audio or video and that sink is not yet linked |
| `PadRouting.PadEvents` | src/main.rs:76-123 | over a run of pad-added events, at most one link attempt per event, and fewer attempts than events once some pad is neither audio nor video |
| `PadRouting.LinkedSinkNotRetried` | src/main.rs:112-115 | once a converter's sink is linked, no later pad is offered to it, and it stays linked |
| `PadRouting.AtMostOneSuccessfulLinkPerSink` | src/main.rs:112-122 | when every link succeeds, each converter's sink is linked at most once over any run of pad-added events |
| `Config.Args.FormattedUri` | src/config.rs:17-22 | the uri argument is always a suffix of the result; File prepends `file://` with no escaping, so dropping seven characters gives back the uri; Http yields the uri unchanged |
| `Config.FormattedUriInjective` | src/config.rs:17-22 | with the same origin, different uri arguments give different URIs |

## Left out

- GStreamer and GTK themselves: element construction, `parse::launch`, bus iteration, appsink pulls, widgets, signal callbacks and the one-second position timer. Queries and outcomes are parameters; writes go to the ghost call log of `Gst.Playbin`.
- The video-sink and uri property writes made while building a player: the log records only volume writes, seeks and state changes.
- `ClockTime::from_seconds_f64` in the desktop `seek_to` (its rounding to nanoseconds and its range checks): the desktop log records the target in seconds.
- Floating point: volumes and desktop positions are reals, so NaN inputs to `clamp` and f64 rounding are not modelled.
- VideoBackend.WholeSecond: the integer quotient of the nanosecond timestamp; the f64 division loses precision only past 2^53 nanoseconds (about 104 days), which is not modelled.
- MetadataParser.ScaleCoord: integer arithmetic; the rare f64 rounding of products beyond 2^53 and of quotients just below an integer is not modelled. Deserialising the JS value (`from_value`) and serialising the result are not modelled.
- MediaPlayer.StepForward: ClockTime addition panics on u64 overflow; positions are unbounded naturals here.
- VideoBackend.ProcessVideo: the bus is read without timeout (`iter_timed(ClockTime::NONE)`), so the source leaves the loop only on EOS or Error and blocks forever otherwise; the message list stands for the bus up to its first EOS or Error and is required to contain one, so a run that never ends is not modelled.
- PadRouting.OnPadAdded: the pad-added handler is modelled from the caps name onward. Its three `expect` panics are not modelled: a new pad without current caps, caps without a first structure, and a converter without a static `sink` pad. The debug dot-file dump and the printing are left out too.
- The concurrency of the sampler: the appsink callback and the bus loop run on different threads behind `Arc<Mutex<..>>`. The model delivers all samples, then reads the bus. After a flow error no further samples are delivered.
- `Drop`, `get_gtk_widget`, `get_bus`: GStreamer and GTK handles.
- The HTTP handlers (`upload_media_file`, `get_media_files`, `get_media_file_metadata`, `stream_media_file`, `media_routes`), `store_metadata`, JSON (de)serialisation, uuid generation and path canonicalisation: routing and file I/O around the modelled decisions.
- VideoBackend.StoreVideoFile: a failed `next_field` read ends the field loop like the end of the stream, so the model's field list holds only the fields read before it. The panic of `parent().unwrap()` for a storage path without a parent (a file name of `/`) is not modelled.
- The error message of a bus Error (`Error from {:?}: {} ({:?})`) is carried as the message text only.
- The `common_media` traits `MediaPlayerControl`, `PlaybackControl`, `SeekControl` and `VolumeControl` have no logic: their methods are the methods of `DesktopMediaPlayer`. Their error enum is `CommonMedia.MediaPlayerErrors`.
- The video-backend and browser crates, the `src/bin` wiring, the browser player stub and the TypeScript front end are not part of this model beyond the functions above.
