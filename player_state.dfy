/**
 * The mirrored player state shared, field for field, by DesktopMediaPlayer
 * (desktop_app) and MediaPlayer (src): what the UI knows about the playbin.
 * Each transition the two players make on these fields is defined once here;
 * the classes prove their methods against these functions.
 */
module PlayerState {
  import opened Wrappers
  import opened Gst

  /** The fields of the player struct other than its GStreamer and GTK handles. Durations are nanoseconds. */
  datatype Fields = Fields(
    playing: bool,
    seekEnabled: bool,
    duration: Option<nat>,
    userIsSeeking: bool,
    volume: real,
    muted: bool,
    volumeBeforeMute: real)

  /** Volume the players start with (and write to the playbin when built). */
  const DefaultVolume: real := 0.5

  /** The state `build` creates: stopped, not seekable, no duration, unmuted at the default volume. */
  const Initial: Fields := Fields(false, false, None, false, DefaultVolume, false, DefaultVolume)

  predicate InUnitRange(v: real) {
    0.0 <= v <= 1.0
  }

  /**
   * What every operation keeps: both volumes lie in [0, 1], and while unmuted
   * the volume to restore is the current volume.
   */
  predicate Valid(f: Fields) {
    && InUnitRange(f.volume)
    && InUnitRange(f.volumeBeforeMute)
    && (!f.muted ==> f.volumeBeforeMute == f.volume)
  }

  lemma InitialValid()
    ensures Valid(Initial)
  {
  }

  function Distance(a: real, b: real): real {
    if a < b then b - a else a - b
  }

  /** `f64::clamp(v, lo, hi)`: the point of [lo, hi] closest to `v`. */
  function Clamp(v: real, lo: real, hi: real): (r: real)
    requires lo <= hi
    ensures lo <= r <= hi
    ensures lo <= v <= hi ==> r == v
    ensures forall w :: lo <= w <= hi ==> Distance(r, v) <= Distance(w, v)
  {
    if v < lo then lo else if v > hi then hi else v
  }

  /** `set_volume`: store the clamped volume; remember it for unmuting only when not muted. */
  function SetVolume(f: Fields, v: real): (g: Fields)
    ensures g.volume == Clamp(v, 0.0, 1.0)
    ensures g.muted == f.muted
    ensures f.muted ==> g.volumeBeforeMute == f.volumeBeforeMute
    ensures !f.muted ==> g.volumeBeforeMute == g.volume
    ensures g.(volume := f.volume, volumeBeforeMute := f.volumeBeforeMute) == f
    ensures Valid(f) ==> Valid(g)
  {
    var clamped := Clamp(v, 0.0, 1.0);
    f.(volume := clamped, volumeBeforeMute := if f.muted then f.volumeBeforeMute else clamped)
  }

  /** `toggle_mute`: muting saves the volume and silences; unmuting restores the saved volume. */
  function ToggleMute(f: Fields): (g: Fields)
    ensures g.muted == !f.muted
    ensures g.muted ==> g.volume == 0.0 && g.volumeBeforeMute == f.volume
    ensures !g.muted ==> g.volume == f.volumeBeforeMute && g.volumeBeforeMute == f.volumeBeforeMute
    ensures g.(volume := f.volume, muted := f.muted, volumeBeforeMute := f.volumeBeforeMute) == f
    ensures Valid(f) ==> Valid(g)
  {
    if f.muted then
      f.(volume := f.volumeBeforeMute, muted := false)
    else
      f.(volumeBeforeMute := f.volume, volume := 0.0, muted := true)
  }

  /** `set_user_is_seeking`. */
  function SetUserIsSeeking(f: Fields, b: bool): (g: Fields)
    ensures g.userIsSeeking == b && g.(userIsSeeking := f.userIsSeeking) == f
  {
    f.(userIsSeeking := b)
  }

  /**
   * `handle_message`. `durationQuery` is what `query_duration` answers and
   * `seekingQuery` what the seeking query answers (`None` when `query` fails);
   * both are consulted only when the playbin has just reached Playing.
   */
  function HandleMessage(f: Fields, playbin: ElementId, msg: Message,
                         durationQuery: Option<nat>, seekingQuery: Option<bool>): (g: Fields)
    ensures msg.DurationChanged? ==> g == f.(duration := None)
    ensures msg.StateChanged? && msg.src == Some(playbin) ==> g.playing == (msg.current == Playing)
    ensures !msg.DurationChanged? && !(msg.StateChanged? && msg.src == Some(playbin)) ==> g == f
    ensures g.duration != f.duration ==>
              (msg.DurationChanged? && g.duration == None) ||
              (g.playing && f.duration == None && g.duration == durationQuery)
    ensures g.seekEnabled != f.seekEnabled ==> g.playing && seekingQuery == Some(g.seekEnabled)
    ensures msg.StateChanged? && msg.src == Some(playbin) && msg.current == Playing ==>
              && g.duration == (if f.duration == None then durationQuery else f.duration)
              && (seekingQuery.Some? ==> g.seekEnabled == seekingQuery.value)
    ensures g.(playing := f.playing, seekEnabled := f.seekEnabled, duration := f.duration) == f
    ensures Valid(f) ==> Valid(g)
  {
    match msg
    case DurationChanged => f.(duration := None)
    case StateChanged(src, current) =>
      if src == Some(playbin) then
        var playing := current == Playing;
        if playing then
          var duration := if f.duration == None then durationQuery else f.duration;
          var seekEnabled := if seekingQuery.Some? then seekingQuery.value else f.seekEnabled;
          f.(playing := true, duration := duration, seekEnabled := seekEnabled)
        else
          f.(playing := false)
      else f
    case _ => f
  }

  /**
   * Reaching Playing records the queried duration when none was known, and
   * whether the stream is seekable, whatever the answer.
   */
  lemma StartPlayingLearnsDurationAndSeekability(f: Fields, playbin: ElementId, d: nat, seekable: bool)
    requires f.duration == None
    ensures var g := HandleMessage(f, playbin, StateChanged(Some(playbin), Playing), Some(d), Some(seekable));
            g.playing && g.seekEnabled == seekable && g.duration == Some(d)
  {
  }

  /** Mute then unmute, from any valid unmuted state, gives back exactly that state. */
  lemma ToggleMuteTwice(f: Fields)
    requires Valid(f) && !f.muted
    ensures ToggleMute(ToggleMute(f)) == f
  {
  }

  /** The operations of the player's UI-facing surface that touch the mirrored fields. */
  datatype Op =
    | SetVolumeOp(v: real)
    | ToggleMuteOp
    | SetUserIsSeekingOp(b: bool)
    | MessageOp(msg: Message, durationQuery: Option<nat>, seekingQuery: Option<bool>)

  function Apply(f: Fields, playbin: ElementId, op: Op): Fields {
    match op
    case SetVolumeOp(v) => SetVolume(f, v)
    case ToggleMuteOp => ToggleMute(f)
    case SetUserIsSeekingOp(b) => SetUserIsSeeking(f, b)
    case MessageOp(msg, dq, sq) => HandleMessage(f, playbin, msg, dq, sq)
  }

  /** The state after applying `ops` in order. */
  function Run(f: Fields, playbin: ElementId, ops: seq<Op>): Fields
    decreases |ops|
  {
    if ops == [] then f else Run(Apply(f, playbin, ops[0]), playbin, ops[1..])
  }

  /** Every sequence of operations keeps the volume invariant. */
  lemma {:induction false} RunPreservesValid(f: Fields, playbin: ElementId, ops: seq<Op>)
    requires Valid(f)
    ensures Valid(Run(f, playbin, ops))
    decreases |ops|
  {
    if ops != [] {
      RunPreservesValid(Apply(f, playbin, ops[0]), playbin, ops[1..]);
    }
  }

  /** So from a freshly built player the volume never leaves [0, 1]. */
  lemma {:induction false} ReachableVolumeInRange(playbin: ElementId, ops: seq<Op>)
    ensures InUnitRange(Run(Initial, playbin, ops).volume)
  {
    RunPreservesValid(Initial, playbin, ops);
  }

  function CountToggles(ops: seq<Op>): nat {
    if ops == [] then 0 else (if ops[0].ToggleMuteOp? then 1 else 0) + CountToggles(ops[1..])
  }

  /** Only toggle_mute changes `muted`: it flips once per toggle. */
  lemma {:induction false} MutedFlipsPerToggle(f: Fields, playbin: ElementId, ops: seq<Op>)
    ensures Run(f, playbin, ops).muted == (f.muted != (CountToggles(ops) % 2 == 1))
    decreases |ops|
  {
    if ops != [] {
      MutedFlipsPerToggle(Apply(f, playbin, ops[0]), playbin, ops[1..]);
    }
  }

  lemma {:induction false} RunAppend(f: Fields, playbin: ElementId, ops: seq<Op>, more: seq<Op>)
    ensures Run(f, playbin, ops + more) == Run(Run(f, playbin, ops), playbin, more)
    decreases |ops|
  {
    if ops == [] {
      assert ops + more == more;
    } else {
      assert (ops + more)[0] == ops[0];
      assert (ops + more)[1..] == ops[1..] + more;
      RunAppend(Apply(f, playbin, ops[0]), playbin, ops[1..], more);
    }
  }

  /** Without toggles a muted player stays muted and keeps the volume it will restore. */
  lemma {:induction false} MutedKeepsSavedVolume(f: Fields, playbin: ElementId, ops: seq<Op>)
    requires f.muted
    requires forall k :: 0 <= k < |ops| ==> !ops[k].ToggleMuteOp?
    ensures Run(f, playbin, ops).muted
    ensures Run(f, playbin, ops).volumeBeforeMute == f.volumeBeforeMute
    decreases |ops|
  {
    if ops != [] {
      MutedKeepsSavedVolume(Apply(f, playbin, ops[0]), playbin, ops[1..]);
    }
  }

  /**
   * Mute, then anything but another toggle (volume changes included), then
   * unmute: the player is unmuted at the volume it had before muting.
   */
  lemma {:induction false} UnmuteRestoresVolume(f: Fields, playbin: ElementId, ops: seq<Op>)
    requires Valid(f) && !f.muted
    requires forall k :: 0 <= k < |ops| ==> !ops[k].ToggleMuteOp?
    ensures var g := Run(f, playbin, [ToggleMuteOp] + ops + [ToggleMuteOp]);
            !g.muted && g.volume == f.volume
  {
    var muted := ToggleMute(f);
    RunAppend(f, playbin, [ToggleMuteOp] + ops, [ToggleMuteOp]);
    RunAppend(f, playbin, [ToggleMuteOp], ops);
    assert Run(f, playbin, [ToggleMuteOp]) == muted;
    MutedKeepsSavedVolume(muted, playbin, ops);
  }

  /**
   * A volume change while muted is written to the playbin and becomes the
   * current volume, although the player still reports itself muted; the
   * volume to restore on unmute is the one from before muting.
   */
  lemma SetVolumeWhileMutedIsAudible(f: Fields, playbin: ElementId, v: real)
    requires Valid(f) && !f.muted
    ensures var g := Run(f, playbin, [ToggleMuteOp, SetVolumeOp(v)]);
            && g.muted && g.volume == Clamp(v, 0.0, 1.0) && g.volumeBeforeMute == f.volume
            && (0.0 < v ==> g.volume > 0.0)
  {
    var muted := ToggleMute(f);
    assert Run(f, playbin, [ToggleMuteOp, SetVolumeOp(v)]) == Run(muted, playbin, [SetVolumeOp(v)]);
    assert Run(muted, playbin, [SetVolumeOp(v)]) == Run(SetVolume(muted, v), playbin, []);
  }
}
