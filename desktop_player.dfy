/**
 * DesktopMediaPlayer of the desktop application: the playbin plus the
 * mirrored UI state, with the PlaybackControl, SeekControl and VolumeControl
 * operations. Positions are f64 seconds (here `real`); the playbin is the
 * abstract oracle of module Gst, so query answers are parameters and every
 * seek, state change and volume write is appended to `playbin.calls`.
 */
module DesktopPlayer {
  import opened Wrappers
  import opened Gst
  import opened CommonMedia
  import PS = PlayerState

  /** The step of seek_forward and seek_backward, in seconds. */
  const StepSeconds: real := 10.0

  /** A clock time in nanoseconds as f64 seconds (`seconds_f64`). */
  function Seconds(nanos: nat): (s: real)
    ensures s >= 0.0 && s * Second as real == nanos as real
  {
    nanos as real / Second as real
  }

  /** The seek_forward target: ten seconds past the position. */
  function ForwardTarget(position: real): (t: real)
    ensures t - position == StepSeconds
  {
    position + StepSeconds
  }

  /** The seek_backward target: ten seconds back, but never before the start. */
  function BackwardTarget(position: real): (t: real)
    ensures t >= 0.0
    ensures t >= position - StepSeconds
    ensures position >= 0.0 ==> t <= position
    ensures t > 0.0 ==> t == position - StepSeconds
  {
    if position > StepSeconds then position - StepSeconds else 0.0
  }

  /** The result of `seek_simple`, given its outcome (`None` on success). */
  function SeekResult(outcome: Option<string>): (r: Result<Unit, MediaPlayerErrors>)
    ensures r.Ok? <==> outcome.None?
    ensures outcome.Some? ==> r == Err(ErrorSeeking(outcome.value))
  {
    if outcome.None? then Ok(Unit) else Err(ErrorSeeking(outcome.value))
  }

  class DesktopMediaPlayer {
    const playbin: Playbin<real>
    var playing: bool
    var seekEnabled: bool
    /** In nanoseconds, as the `ClockTime` the struct keeps. */
    var duration: Option<nat>
    var userIsSeeking: bool
    var volume: real
    var muted: bool
    var volumeBeforeMute: real

    function Fields(): PS.Fields
      reads this
    {
      PS.Fields(playing, seekEnabled, duration, userIsSeeking, volume, muted, volumeBeforeMute)
    }

    /** The mirror invariant, and the playbin's volume property equals the `volume` field. */
    ghost predicate Valid()
      reads this, playbin
    {
      PS.Valid(Fields()) && LastVolume(playbin.calls) == Some(volume)
    }

    /** A valid player has had its playbin's volume set at least once. */
    lemma VolumeWasWritten()
      requires Valid()
      ensures exists k :: 0 <= k < |playbin.calls| && playbin.calls[k] == SetVolumeProperty(volume)
    {
      LastVolumeIsWritten(playbin.calls);
    }

    /** `build`: a playbin for `uri` at 50% volume, not yet playing. */
    constructor Build(uri: string, id: ElementId)
      ensures Valid() && Fields() == PS.Initial
      ensures fresh(playbin) && playbin.id == id && playbin.uri == uri
      ensures playbin.calls == [SetVolumeProperty(PS.DefaultVolume)]
    {
      playbin := new Playbin(id, uri);
      new;
      playbin.calls := playbin.calls + [SetVolumeProperty(PS.DefaultVolume)];
      playing, seekEnabled, duration, userIsSeeking := false, false, None, false;
      volume, muted, volumeBeforeMute := PS.DefaultVolume, false, PS.DefaultVolume;
    }

    /** `play`: ask the playbin for Playing; `playing` itself changes only on the bus message. */
    method Play(outcome: Option<string>) returns (r: Result<Unit, MediaPlayerErrors>)
      requires Valid()
      modifies playbin
      ensures Valid() && Fields() == old(Fields())
      ensures playbin.calls == old(playbin.calls) + [SetState(Playing)]
      ensures r == if outcome.None? then Ok(Unit) else Err(ErrorPlaying(outcome.value))
    {
      LastVolumeAppend(playbin.calls, SetState(Playing));
      playbin.calls := playbin.calls + [SetState(Playing)];
      r := if outcome.None? then Ok(Unit) else Err(ErrorPlaying(outcome.value));
    }

    /** `pause`. */
    method Pause(outcome: Option<string>) returns (r: Result<Unit, MediaPlayerErrors>)
      requires Valid()
      modifies playbin
      ensures Valid() && Fields() == old(Fields())
      ensures playbin.calls == old(playbin.calls) + [SetState(Paused)]
      ensures r == if outcome.None? then Ok(Unit) else Err(ErrorPausing(outcome.value))
    {
      LastVolumeAppend(playbin.calls, SetState(Paused));
      playbin.calls := playbin.calls + [SetState(Paused)];
      r := if outcome.None? then Ok(Unit) else Err(ErrorPausing(outcome.value));
    }

    /** `stop`: the playbin goes to Ready. */
    method Stop(outcome: Option<string>) returns (r: Result<Unit, MediaPlayerErrors>)
      requires Valid()
      modifies playbin
      ensures Valid() && Fields() == old(Fields())
      ensures playbin.calls == old(playbin.calls) + [SetState(Ready)]
      ensures r == if outcome.None? then Ok(Unit) else Err(Errorstopping(outcome.value))
    {
      LastVolumeAppend(playbin.calls, SetState(Ready));
      playbin.calls := playbin.calls + [SetState(Ready)];
      r := if outcome.None? then Ok(Unit) else Err(Errorstopping(outcome.value));
    }
    function IsPlaying(): (b: bool)
      reads this
      ensures b == Fields().playing
    {
      playing
    }

    /** `can_seek`. */
    function CanSeek(): (b: bool)
      reads this
      ensures b == Fields().seekEnabled
    {
      seekEnabled
    }

    /** `duration`: the known duration in seconds. */
    function DurationSeconds(): (d: Option<real>)
      reads this
      ensures d.Some? <==> duration.Some?
      ensures d.Some? ==> d.value * Second as real == duration.value as real
    {
      if duration.Some? then Some(Seconds(duration.value)) else None
    }

    function GetVolume(): (v: real)
      reads this, playbin
      ensures v == Fields().volume
      ensures Valid() ==> PS.InUnitRange(v) && LastVolume(playbin.calls) == Some(v)
    {
      volume
    }

    function IsMuted(): (b: bool)
      reads this, playbin
      ensures b == Fields().muted
      ensures Valid() && !b ==> Fields().volumeBeforeMute == Fields().volume
    {
      muted
    }

    function UserIsSeeking(): (b: bool)
      reads this
      ensures b == Fields().userIsSeeking
    {
      userIsSeeking
    }

    /** `set_user_is_seeking`: only the flag the position timer consults changes. */
    method SetUserIsSeeking(b: bool)
      requires Valid()
      modifies this
      ensures Valid() && Fields() == PS.SetUserIsSeeking(old(Fields()), b)
    {
      userIsSeeking := b;
    }

    /**
     * `position`, given the answer of `query_position` in nanoseconds:
     * ErrorGettingPosition exactly when the query yields nothing.
     */
    function Position(query: Option<nat>): (r: Result<real, MediaPlayerErrors>)
      ensures r.Err? <==> query.None?
      ensures r.Err? ==> r.error == ErrorGettingPosition
      ensures r.Ok? ==> r.value >= 0.0 && r.value * Second as real == query.value as real
    {
      if query.None? then Err(ErrorGettingPosition) else Ok(Seconds(query.value))
    }

    /**
     * What a seek to `target` leaves behind: with seeking enabled one
     * `seek_simple` is issued and its outcome is the result; otherwise nothing
     * is issued and the result is ErrorSeekingUnavailable.
     */
    ghost predicate SeeksTo(target: real, outcome: Option<string>, before: seq<PlaybinCall<real>>,
                            r: Result<Unit, MediaPlayerErrors>)
      reads this, playbin
    {
      if seekEnabled then playbin.calls == before + [SeekSimple(target)] && r == SeekResult(outcome)
      else playbin.calls == before && r == Err(ErrorSeekingUnavailable)
    }

    /** `seek_to`. `outcome` is the error `seek_simple` reports, if any. */
    method SeekTo(position: real, outcome: Option<string>) returns (r: Result<Unit, MediaPlayerErrors>)
      requires Valid()
      modifies playbin
      ensures Valid() && Fields() == old(Fields())
      ensures SeeksTo(position, outcome, old(playbin.calls), r)
    {
      if !seekEnabled {
        return Err(ErrorSeekingUnavailable);
      }
      LastVolumeAppend(playbin.calls, SeekSimple(position));
      playbin.calls := playbin.calls + [SeekSimple(position)];
      r := SeekResult(outcome);
    }

    /** `seek_forward`: the position is queried first, so a failed query wins over disabled seeking. */
    method SeekForward(positionQuery: Option<nat>, outcome: Option<string>) returns (r: Result<Unit, MediaPlayerErrors>)
      requires Valid()
      modifies playbin
      ensures Valid() && Fields() == old(Fields())
      ensures positionQuery.None? ==> r == Err(ErrorGettingPosition) && playbin.calls == old(playbin.calls)
      ensures positionQuery.Some? ==>
                SeeksTo(ForwardTarget(Seconds(positionQuery.value)), outcome, old(playbin.calls), r)
    {
      var position := Position(positionQuery);
      if position.Err? {
        return Err(position.error);
      }
      r := SeekTo(ForwardTarget(position.value), outcome);
    }

    /** `seek_backward`: like seek_forward, to ten seconds back clamped at zero. */
    method SeekBackward(positionQuery: Option<nat>, outcome: Option<string>) returns (r: Result<Unit, MediaPlayerErrors>)
      requires Valid()
      modifies playbin
      ensures Valid() && Fields() == old(Fields())
      ensures positionQuery.None? ==> r == Err(ErrorGettingPosition) && playbin.calls == old(playbin.calls)
      ensures positionQuery.Some? ==>
                SeeksTo(BackwardTarget(Seconds(positionQuery.value)), outcome, old(playbin.calls), r)
    {
      var position := Position(positionQuery);
      if position.Err? {
        return Err(position.error);
      }
      r := SeekTo(BackwardTarget(position.value), outcome);
    }

    /** `set_volume`: the clamped volume is written to the playbin and mirrored. */
    method SetVolume(v: real)
      requires Valid()
      modifies this, playbin
      ensures Valid() && Fields() == PS.SetVolume(old(Fields()), v)
      ensures playbin.calls == old(playbin.calls) + [SetVolumeProperty(PS.Clamp(v, 0.0, 1.0))]
    {
      var clamped := PS.Clamp(v, 0.0, 1.0);
      LastVolumeAppend(playbin.calls, SetVolumeProperty(clamped));
      playbin.calls := playbin.calls + [SetVolumeProperty(clamped)];
      volume := clamped;
      if !muted {
        volumeBeforeMute := clamped;
      }
    }

    /** `toggle_mute`: writes 0 when muting and the saved volume when unmuting. */
    method ToggleMute()
      requires Valid()
      modifies this, playbin
      ensures Valid() && Fields() == PS.ToggleMute(old(Fields()))
      ensures playbin.calls == old(playbin.calls) + [SetVolumeProperty(if old(muted) then old(volumeBeforeMute) else 0.0)]
    {
      if muted {
        LastVolumeAppend(playbin.calls, SetVolumeProperty(volumeBeforeMute));
        playbin.calls := playbin.calls + [SetVolumeProperty(volumeBeforeMute)];
        volume := volumeBeforeMute;
        muted := false;
      } else {
        volumeBeforeMute := volume;
        LastVolumeAppend(playbin.calls, SetVolumeProperty(0.0));
        playbin.calls := playbin.calls + [SetVolumeProperty(0.0)];
        volume := 0.0;
        muted := true;
      }
    }
  }

  /**
   * `handle_message`: the bus watch. `durationQuery` and `seekingQuery` answer
   * `query_duration` and the seeking query. Error messages are only printed.
   */
  method HandleMessage(player: DesktopMediaPlayer, msg: Message,
                       durationQuery: Option<nat>, seekingQuery: Option<bool>)
    requires player.Valid()
    modifies player
    ensures player.Valid()
    ensures player.Fields() == PS.HandleMessage(old(player.Fields()), player.playbin.id, msg, durationQuery, seekingQuery)
  {
    match msg {
      case DurationChanged =>
        player.duration := None;
      case StateChanged(src, current) =>
        if src == Some(player.playbin.id) {
          player.playing := current == Playing;
          if player.playing {
            if player.duration == None {
              player.duration := durationQuery;
            }
            if seekingQuery.Some? {
              player.seekEnabled := seekingQuery.value;
            }
          }
        }
      case _ =>
    }
  }
}
