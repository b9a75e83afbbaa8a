/**
 * MediaPlayer of the single-binary player in src/: the same mirrored state
 * as DesktopMediaPlayer, but positions stay integer nanoseconds (ClockTime),
 * every operation returns a Result, and with seeking disabled the seek
 * operations succeed without doing anything.
 */
module MediaPlayer {
  import opened Wrappers
  import opened Gst
  import PS = PlayerState

  /** The errors of this player; the GLib and state-change errors are carried as text. */
  datatype MediaPlayerErrors =
    | ErrorSeekingForward(message: string)
    | ErrorSeekingBackward(message: string)
    | ErrorSeeking(message: string)
    | ErrorGettingPosition
    | ErrorPlaying(message: string)
    | Errorstopping(message: string)
    | ErrorPausing(message: string)

  /** `10 * ClockTime::SECOND`. */
  const Step: nat := 10 * Second

  /** The move_forward target: ten seconds past the position. */
  function StepForward(position: nat): (t: nat)
    ensures t - position == Step
  {
    position + Step
  }

  /** The move_backward target: ten seconds back, saturating at zero. */
  function StepBackward(position: nat): (t: nat)
    ensures t <= position && position <= t + Step
    ensures t > 0 ==> t + Step == position
  {
    if position > Step then position - Step else 0
  }

  class MediaPlayer {
    const playbin: Playbin<nat>
    var playing: bool
    var seekEnabled: bool
    var duration: Option<nat>
    var userIsSeeking: bool
    var volume: real
    var muted: bool
    var volumeBeforeMute: real

    function Fields(): PS.Fields
      reads this
    {
      PS.Fields(playing, seekEnabled, duration, userIsSeeking, volume, muted, volumeBeforeMute)
    }

    /** The mirror invariant, and the playbin's volume property equals the `volume` field. */
    ghost predicate Valid()
      reads this, playbin
    {
      PS.Valid(Fields()) && LastVolume(playbin.calls) == Some(volume)
    }

    /** `build`: a playbin for `uri` at 50% volume, not yet playing. */
    constructor Build(uri: string, id: ElementId)
      ensures Valid() && Fields() == PS.Initial
      ensures fresh(playbin) && playbin.id == id && playbin.uri == uri
      ensures playbin.calls == [SetVolumeProperty(PS.DefaultVolume)]
    {
      playbin := new Playbin(id, uri);
      new;
      playbin.calls := playbin.calls + [SetVolumeProperty(PS.DefaultVolume)];
      playing, seekEnabled, duration, userIsSeeking := false, false, None, false;
      volume, muted, volumeBeforeMute := PS.DefaultVolume, false, PS.DefaultVolume;
    }

    function UserIsSeeking(): (b: bool)
      reads this
      ensures b == Fields().userIsSeeking
    {
      userIsSeeking
    }

    function Duration(): (d: Option<nat>)
      reads this
      ensures d == Fields().duration
    {
      duration
    }

    function SeekEnabled(): (b: bool)
      reads this
      ensures b == Fields().seekEnabled
    {
      seekEnabled
    }

    function IsPlaying(): (b: bool)
      reads this
      ensures b == Fields().playing
    {
      playing
    }

    function GetVolume(): (v: real)
      reads this, playbin
      ensures v == Fields().volume
      ensures Valid() ==> PS.InUnitRange(v) && LastVolume(playbin.calls) == Some(v)
    {
      volume
    }

    function IsMuted(): (b: bool)
      reads this, playbin
      ensures b == Fields().muted
      ensures Valid() && !b ==> Fields().volumeBeforeMute == Fields().volume
    {
      muted
    }

    /** `get_position`, given the answer of `query_position`: ErrorGettingPosition exactly when it yields nothing. */
    function GetPosition(query: Option<nat>): (r: Result<nat, MediaPlayerErrors>)
      ensures r.Err? <==> query.None?
      ensures r.Err? ==> r.error == ErrorGettingPosition
      ensures r.Ok? ==> Some(r.value) == query
    {
      if query.None? then Err(ErrorGettingPosition) else Ok(query.value)
    }

    /** `set_user_is_seeking`. */
    method SetUserIsSeeking(b: bool)
      requires Valid()
      modifies this
      ensures Valid() && Fields() == PS.SetUserIsSeeking(old(Fields()), b)
    {
      userIsSeeking := b;
    }

    /** `pause_player`. */
    method PausePlayer(outcome: Option<string>) returns (r: Result<Unit, MediaPlayerErrors>)
      requires Valid()
      modifies playbin
      ensures Valid() && Fields() == old(Fields())
      ensures playbin.calls == old(playbin.calls) + [SetState(Paused)]
      ensures r == if outcome.None? then Ok(Unit) else Err(ErrorPausing(outcome.value))
    {
      LastVolumeAppend(playbin.calls, SetState(Paused));
      playbin.calls := playbin.calls + [SetState(Paused)];
      r := if outcome.None? then Ok(Unit) else Err(ErrorPausing(outcome.value));
    }

    /** `play_player`: asks for Playing; `playing` itself changes only on the bus message. */
    method PlayPlayer(outcome: Option<string>) returns (r: Result<Unit, MediaPlayerErrors>)
      requires Valid()
      modifies playbin
      ensures Valid() && Fields() == old(Fields())
      ensures playbin.calls == old(playbin.calls) + [SetState(State.Playing)]
      ensures r == if outcome.None? then Ok(Unit) else Err(ErrorPlaying(outcome.value))
    {
      LastVolumeAppend(playbin.calls, SetState(State.Playing));
      playbin.calls := playbin.calls + [SetState(State.Playing)];
      r := if outcome.None? then Ok(Unit) else Err(ErrorPlaying(outcome.value));
    }

    /** `stop_player`: the playbin goes to Ready. */
    method StopPlayer(outcome: Option<string>) returns (r: Result<Unit, MediaPlayerErrors>)
      requires Valid()
      modifies playbin
      ensures Valid() && Fields() == old(Fields())
      ensures playbin.calls == old(playbin.calls) + [SetState(Ready)]
      ensures r == if outcome.None? then Ok(Unit) else Err(Errorstopping(outcome.value))
    {
      LastVolumeAppend(playbin.calls, SetState(Ready));
      playbin.calls := playbin.calls + [SetState(Ready)];
      r := if outcome.None? then Ok(Unit) else Err(Errorstopping(outcome.value));
    }

    /**
     * `move_forward`. With seeking disabled: Ok, no query, no seek. Otherwise
     * a failed position query is ErrorGettingPosition, else one seek to ten
     * seconds ahead whose failure is ErrorSeekingForward.
     */
    method MoveForward(positionQuery: Option<nat>, outcome: Option<string>) returns (r: Result<Unit, MediaPlayerErrors>)
      requires Valid()
      modifies playbin
      ensures Valid() && Fields() == old(Fields())
      ensures !seekEnabled ==> r == Ok(Unit) && playbin.calls == old(playbin.calls)
      ensures seekEnabled && positionQuery.None? ==>
                r == Err(ErrorGettingPosition) && playbin.calls == old(playbin.calls)
      ensures seekEnabled && positionQuery.Some? ==>
                && playbin.calls == old(playbin.calls) + [SeekSimple(StepForward(positionQuery.value))]
                && r == if outcome.None? then Ok(Unit) else Err(ErrorSeekingForward(outcome.value))
    {
      if !seekEnabled {
        return Ok(Unit);
      }
      var position := GetPosition(positionQuery);
      if position.Err? {
        return Err(position.error);
      }
      var target := StepForward(position.value);
      LastVolumeAppend(playbin.calls, SeekSimple(target));
      playbin.calls := playbin.calls + [SeekSimple(target)];
      r := if outcome.None? then Ok(Unit) else Err(ErrorSeekingForward(outcome.value));
    }

    /** `seek_position`: with seeking disabled Ok and no seek; otherwise one seek, failing as ErrorSeeking. */
    method SeekPosition(position: nat, outcome: Option<string>) returns (r: Result<Unit, MediaPlayerErrors>)
      requires Valid()
      modifies playbin
      ensures Valid() && Fields() == old(Fields())
      ensures !seekEnabled ==> r == Ok(Unit) && playbin.calls == old(playbin.calls)
      ensures seekEnabled ==>
                && playbin.calls == old(playbin.calls) + [SeekSimple(position)]
                && r == if outcome.None? then Ok(Unit) else Err(ErrorSeeking(outcome.value))
    {
      if !seekEnabled {
        return Ok(Unit);
      }
      LastVolumeAppend(playbin.calls, SeekSimple(position));
      playbin.calls := playbin.calls + [SeekSimple(position)];
      r := if outcome.None? then Ok(Unit) else Err(ErrorSeeking(outcome.value));
    }

    /** `move_backward`: as move_forward, to ten seconds back saturating at zero, failing as ErrorSeekingBackward. */
    method MoveBackward(positionQuery: Option<nat>, outcome: Option<string>) returns (r: Result<Unit, MediaPlayerErrors>)
      requires Valid()
      modifies playbin
      ensures Valid() && Fields() == old(Fields())
      ensures !seekEnabled ==> r == Ok(Unit) && playbin.calls == old(playbin.calls)
      ensures seekEnabled && positionQuery.None? ==>
                r == Err(ErrorGettingPosition) && playbin.calls == old(playbin.calls)
      ensures seekEnabled && positionQuery.Some? ==>
                && playbin.calls == old(playbin.calls) + [SeekSimple(StepBackward(positionQuery.value))]
                && r == if outcome.None? then Ok(Unit) else Err(ErrorSeekingBackward(outcome.value))
    {
      if !seekEnabled {
        return Ok(Unit);
      }
      var position := GetPosition(positionQuery);
      if position.Err? {
        return Err(position.error);
      }
      var target := StepBackward(position.value);
      LastVolumeAppend(playbin.calls, SeekSimple(target));
      playbin.calls := playbin.calls + [SeekSimple(target)];
      r := if outcome.None? then Ok(Unit) else Err(ErrorSeekingBackward(outcome.value));
    }

    /** `set_volume`: the clamped volume is written to the playbin and mirrored; always Ok. */
    method SetVolume(v: real) returns (r: Result<Unit, MediaPlayerErrors>)
      requires Valid()
      modifies this, playbin
      ensures Valid() && Fields() == PS.SetVolume(old(Fields()), v)
      ensures playbin.calls == old(playbin.calls) + [SetVolumeProperty(PS.Clamp(v, 0.0, 1.0))]
      ensures r == Ok(Unit)
    {
      var clamped := PS.Clamp(v, 0.0, 1.0);
      LastVolumeAppend(playbin.calls, SetVolumeProperty(clamped));
      playbin.calls := playbin.calls + [SetVolumeProperty(clamped)];
      volume := clamped;
      if !muted {
        volumeBeforeMute := clamped;
      }
      r := Ok(Unit);
    }

    /** `toggle_mute`: writes 0 when muting and the saved volume when unmuting; always Ok. */
    method ToggleMute() returns (r: Result<Unit, MediaPlayerErrors>)
      requires Valid()
      modifies this, playbin
      ensures Valid() && Fields() == PS.ToggleMute(old(Fields()))
      ensures playbin.calls == old(playbin.calls) + [SetVolumeProperty(if old(muted) then old(volumeBeforeMute) else 0.0)]
      ensures r == Ok(Unit)
    {
      if muted {
        LastVolumeAppend(playbin.calls, SetVolumeProperty(volumeBeforeMute));
        playbin.calls := playbin.calls + [SetVolumeProperty(volumeBeforeMute)];
        volume := volumeBeforeMute;
        muted := false;
      } else {
        volumeBeforeMute := volume;
        LastVolumeAppend(playbin.calls, SetVolumeProperty(0.0));
        playbin.calls := playbin.calls + [SetVolumeProperty(0.0)];
        volume := 0.0;
        muted := true;
      }
      r := Ok(Unit);
    }
  }

  /** `handle_message`: the same bus-watch transitions as the desktop player. */
  method HandleMessage(player: MediaPlayer, msg: Message,
                       durationQuery: Option<nat>, seekingQuery: Option<bool>)
    requires player.Valid()
    modifies player
    ensures player.Valid()
    ensures player.Fields() == PS.HandleMessage(old(player.Fields()), player.playbin.id, msg, durationQuery, seekingQuery)
  {
    match msg {
      case DurationChanged =>
        player.duration := None;
      case StateChanged(src, current) =>
        if src == Some(player.playbin.id) {
          player.playing := current == State.Playing;
          if player.playing {
            if player.duration == None {
              player.duration := durationQuery;
            }
            if seekingQuery.Some? {
              player.seekEnabled := seekingQuery.value;
            }
          }
        }
      case _ =>
    }
  }
}
