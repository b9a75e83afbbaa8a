/**
 * The slice of GStreamer the players touch, as an abstract oracle.
 * Queries (position, duration, seeking) are answered by parameters of the
 * operations that make them; what the players write to the pipeline
 * (property writes, seeks, state changes) is recorded in a ghost call log.
 */
module Gst {
  import opened Wrappers

  /** `gst::ClockTime::SECOND`, in nanoseconds. */
  const Second: nat := 1_000_000_000

  /** `gst::State`. */
  datatype State = VoidPending | Null | Ready | Paused | Playing

  /** Identity of a pipeline element, compared by `src == &playbin`. */
  type ElementId = nat

  /**
   * The bus messages the players distinguish. A state change whose `src()` is
   * missing carries `src == None`; every other kind of message is `Other`.
   */
  datatype Message =
    | Error(text: string)
    | DurationChanged
    | StateChanged(src: Option<ElementId>, current: State)
    | Other

  /** One call a player makes on its playbin; `P` is the unit of a seek target. */
  datatype PlaybinCall<P> =
    | SetVolumeProperty(volume: real)
    | SeekSimple(target: P)
    | SetState(state: State)

  /** The `playbin` element: its identity, the URI it was built with, and the calls made on it. */
  class Playbin<P> {
    const id: ElementId
    const uri: string
    ghost var calls: seq<PlaybinCall<P>>

    constructor (id: ElementId, uri: string)
      ensures this.id == id && this.uri == uri && calls == []
    {
      this.id := id;
      this.uri := uri;
      calls := [];
    }
  }

  /** The value of the playbin's "volume" property as last written through `calls`, if ever. */
  function LastVolume<P>(calls: seq<PlaybinCall<P>>): (v: Option<real>)
    ensures v.Some? <==> exists k :: 0 <= k < |calls| && calls[k].SetVolumeProperty?
  {
    if calls == [] then None
    else if calls[|calls| - 1].SetVolumeProperty? then Some(calls[|calls| - 1].volume)
    else
      var v := LastVolume(calls[..|calls| - 1]);
      assert forall k :: 0 <= k < |calls| - 1 ==> calls[..|calls| - 1][k] == calls[k];
      v
  }

  /** The last written volume is the volume of one of the logged writes. */
  lemma {:induction false} LastVolumeIsWritten<P>(calls: seq<PlaybinCall<P>>)
    requires LastVolume(calls).Some?
    ensures exists k :: 0 <= k < |calls| && calls[k] == SetVolumeProperty(LastVolume(calls).value)
    decreases |calls|
  {
    if !calls[|calls| - 1].SetVolumeProperty? {
      var prefix := calls[..|calls| - 1];
      LastVolumeIsWritten(prefix);
      var k :| 0 <= k < |prefix| && prefix[k] == SetVolumeProperty(LastVolume(prefix).value);
      assert calls[k] == prefix[k];
    }
  }

  /** Appending a call that is not a volume write leaves the last written volume unchanged. */
  lemma LastVolumeAppend<P>(calls: seq<PlaybinCall<P>>, c: PlaybinCall<P>)
    ensures LastVolume(calls + [c]) == if c.SetVolumeProperty? then Some(c.volume) else LastVolume(calls)
  {
    assert (calls + [c])[..|calls|] == calls;
  }
}
