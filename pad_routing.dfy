/**
 * The dynamic-pad tutorial pipeline: `CapType::from_str` classifies a new
 * pad's caps name by prefix, and the pad-added handler links audio pads to the
 * audioconvert element `convert` and video pads to the videoconvert element
 * `v_convert`, ignoring other pads and sink pads already linked.
 */
module PadRouting {
  import opened Wrappers

  datatype CapType = Audio | Video | Other

  const AudioRaw: string := "audio/x-raw"
  const VideoRaw: string := "video/x-raw"

  /** `CapType::from_str`. The two prefixes differ in their first letter, so the order of the tests is immaterial. */
  function CapTypeFromStr(capName: string): (t: CapType)
    ensures t == Audio <==> AudioRaw <= capName
    ensures t == Video <==> VideoRaw <= capName
  {
    if AudioRaw <= capName then
      assert VideoRaw[0] != capName[0];
      Audio
    else if VideoRaw <= capName then Video
    else Other
  }

  /** Appending to an audio or video caps name keeps its class. */
  lemma ClassKeptUnderSuffix(capName: string, suffix: string)
    requires CapTypeFromStr(capName) != Other
    ensures CapTypeFromStr(capName + suffix) == CapTypeFromStr(capName)
  {
    var prefix := if CapTypeFromStr(capName) == Audio then AudioRaw else VideoRaw;
    assert (capName + suffix)[..|prefix|] == capName[..|prefix|];
  }

  /** Not so for Other: a name can become audio by growing into the prefix. */
  lemma OtherNotKeptUnderSuffix()
    ensures CapTypeFromStr("audio") == Other
    ensures CapTypeFromStr("audio" + "/x-raw") == Audio
  {
    assert "audio"[..1] == "a";
  }

  /** The static "sink" pads of the two converter elements. */
  datatype SinkPad = ConvertSink | VConvertSink

  /** What the handler does with a new pad. */
  datatype PadAction = Link(sink: SinkPad) | IgnoreNotAudioOrVideo | IgnoreAlreadyLinked

  /**
   * The pad-added decision for a pad whose caps are named `capName`, given
   * whether `convert`'s and `v_convert`'s sink pads are already linked.
   */
  function OnPadAdded(capName: string, convertLinked: bool, vConvertLinked: bool): (a: PadAction)
    ensures a == IgnoreNotAudioOrVideo <==> CapTypeFromStr(capName) == Other
    ensures a.Link? ==> (a.sink == ConvertSink <==> CapTypeFromStr(capName) == Audio)
    ensures a.Link? <==>
              (CapTypeFromStr(capName) == Audio && !convertLinked) ||
              (CapTypeFromStr(capName) == Video && !vConvertLinked)
  {
    var sinkPad := match CapTypeFromStr(capName)
      case Audio => Some(ConvertSink)
      case Video => Some(VConvertSink)
      case Other => None;
    if sinkPad.None? then IgnoreNotAudioOrVideo
    else if (if sinkPad.value == ConvertSink then convertLinked else vConvertLinked) then IgnoreAlreadyLinked
    else Link(sinkPad.value)
  }

  /** Which sink pads are linked. */
  datatype Links = Links(convert: bool, vConvert: bool)

  /**
   * A run of pad-added events: each element of `events` is a caps name and
   * whether the link attempt, if one is made, succeeds. The links after the
   * run, and the sink pads a link was attempted on, in order.
   */
  function PadEvents(links: Links, events: seq<(string, bool)>): (r: (Links, seq<SinkPad>))
    ensures |r.1| <= |events|
    ensures forall k :: 0 <= k < |events| && CapTypeFromStr(events[k].0) == Other ==> |r.1| < |events|
    decreases |events|
  {
    if events == [] then (links, [])
    else
      var (capName, succeeds) := events[0];
      var action := OnPadAdded(capName, links.convert, links.vConvert);
      var next := if action.Link? && succeeds then
                    (if action.sink == ConvertSink then links.(convert := true) else links.(vConvert := true))
                  else links;
      var (final, attempts) := PadEvents(next, events[1..]);
      (final, (if action.Link? then [action.sink] else []) + attempts)
  }

  function Count(pads: seq<SinkPad>, pad: SinkPad): nat {
    if pads == [] then 0 else (if pads[0] == pad then 1 else 0) + Count(pads[1..], pad)
  }

  /** Once a sink pad is linked it is never offered another pad. */
  lemma {:induction false} LinkedSinkNotRetried(links: Links, events: seq<(string, bool)>)
    ensures links.convert ==> Count(PadEvents(links, events).1, ConvertSink) == 0
    ensures links.vConvert ==> Count(PadEvents(links, events).1, VConvertSink) == 0
    ensures links.convert ==> PadEvents(links, events).0.convert
    ensures links.vConvert ==> PadEvents(links, events).0.vConvert
    decreases |events|
  {
    if events != [] {
      var (capName, succeeds) := events[0];
      var action := OnPadAdded(capName, links.convert, links.vConvert);
      var next := if action.Link? && succeeds then
                    (if action.sink == ConvertSink then links.(convert := true) else links.(vConvert := true))
                  else links;
      LinkedSinkNotRetried(next, events[1..]);
      var attempts := PadEvents(next, events[1..]).1;
      CountAppend(if action.Link? then [action.sink] else [], attempts, ConvertSink);
      CountAppend(if action.Link? then [action.sink] else [], attempts, VConvertSink);
    }
  }

  lemma {:induction false} CountAppend(a: seq<SinkPad>, b: seq<SinkPad>, pad: SinkPad)
    ensures Count(a + b, pad) == Count(a, pad) + Count(b, pad)
    decreases |a|
  {
    if a == [] {
      assert a + b == b;
    } else {
      assert (a + b)[1..] == a[1..] + b;
      CountAppend(a[1..], b, pad);
    }
  }

  /** With every link succeeding, each converter is linked at most once over any run. */
  lemma {:induction false} AtMostOneSuccessfulLinkPerSink(links: Links, events: seq<(string, bool)>)
    requires forall k :: 0 <= k < |events| ==> events[k].1
    ensures Count(PadEvents(links, events).1, ConvertSink) <= 1
    ensures Count(PadEvents(links, events).1, VConvertSink) <= 1
    ensures !links.convert || Count(PadEvents(links, events).1, ConvertSink) == 0
    ensures !links.vConvert || Count(PadEvents(links, events).1, VConvertSink) == 0
    decreases |events|
  {
    if events != [] {
      var (capName, succeeds) := events[0];
      var action := OnPadAdded(capName, links.convert, links.vConvert);
      var next := if action.Link? && succeeds then
                    (if action.sink == ConvertSink then links.(convert := true) else links.(vConvert := true))
                  else links;
      AtMostOneSuccessfulLinkPerSink(next, events[1..]);
      var attempts := PadEvents(next, events[1..]).1;
      CountAppend(if action.Link? then [action.sink] else [], attempts, ConvertSink);
      CountAppend(if action.Link? then [action.sink] else [], attempts, VConvertSink);
    }
  }
}
