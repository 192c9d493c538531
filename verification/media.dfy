/** What the media backend reports about a container, as plain values, and the
    rules the player applies to those reports: Python's `int()` on a float, and
    the audio-track list with its "Track k" labels. A metadata field the backend
    leaves as `None` or zero (both falsy in Python) is modelled as 0 or "". */
module Media {
  import Text
  import opened Wrappers

  datatype StreamKind = VideoKind | AudioKind | OtherKind

  /** One stream of a container. `codec` is "" when the stream has no codec
      context; `language` is "" when the stream carries no language tag. */
  datatype Stream = Stream(
    kind: StreamKind,
    index: int,
    channels: nat,
    sampleRate: nat,
    codec: string,
    language: string,
    averageRate: real,
    timeBase: real,
    width: nat,
    height: nat)

  /** A decoded video frame; the pixels are not modelled, only the timestamp in
      seconds and the frame's running number. */
  datatype VideoFrame = VideoFrame(pts: real, frameNumber: int)

  /** The dictionary the source builds for each audio track. */
  datatype TrackInfo = TrackInfo(
    index: int,
    channels: nat,
    sampleRate: nat,
    codec: string,
    language: string)

  /** Python's `int(x)` on a float: truncation toward zero. */
  function Trunc(x: real): (n: int)
    ensures 0.0 <= x ==> 0 <= n && n as real <= x < n as real + 1.0
    ensures x < 0.0 ==> n <= 0 && n as real - 1.0 < x <= n as real
  {
    if x >= 0.0 then x.Floor else -((-x).Floor)
  }

  /** 1 for an audio stream, 0 otherwise. */
  function AudioBit(s: Stream): nat {
    if s.kind == AudioKind then 1 else 0
  }

  /** The number of audio streams. */
  function CountAudio(streams: seq<Stream>): (n: nat)
    ensures n <= |streams|
  {
    if |streams| == 0 then 0 else AudioBit(streams[0]) + CountAudio(streams[1..])
  }

  /** The audio streams of a container, in container order: every stream kept is
      an audio stream, and there are as many as the container has. Their order is
      `AudioStreamsInOrder`. */
  function AudioStreams(streams: seq<Stream>): (r: seq<Stream>)
    ensures forall i :: 0 <= i < |r| ==> r[i].kind == AudioKind
    ensures |r| == CountAudio(streams)
  {
    if |streams| == 0 then []
    else
      if streams[0].kind == AudioKind then [streams[0]] + AudioStreams(streams[1..])
      else AudioStreams(streams[1..])
  }

  /** The audio stream at position `i` of the container is entry number
      `CountAudio(streams[..i])` of the list, the number of audio streams before
      it: every audio stream is kept, and in container order. */
  lemma {:induction false} AudioStreamsInOrder(streams: seq<Stream>, i: nat)
    requires i < |streams| && streams[i].kind == AudioKind
    ensures CountAudio(streams[..i]) < |AudioStreams(streams)|
    ensures AudioStreams(streams)[CountAudio(streams[..i])] == streams[i]
    decreases i
  {
    if i == 0 {
      assert streams[..0] == [];
    } else {
      var rest := streams[1..];
      AudioStreamsInOrder(rest, i - 1);
      assert streams[..i] == [streams[0]] + rest[..i - 1];
      assert streams[..i][1..] == rest[..i - 1];
    }
  }

  /** One step of the filter: the head is kept exactly when it is audio. */
  lemma AudioStreamsCons(streams: seq<Stream>)
    requires |streams| > 0
    ensures streams[0].kind == AudioKind ==> AudioStreams(streams) == [streams[0]] + AudioStreams(streams[1..])
    ensures streams[0].kind != AudioKind ==> AudioStreams(streams) == AudioStreams(streams[1..])
  {
  }

  /** The label "Track k" given to an audio track without a language tag. */
  function TrackLabel(k: nat): string {
    "Track " + Text.Digits(k)
  }

  /** The entry for an audio stream that is the `position`-th audio track (1-based). */
  function InfoFor(s: Stream, position: nat): TrackInfo {
    TrackInfo(
      s.index, s.channels, s.sampleRate,
      if s.codec == "" then "unknown" else s.codec,
      if s.language == "" then TrackLabel(position) else s.language)
  }

  /** The entries for a list of audio streams, the j-th labelled as audio track
      `listed + j + 1`. */
  function Labelled(audio: seq<Stream>, listed: nat): (r: seq<TrackInfo>)
    ensures |r| == |audio|
  {
    seq(|audio|, j requires 0 <= j < |audio| => InfoFor(audio[j], listed + j + 1))
  }

  /** Putting one more audio track in front shifts every entry's 1-based
      position by one. */
  lemma LabelledCons(head: Stream, audio: seq<Stream>, listed: nat)
    ensures Labelled([head] + audio, listed) == [InfoFor(head, listed + 1)] + Labelled(audio, listed + 1)
  {
    var lhs, rhs := Labelled([head] + audio, listed), [InfoFor(head, listed + 1)] + Labelled(audio, listed + 1);
    forall j | 0 < j < |lhs|
      ensures lhs[j] == rhs[j]
    {
      assert ([head] + audio)[j] == audio[j - 1];
    }
  }

  /** The track list built by the enumeration loops, where `listed` counts the
      audio tracks already appended: the j-th entry is made from the j-th audio
      stream, in order, and an untagged one is labelled with its 1-based position
      among audio tracks. */
  function AudioTrackInfosFrom(streams: seq<Stream>, listed: nat): (r: seq<TrackInfo>)
    ensures r == Labelled(AudioStreams(streams), listed)
    decreases |streams|
  {
    if |streams| == 0 then []
    else
      var rest := AudioTrackInfosFrom(streams[1..], listed + AudioBit(streams[0]));
      AudioStreamsCons(streams);
      if streams[0].kind == AudioKind then
        LabelledCons(streams[0], AudioStreams(streams[1..]), listed);
        [InfoFor(streams[0], listed + 1)] + rest
      else rest
  }

  /** The list returned by `discover_tracks` and `get_audio_tracks`; a container
      that could not be opened (or is not open) yields the empty list. */
  function AudioTrackInfos(container: Option<seq<Stream>>): (r: seq<TrackInfo>)
    ensures container.None? ==> r == []
    ensures container.Some? ==>
      |r| == |AudioStreams(container.value)|
      && forall j :: 0 <= j < |r| ==>
           r[j].index == AudioStreams(container.value)[j].index
           && (AudioStreams(container.value)[j].language == "" ==> r[j].language == TrackLabel(j + 1))
           && (AudioStreams(container.value)[j].language != "" ==> r[j].language == AudioStreams(container.value)[j].language)
  {
    match container
    case None => []
    case Some(streams) => AudioTrackInfosFrom(streams, 0)
  }
}
