/** The video decode worker (`VideoDecoder` in src/video_decoder.py): metadata
    read at open, the pause / resume / stop / seek controls, and the per-frame
    decisions of the decode loop (serving a seek, timestamping and numbering a
    frame, handing it to the queue). Demuxing and decoding belong to the media
    backend: a decoded frame arrives as its raw pts (0 when it has none) and the
    stream's time base. */
module Video {
  import opened Wrappers
  import Media
  import Handoff

  /** The backend's container time unit: durations are in microseconds. */
  const AvTimeBase: real := 1000000.0
  const DefaultFps: real := 30.0

  /** What the backend reports for an opened file: its duration in container
      units (0 when unknown) and its streams. */
  datatype Container = Container(duration: int, streams: seq<Media.Stream>)

  datatype OpenError = CannotOpen | NoVideoStream

  datatype Metadata = Metadata(duration: real, fps: real, width: nat, height: nat)

  datatype VideoDecoder = VideoDecoder(
    container: Option<Container>,
    running: bool,
    paused: bool,
    seekRequested: bool,
    seekTarget: real,
    duration: real,
    fps: real,
    width: nat,
    height: nat,
    frameNumber: int,
    queue: seq<Media.VideoFrame>)

  /** A decoder's frame rate is never 0: it is either the stream's non-zero
      average rate or the 30 fps default. */
  predicate Valid(d: VideoDecoder) {
    d.fps != 0.0
  }

  /** A decoder as constructed, before `open`. */
  function NewDecoder(): (d: VideoDecoder)
    ensures Valid(d) && d.fps == DefaultFps && d.duration == 0.0
    ensures !d.running && !d.paused && !d.seekRequested && d.queue == []
    ensures d.container.None? && d.seekTarget == 0.0
    ensures d.width == 0 && d.height == 0 && d.frameNumber == 0
  {
    VideoDecoder(None, false, false, false, 0.0, 0.0, DefaultFps, 0, 0, 0, [])
  }

  /** The position of the first video stream (the length when there is none). */
  function FirstVideoIndex(streams: seq<Media.Stream>): (k: nat)
    ensures k <= |streams|
    ensures forall j :: 0 <= j < k ==> streams[j].kind != Media.VideoKind
    ensures k < |streams| ==> streams[k].kind == Media.VideoKind
    decreases |streams|
  {
    if |streams| == 0 || streams[0].kind == Media.VideoKind then 0
    else 1 + FirstVideoIndex(streams[1..])
  }

  /** The first video stream of the container, if any. */
  function FirstVideoStream(streams: seq<Media.Stream>): (r: Option<Media.Stream>)
    ensures r.None? <==> forall i :: 0 <= i < |streams| ==> streams[i].kind != Media.VideoKind
    ensures r.Some? ==> r.value == streams[FirstVideoIndex(streams)]
  {
    var k := FirstVideoIndex(streams);
    if k < |streams| then Some(streams[k]) else None
  }

  /** The metadata `open` extracts: the duration in seconds (0 when the container
      reports none), the average frame rate (30 when the stream reports none) and
      the frame size. Opening fails when the file cannot be opened or has no
      video stream. */
  function ReadMetadata(container: Option<Container>): (r: Result<Metadata, OpenError>)
    ensures container.None? ==> r == Failure(CannotOpen)
    ensures container.Some? && FirstVideoStream(container.value.streams).None? ==> r == Failure(NoVideoStream)
    ensures container.Some? && FirstVideoStream(container.value.streams).Some? ==> r.Success?
    ensures r.Success? ==>
      var c := container.value;
      var s := FirstVideoStream(c.streams).value;
      && (c.duration != 0 ==> r.value.duration * AvTimeBase == c.duration as real)
      && (c.duration == 0 ==> r.value.duration == 0.0)
      && (s.averageRate != 0.0 ==> r.value.fps == s.averageRate)
      && (s.averageRate == 0.0 ==> r.value.fps == DefaultFps)
      && r.value.fps != 0.0
      && r.value.width == s.width && r.value.height == s.height
  {
    match container
    case None => Failure(CannotOpen)
    case Some(c) =>
      match FirstVideoStream(c.streams)
      case None => Failure(NoVideoStream)
      case Some(s) =>
        Success(Metadata(
          if c.duration != 0 then c.duration as real / AvTimeBase else 0.0,
          if s.averageRate != 0.0 then s.averageRate else DefaultFps,
          s.width, s.height))
  }

  /** `open()`: on success the decoder takes the metadata; on failure it reports
      the error. */
  function Open(d: VideoDecoder, container: Option<Container>): (r: Result<VideoDecoder, OpenError>)
    ensures r.Failure? <==> ReadMetadata(container).Failure?
    ensures r.Success? ==>
      var md := ReadMetadata(container).value;
      && Valid(r.value)
      && r.value == d.(container := container, duration := md.duration, fps := md.fps,
                       width := md.width, height := md.height)
  {
    match ReadMetadata(container)
    case Failure(e) => Failure(e)
    case Success(md) =>
      Success(d.(container := container, duration := md.duration, fps := md.fps,
                 width := md.width, height := md.height))
  }

  /** `seek(position)`: the request target is `position` clamped into
      [0, duration], and the request flag is raised. */
  function Seek(d: VideoDecoder, position: real): (r: VideoDecoder)
    ensures r.seekRequested
    ensures 0.0 <= r.seekTarget
    ensures d.duration >= 0.0 ==> r.seekTarget <= d.duration
    ensures 0.0 <= position <= d.duration ==> r.seekTarget == position
    ensures position < 0.0 ==> r.seekTarget == 0.0
    ensures position > d.duration ==> r.seekTarget == if d.duration > 0.0 then d.duration else 0.0
    ensures r == d.(seekRequested := true, seekTarget := r.seekTarget)
  {
    var upper := if position < d.duration then position else d.duration;
    d.(seekTarget := if upper > 0.0 then upper else 0.0, seekRequested := true)
  }

  /** `pause()`. */
  function Pause(d: VideoDecoder): (r: VideoDecoder)
    ensures IsPaused(r) && r == d.(paused := true)
  {
    d.(paused := true)
  }

  /** `resume()`: clears the pause unconditionally (unlike an audio player, it
      does not look at whether the loop still runs). */
  function Resume(d: VideoDecoder): (r: VideoDecoder)
    ensures !IsPaused(r) && r == d.(paused := false)
  {
    d.(paused := false)
  }

  /** `is_paused()`. */
  function IsPaused(d: VideoDecoder): (b: bool)
    ensures b <==> d.paused
  {
    d.paused
  }

  /** `stop()`: clears running and paused (the backend container is closed). */
  function Stop(d: VideoDecoder): (r: VideoDecoder)
    ensures !r.running && !IsPaused(r)
    ensures r == d.(running := false, paused := false)
  {
    d.(running := false, paused := false)
  }

  /** `get_audio_tracks()`: the audio tracks of the open container, labelled as
      the audio manager labels them; none before a container is open. */
  function GetAudioTracks(d: VideoDecoder): (r: seq<Media.TrackInfo>)
    ensures d.container.None? ==> r == []
    ensures d.container.Some? ==> r == Media.AudioTrackInfos(Some(d.container.value.streams))
    ensures d.container.Some? ==>
      var audio := Media.AudioStreams(d.container.value.streams);
      && |r| == |audio|
      && forall j :: 0 <= j < |r| ==>
           && r[j].index == audio[j].index
           && (audio[j].language == "" ==> r[j].language == Media.TrackLabel(j + 1))
           && (audio[j].language != "" ==> r[j].language == audio[j].language)
  {
    match d.container
    case None => []
    case Some(c) => Media.AudioTrackInfos(Some(c.streams))
  }

  // ---------------------------------------------------------------------------
  // Decode-loop steps
  // ---------------------------------------------------------------------------

  /** Entry of `run`: without an open container (its `open` failed) `run`
      returns at once and nothing changes; otherwise the loop runs and frame
      numbering starts at 0. */
  function RunStart(d: VideoDecoder): (r: VideoDecoder)
    ensures d.container.None? ==> r == d
    ensures d.container.Some? ==> r.running && r.frameNumber == 0
    ensures d.container.Some? ==> r == d.(running := true, frameNumber := 0)
  {
    if d.container.None? then d else d.(running := true, frameNumber := 0)
  }

  /** The seek-handling block at the top of each loop pass: a pending request is
      served (the backend seek happens here), the flag is cleared, numbering
      restarts at `int(target * fps)` and the queue is emptied. Without a request
      nothing changes. */
  function ServeSeek(d: VideoDecoder): (r: VideoDecoder)
    ensures d.seekRequested ==>
      && !r.seekRequested && r.queue == []
      && r.frameNumber == Media.Trunc(d.seekTarget * d.fps)
      && r == d.(seekRequested := false, queue := [], frameNumber := r.frameNumber)
    ensures !d.seekRequested ==> r == d
  {
    if d.seekRequested then
      d.(seekRequested := false, frameNumber := Media.Trunc(d.seekTarget * d.fps), queue := [])
    else d
  }

  /** A frame's timestamp: its raw pts times the stream time base, or, when the
      frame has no pts (or a pts of 0, which is falsy), its frame number divided by
      the frame rate. */
  function FramePts(rawPts: int, timeBase: real, frameNumber: int, fps: real): (t: real)
    requires fps != 0.0
    ensures rawPts != 0 ==> t == rawPts as real * timeBase
    ensures rawPts == 0 ==> t * fps == frameNumber as real
  {
    if rawPts != 0 then rawPts as real * timeBase else frameNumber as real / fps
  }

  /** What one decoded frame leads to: the loop leaves before using it (stopped,
      or a seek is pending); it waits while paused; the frame is timestamped and
      the put-retry loop is still trying to hand it over; or that loop has ended
      (enqueued or abandoned) and the frame is counted. */
  datatype StepKind =
    | Discarded
    | Polling
    | Retrying(frame: Media.VideoFrame)
    | Delivered(frame: Media.VideoFrame, put: Handoff.PutOutcome)

  datatype Step = Step(decoder: VideoDecoder, kind: StepKind)

  /** The handling of one frame from the backend, with `trace` the attempts of
      the put-retry loop. The frame carries the current number. While the loop
      is still retrying, the decoder is as it was. Once the loop has ended,
      numbering advances by exactly one whether or not the put happened, and the
      queue grows by that frame only when the put succeeded. */
  function DecodeFrame(d: VideoDecoder, rawPts: int, timeBase: real, trace: seq<Handoff.Attempt>): (r: Step)
    requires Valid(d)
    ensures Valid(r.decoder)
    ensures !d.running || d.seekRequested ==> r == Step(d, Discarded)
    ensures d.running && !d.seekRequested && d.paused ==> r == Step(d, Polling)
    ensures d.running && !d.seekRequested && !d.paused ==>
      && (r.kind.Retrying? || r.kind.Delivered?)
      && r.kind.frame.frameNumber == d.frameNumber
      && r.kind.frame.pts == FramePts(rawPts, timeBase, d.frameNumber, d.fps)
      && (r.kind.Retrying? <==> Handoff.PutRetry(trace).Waiting?)
      && (r.kind.Retrying? ==> r.decoder == d)
    ensures r.kind.Delivered? ==>
      && d.running && !d.seekRequested && !d.paused
      && r.kind.put == Handoff.PutRetry(trace)
      && (r.kind.put.Enqueued? || r.kind.put.Abandoned?)
      && r.decoder.frameNumber == d.frameNumber + 1
      && (r.kind.put.Enqueued? ==> r.decoder.queue == d.queue + [r.kind.frame])
      && (r.kind.put.Abandoned? ==> r.decoder.queue == d.queue)
      && r.decoder == d.(frameNumber := d.frameNumber + 1, queue := r.decoder.queue)
  {
    if !d.running || d.seekRequested then Step(d, Discarded)
    else if d.paused then Step(d, Polling)
    else
      var frame := Media.VideoFrame(FramePts(rawPts, timeBase, d.frameNumber, d.fps), d.frameNumber);
      var o := Handoff.PutRetry(trace);
      if o.Waiting? then Step(d, Retrying(frame))
      else
        Step(d.(queue := Handoff.AfterPut(d.queue, frame, o), frameNumber := d.frameNumber + 1),
             Delivered(frame, o))
  }

  /** End of stream: the loop stops running. */
  function EndOfStream(d: VideoDecoder): (r: VideoDecoder)
    ensures !r.running && r == d.(running := false)
  {
    d.(running := false)
  }

  /** Multiplying by a positive factor keeps the order of two reals. */
  lemma CancelPositive(a: real, b: real, f: real)
    requires f > 0.0
    ensures a * f <= b * f ==> a <= b
    ensures a * f < b * f ==> a < b
    ensures 0.0 <= a ==> 0.0 <= a * f
  {
    if a > b {
      assert (a - b) * f > 0.0;
    }
    if a >= b {
      assert (a - b) * f >= 0.0;
    }
  }

  /** A time `t` with `t * fps == int(target * fps)` lies within one frame at
      or before `target`. */
  lemma WithinOneFrame(target: real, fps: real, n: int, t: real)
    requires fps > 0.0
    requires n as real <= target * fps < n as real + 1.0
    requires t * fps == n as real
    ensures target - 1.0 / fps < t <= target
  {
    CancelPositive(t, target, fps);
    var step := 1.0 / fps;
    assert step * fps == 1.0;
    var low := target - step;
    assert low * fps == target * fps - step * fps;
    CancelPositive(low, t, fps);
  }

  /** After a seek is served, the next decoded frame is numbered
      `int(target * fps)`, the queue holds at most that frame, and a frame without
      a pts is stamped `int(target * fps) / fps` (within one frame of the target). */
  lemma FirstFrameAfterSeek(d: VideoDecoder, timeBase: real, trace: seq<Handoff.Attempt>)
    requires Valid(d) && d.running && d.seekRequested && !d.paused
    requires d.seekTarget >= 0.0 && d.fps > 0.0
    ensures var s := DecodeFrame(ServeSeek(d), 0, timeBase, trace);
      && (s.kind.Retrying? || s.kind.Delivered?)
      && s.kind.frame.frameNumber == Media.Trunc(d.seekTarget * d.fps)
      && |s.decoder.queue| <= 1
      && d.seekTarget - 1.0 / d.fps < s.kind.frame.pts <= d.seekTarget
  {
    var target, fps := d.seekTarget, d.fps;
    CancelPositive(target, 0.0, fps);
    var n := Media.Trunc(target * fps);
    var e := ServeSeek(d);
    assert e == d.(seekRequested := false, queue := [], frameNumber := n);
    assert Valid(e) && e.running && !e.seekRequested && !e.paused && e.queue == [];
    var s := DecodeFrame(e, 0, timeBase, trace);
    var t := s.kind.frame.pts;
    assert t == FramePts(0, timeBase, n, fps);
    WithinOneFrame(target, fps, n, t);
  }
}
