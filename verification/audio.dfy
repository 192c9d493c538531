/** One audio track's player (`AudioTrackPlayer` in src/audio_decoder.py): the
    output callback that fills the sound device's buffer from the chunk queue,
    the volume / mute / pause / stop / seek controls, the stream defaults chosen
    at open, and the per-step decisions of the decode loop. Samples are reals; an
    output buffer is a sequence of rows, one row of `outputChannels` samples per
    frame. */
module Audio {
  import opened Wrappers
  import Media
  import Handoff

  const DefaultSampleRate: nat := 44100
  const DefaultChannels: nat := 2

  /** A decoded block of interleaved samples, one row per frame. */
  datatype AudioChunk = AudioChunk(data: seq<seq<real>>, pts: real, duration: real)

  datatype AudioFormat = AudioFormat(sampleRate: nat, channels: nat, outputChannels: nat)

  datatype AudioPlayer = AudioPlayer(
    trackId: int,
    streamIndex: int,
    running: bool,
    paused: bool,
    finished: bool,
    volume: real,
    muted: bool,
    seekRequested: bool,
    seekTarget: real,
    format: AudioFormat,
    currentPts: real,
    queue: seq<AudioChunk>)

  /** Every row of the chunk has one sample per output channel, as the decode
      loop's reshape guarantees. */
  predicate ChunkFits(c: AudioChunk, width: nat) {
    forall i :: 0 <= i < |c.data| ==> |c.data[i]| == width
  }

  /** The state the player keeps: a usable format and well-shaped queued chunks. */
  predicate Valid(p: AudioPlayer) {
    && p.format.sampleRate > 0
    && 1 <= p.format.outputChannels <= 2
    && forall i :: 0 <= i < |p.queue| ==> ChunkFits(p.queue[i], p.format.outputChannels)
  }

  /** A player as constructed, before `open`. */
  function NewPlayer(trackId: int, streamIndex: int): (p: AudioPlayer)
    ensures p.trackId == trackId && p.streamIndex == streamIndex
    ensures !p.running && !p.paused && !p.finished && !p.muted && !p.seekRequested
    ensures p.seekTarget == 0.0
    ensures p.volume == 1.0 && p.currentPts == 0.0 && p.queue == []
    ensures p.format.sampleRate == DefaultSampleRate && p.format.channels == DefaultChannels
  {
    AudioPlayer(trackId, streamIndex, false, false, false, 1.0, false, false, 0.0,
                AudioFormat(DefaultSampleRate, DefaultChannels, DefaultChannels), 0.0, [])
  }

  // ---------------------------------------------------------------------------
  // Opening
  // ---------------------------------------------------------------------------

  /** The first audio stream whose index is `index`. */
  function FindAudioStream(streams: seq<Media.Stream>, index: int): (r: Option<Media.Stream>)
    ensures r.None? <==> forall i :: 0 <= i < |streams| ==> !(streams[i].kind == Media.AudioKind && streams[i].index == index)
    ensures r.Some? ==> r.value in streams && r.value.kind == Media.AudioKind && r.value.index == index
  {
    if |streams| == 0 then None
    else if streams[0].kind == Media.AudioKind && streams[0].index == index then Some(streams[0])
    else FindAudioStream(streams[1..], index)
  }

  /** The format chosen for a stream: the reported sample rate and channel count,
      44100 Hz and 2 channels where the stream reports none, and at most two
      output channels. */
  function FormatOf(s: Media.Stream): (f: AudioFormat)
    ensures f.sampleRate > 0 && f.channels > 0
    ensures s.sampleRate > 0 ==> f.sampleRate == s.sampleRate
    ensures s.sampleRate == 0 ==> f.sampleRate == DefaultSampleRate
    ensures s.channels > 0 ==> f.channels == s.channels
    ensures s.channels == 0 ==> f.channels == DefaultChannels
    ensures 1 <= f.outputChannels <= 2 && f.outputChannels <= f.channels
    ensures f.outputChannels == 2 || f.outputChannels == f.channels
  {
    var rate := if s.sampleRate > 0 then s.sampleRate else DefaultSampleRate;
    var channels := if s.channels > 0 then s.channels else DefaultChannels;
    AudioFormat(rate, channels, if channels < 2 then channels else 2)
  }

  /** `open()`: fails when the container cannot be opened or has no audio stream
      with the player's stream index; otherwise the player takes that stream's
      format and changes nothing else. */
  function Open(p: AudioPlayer, container: Option<seq<Media.Stream>>): (r: Option<AudioPlayer>)
    ensures r.None? <==> container.None? || FindAudioStream(container.value, p.streamIndex).None?
    ensures r.Some? ==> r.value == p.(format := r.value.format)
    ensures r.Some? && p.queue == [] ==> Valid(r.value)
    ensures r.Some? ==>
      exists s :: && s in container.value && s.kind == Media.AudioKind
                  && s.index == p.streamIndex && r.value.format == FormatOf(s)
  {
    match container
    case None => None
    case Some(streams) =>
      match FindAudioStream(streams, p.streamIndex)
      case None => None
      case Some(s) => Some(p.(format := FormatOf(s)))
  }

  // ---------------------------------------------------------------------------
  // The output callback
  // ---------------------------------------------------------------------------

  function Zeros(n: nat): (r: seq<real>)
    ensures |r| == n && forall i :: 0 <= i < n ==> r[i] == 0.0
  {
    seq(n, _ => 0.0)
  }

  function Scale(row: seq<real>, v: real): (r: seq<real>)
    ensures |r| == |row| && forall i :: 0 <= i < |row| ==> r[i] == row[i] * v
  {
    seq(|row|, i requires 0 <= i < |row| => row[i] * v)
  }

  predicate IsSilence(out: seq<seq<real>>, width: nat) {
    forall i :: 0 <= i < |out| ==> out[i] == Zeros(width)
  }

  /** The rows written for a chunk: the first rows of the chunk scaled by the
      volume, truncated to `frames` rows, then silence up to `frames` rows. */
  function Mix(data: seq<seq<real>>, frames: nat, width: nat, volume: real): (out: seq<seq<real>>)
    ensures |out| == frames
    ensures forall i :: 0 <= i < frames && i < |data| ==> out[i] == Scale(data[i], volume)
    ensures forall i :: |data| <= i < frames ==> out[i] == Zeros(width)
  {
    seq(frames, i requires 0 <= i < frames => if i < |data| then Scale(data[i], volume) else Zeros(width))
  }

  /** Sample by sample: the mixed rows are the chunk's samples times the volume,
      and every row has the chunk's width. */
  lemma MixSamples(data: seq<seq<real>>, frames: nat, width: nat, volume: real)
    requires forall i :: 0 <= i < |data| ==> |data[i]| == width
    ensures forall i :: 0 <= i < frames ==> |Mix(data, frames, width, volume)[i]| == width
    ensures forall i :: 0 <= i < frames && i < |data| ==>
      forall c :: 0 <= c < |data[i]| ==> Mix(data, frames, width, volume)[i][c] == data[i][c] * volume
  {
  }

  /** Taking the head chunk off the queue keeps the player valid. */
  lemma ValidWithoutHead(p: AudioPlayer, pts: real)
    requires Valid(p) && |p.queue| > 0
    ensures Valid(p.(queue := p.queue[1..], currentPts := pts))
  {
    var q := p.queue[1..];
    forall i | 0 <= i < |q|
      ensures ChunkFits(q[i], p.format.outputChannels)
    {
      assert q[i] == p.queue[i + 1];
    }
  }

  function Silence(frames: nat, width: nat): (out: seq<seq<real>>)
    ensures |out| == frames && IsSilence(out, width)
  {
    seq(frames, _ => Zeros(width))
  }

  datatype CallbackResult = CallbackResult(player: AudioPlayer, out: seq<seq<real>>)

  /** `_audio_callback(outdata, frames)`: one call of the device callback.
      While paused it writes silence and consumes nothing. Otherwise it takes the
      next chunk if there is one: muted, it writes silence; unmuted, the chunk
      scaled by the volume, padded with silence or cut to `frames` rows. Either
      way the chunk is consumed and the player's position becomes its pts. With
      no chunk queued it writes silence and nothing changes. */
  function Callback(p: AudioPlayer, frames: nat): (r: CallbackResult)
    requires Valid(p)
    ensures |r.out| == frames
    ensures forall i :: 0 <= i < frames ==> |r.out[i]| == p.format.outputChannels
    ensures Valid(r.player)
    ensures p.paused ==> r.player == p && IsSilence(r.out, p.format.outputChannels)
    ensures !p.paused && |p.queue| == 0 ==> r.player == p && IsSilence(r.out, p.format.outputChannels)
    ensures !p.paused && |p.queue| > 0 ==>
      r.player == p.(queue := p.queue[1..], currentPts := p.queue[0].pts)
    ensures !p.paused && |p.queue| > 0 && p.muted ==> IsSilence(r.out, p.format.outputChannels)
    ensures !p.paused && |p.queue| > 0 && !p.muted ==>
      var data := p.queue[0].data;
      && (forall i :: 0 <= i < frames && i < |data| ==>
            forall c :: 0 <= c < |data[i]| ==> r.out[i][c] == data[i][c] * p.volume)
      && (forall i :: |data| <= i < frames ==> r.out[i] == Zeros(p.format.outputChannels))
  {
    var width := p.format.outputChannels;
    if p.paused || |p.queue| == 0 then CallbackResult(p, Silence(frames, width))
    else
      var chunk := p.queue[0];
      var p' := p.(queue := p.queue[1..], currentPts := chunk.pts);
      ValidWithoutHead(p, chunk.pts);
      assert ChunkFits(chunk, width);
      MixSamples(chunk.data, frames, width, p.volume);
      CallbackResult(p', if p.muted then Silence(frames, width) else Mix(chunk.data, frames, width, p.volume))
  }

  /** A second formulation of `Mix`, as the row-by-row copy into an output of
      `frames` rows: the slice assignments of the unmuted callback write the
      scaled chunk rows and then zero rows. It is proved to agree with `Mix`. */
  method FillBuffer(data: seq<seq<real>>, frames: nat, width: nat, volume: real) returns (out: seq<seq<real>>)
    ensures out == Mix(data, frames, width, volume)
    ensures |out| == frames
    ensures forall i :: 0 <= i < frames && i < |data| ==> out[i] == Scale(data[i], volume)
    ensures forall i :: |data| <= i < frames ==> out[i] == Zeros(width)
  {
    out := [];
    var i := 0;
    while i < frames
      invariant 0 <= i <= frames
      invariant |out| == i
      invariant forall j :: 0 <= j < i && j < |data| ==> out[j] == Scale(data[j], volume)
      invariant forall j :: |data| <= j < i ==> out[j] == Zeros(width)
    {
      var row := if i < |data| then Scale(data[i], volume) else Zeros(width);
      out := out + [row];
      i := i + 1;
    }
  }

  // ---------------------------------------------------------------------------
  // Controls
  // ---------------------------------------------------------------------------

  /** `set_volume(v)`: the volume is `v` clamped into [0, 1]. */
  function SetVolume(p: AudioPlayer, v: real): (r: AudioPlayer)
    ensures 0.0 <= r.volume <= 1.0
    ensures 0.0 <= v <= 1.0 ==> r.volume == v
    ensures v < 0.0 ==> r.volume == 0.0
    ensures v > 1.0 ==> r.volume == 1.0
    ensures r == p.(volume := r.volume)
  {
    var upper := if v < 1.0 then v else 1.0;
    p.(volume := if upper > 0.0 then upper else 0.0)
  }

  /** `get_volume()`. */
  function GetVolume(p: AudioPlayer): (v: real)
    ensures v == p.volume
  {
    p.volume
  }

  /** `set_muted(m)`. */
  function SetMuted(p: AudioPlayer, m: bool): (r: AudioPlayer)
    ensures r.muted == m && r == p.(muted := m)
  {
    p.(muted := m)
  }

  /** `is_muted()`. */
  function IsMuted(p: AudioPlayer): (m: bool)
    ensures m <==> p.muted
  {
    p.muted
  }

  /** What `get_volume` reports after `set_volume(v)` is `v` clamped into [0, 1],
      and setting a volume already in range twice is setting it once. */
  lemma VolumeRoundTrip(p: AudioPlayer, v: real)
    ensures 0.0 <= v <= 1.0 ==> GetVolume(SetVolume(p, v)) == v
    ensures v < 0.0 ==> GetVolume(SetVolume(p, v)) == 0.0
    ensures v > 1.0 ==> GetVolume(SetVolume(p, v)) == 1.0
    ensures SetVolume(SetVolume(p, v), GetVolume(SetVolume(p, v))) == SetVolume(p, v)
  {
  }

  /** `is_muted` reports the last `set_muted`. */
  lemma MuteRoundTrip(p: AudioPlayer, m: bool, m2: bool)
    ensures IsMuted(SetMuted(p, m)) == m
    ensures SetMuted(SetMuted(p, m), m2) == SetMuted(p, m2)
  {
  }

  /** `pause()`. */
  function Pause(p: AudioPlayer): (r: AudioPlayer)
    ensures r.paused && r == p.(paused := true)
  {
    p.(paused := true)
  }

  /** `resume()`: clears the pause only while the player is running; a player
      that has stopped or reached the end of its stream stays as it is. */
  function Resume(p: AudioPlayer): (r: AudioPlayer)
    ensures !p.running ==> r == p
    ensures p.running ==> !r.paused && r == p.(paused := false)
  {
    if !p.running then p else p.(paused := false)
  }

  /** `stop()`: clears both running and paused, so a paused decode loop wakes
      up and exits. */
  function Stop(p: AudioPlayer): (r: AudioPlayer)
    ensures !r.running && !r.paused
    ensures r == p.(running := false, paused := false)
  {
    p.(running := false, paused := false)
  }

  /** `is_finished`: the end of the stream was reached and the loop is no longer
      running. */
  function IsFinished(p: AudioPlayer): (b: bool)
    ensures b <==> p.finished && !p.running
  {
    p.finished && !p.running
  }

  /** `seek(position)`: records the target as given (no clamping, unlike the
      video decoder) and raises the request flag. */
  function Seek(p: AudioPlayer, position: real): (r: AudioPlayer)
    ensures r.seekRequested && r.seekTarget == position
    ensures r == p.(seekRequested := true, seekTarget := position)
  {
    p.(seekTarget := position, seekRequested := true)
  }

  // ---------------------------------------------------------------------------
  // Decode-loop steps (the container seek and decoding are left to the backend)
  // ---------------------------------------------------------------------------

  /** Entry of `run`: the loop runs and the end-of-stream flag is cleared. */
  function RunStart(p: AudioPlayer): (r: AudioPlayer)
    ensures r.running && !r.finished && !IsFinished(r)
    ensures r == p.(running := true, finished := false)
  {
    p.(running := true, finished := false)
  }

  /** The seek-handling block at the top of each loop pass: a pending request is
      served (the backend seek happens here), the flag is cleared and the queue is
      emptied; without a request nothing changes. The end-of-stream flag is left
      as it is. */
  function ServeSeek(p: AudioPlayer): (r: AudioPlayer)
    ensures p.seekRequested ==> !r.seekRequested && r.queue == [] && r == p.(seekRequested := false, queue := [])
    ensures !p.seekRequested ==> r == p
    ensures Valid(p) ==> Valid(r)
  {
    if p.seekRequested then p.(seekRequested := false, queue := []) else p
  }

  /** End of stream (the demux loop ran out or the backend raised EOF). */
  function EndOfStream(p: AudioPlayer): (r: AudioPlayer)
    ensures IsFinished(r)
    ensures r == p.(finished := true, running := false)
  {
    p.(finished := true, running := false)
  }

  /** The `finally` block on leaving the decode loop: the player counts as
      finished from then on, whether it ran out of stream or was stopped. */
  function RunExit(p: AudioPlayer): (r: AudioPlayer)
    ensures r.finished && (IsFinished(r) <==> !p.running)
    ensures r == p.(finished := true)
  {
    p.(finished := true)
  }

  /** `run` when the output device fails to start: the entry flags are already
      set, and `run` returns before reaching its `finally` block. The
      end-of-stream flag stays cleared, so the player never reports finished,
      not even after `stop()`. */
  function DeviceStartFailed(p: AudioPlayer): (r: AudioPlayer)
    ensures r.running && !r.finished
    ensures !IsFinished(r) && !IsFinished(Stop(r))
    ensures r == p.(running := true, finished := false)
  {
    RunStart(p)
  }

  /** A player that was stopped reports finished once its decode loop has been
      left through the `finally` block. */
  lemma StoppedPlayerEndsFinished(p: AudioPlayer)
    ensures IsFinished(RunExit(Stop(p)))
    ensures Resume(RunExit(Stop(p))) == RunExit(Stop(p))
  {
  }

  /** The chunk built from a resampled frame: timestamp `framePts * timeBase`,
      or 0 when the frame has no (or a zero) pts, and a duration of one frame row
      per sample period. */
  function MakeChunk(data: seq<seq<real>>, framePts: int, timeBase: real, sampleRate: nat): (c: AudioChunk)
    requires sampleRate > 0
    ensures c.data == data
    ensures framePts == 0 ==> c.pts == 0.0
    ensures framePts != 0 ==> c.pts == framePts as real * timeBase
    ensures c.duration * sampleRate as real == |data| as real
  {
    AudioChunk(data, if framePts != 0 then framePts as real * timeBase else 0.0, |data| as real / sampleRate as real)
  }

  /** Handing a chunk to the queue with the bounded put-retry loop: the queue
      grows by this chunk exactly when the loop enqueued it. */
  function DeliverChunk(p: AudioPlayer, chunk: AudioChunk, trace: seq<Handoff.Attempt>): (r: AudioPlayer)
    requires Valid(p) && ChunkFits(chunk, p.format.outputChannels)
    ensures Valid(r)
    ensures Handoff.PutRetry(trace).Enqueued? ==> r.queue == p.queue + [chunk]
    ensures !Handoff.PutRetry(trace).Enqueued? ==> r.queue == p.queue
    ensures r == p.(queue := r.queue)
  {
    p.(queue := Handoff.AfterPut(p.queue, chunk, Handoff.PutRetry(trace)))
  }
}
