# DoesPlayer playback core in Dafny

DoesPlayer is a media player. It plays one video stream and any number of
audio tracks against a single playback clock. This project models the
decisions its threads make as pure state-transition functions. Wall time is
passed in as `now: real`. Seconds are `real`. The media backend's reports
(stream metadata, frame timestamps, whether a file opens) are inputs.

Modules, one file each:

- `Clock` (clock.dfy): the master `PlaybackClock`: start, pause, resume, seek, stop and the time reading.
- `Sync` (sync.dfy): the sync controller's per-pass decision. It picks the frame to show, drops late frames, gates the display and sends position updates.
- `Audio` (audio.dfy): one audio track player. Covers the device output callback, the volume/mute/pause/stop/seek controls, the format defaults at open, and the decode-loop steps.
- `AudioMgr` (audio_manager.dfy): the registry of players keyed by track id, with discovery, initialization, per-track commands and the master position.
- `Video` (video.dfy): the video decode worker. Covers metadata at open, the controls, serving a seek, frame timestamps and numbering, and the queue hand-off.
- `Gui` (gui.dfy): the widget arithmetic. Covers the HH:MM:SS label, the seek and volume sliders, the play button, and the aspect-preserving target rectangle.
- `Handoff` (handoff.dfy): the bounded put-retry loop both decoders use.
- `Media` (media.dfy): stream metadata, the audio-track list with its "Track k" labels, and Python's `int()` truncation.
- `Text` (text.dfy): decimal rendering (`str`, `:02d`) and a reader for digit strings.
- `Wrappers` (wrappers.dfy): `Option` and `Result`.

Three behaviours of the code are easy to miss:

- The audio decode loop does not reset the end-of-stream flag when it serves a seek.
- `VideoDecoder.resume` clears the pause flag unconditionally. It does not check for a finished worker.
- `PlaybackClock.pause` deadlocks on a running clock. See Findings.

A falsy backend value (`None` or 0) is modelled as 0 or `""`. The source's
`x or default` then reads "0 means absent".

## Model

| member | source | states |
|---|---|---|
| Clock.Initial | src/sync.py:32-38 | a new clock is not running and reads 0 at every wall time |
| Clock.Start | src/sync.py:40-46 | after start(p) at w the clock runs and reads p + (w' - w) at every later w' |
| Clock.Pause | src/sync.py:48-53 | intended pause: the clock stops and from then on reads, at every wall time, what it read at the pause instant; already paused: no-op |
| Clock.Resume | src/sync.py:55-61 | a paused clock runs again from paused_at, re-anchored at the resume instant; paused_at itself is kept; a running clock is unchanged |
| Clock.Seek | src/sync.py:63-71 | the clock reads the target at the seek instant, keeps its running flag, and keeps advancing (running) or stays at the target (paused); current_pts becomes the target; a running clock keeps its paused_at |
| Clock.GetTime | src/sync.py:73-80 | stopped, the clock reads paused_at; running, the stream time elapsed since the anchor equals the wall time elapsed since it |
| Clock.Stop | src/sync.py:87-91 | the clock stops; paused_at is untouched, so the clock reads paused_at at every wall time; current_pts becomes 0 |
| Clock.StoppedClockIsFrozen | src/sync.py:79-80 | while not running, the reading is paused_at regardless of wall time |
| Clock.RunningClockAdvancesWithWallTime | src/sync.py:76-78 | while running, stream time advances exactly as much as wall time |
| Clock.PauseIdempotent | src/sync.py:48-53 | pausing twice equals pausing once |
| Clock.ResumeIdempotent | src/sync.py:55-61 | resuming twice equals resuming once |
| Clock.PauseResumeSkipsPausedTime | src/sync.py:48-80 | pause at w1 then resume at w2: the reading at w2 is the reading at w1, and the clock then runs w2 - w1 behind an unpaused one |
| Clock.SeekThenRead | src/sync.py:63-80 | reading at the seek instant gives the target; the running flag is unchanged |
| Clock.GetTimeUnderLock | src/sync.py:73-75 | get_time entered with the lock already held never returns; otherwise it returns the clock reading |
| Clock.PauseAsWritten | src/sync.py:48-53 | the source's pause: a paused clock is returned unchanged |
| Clock.PauseAsWrittenDeadlocks | src/sync.py:50-52 | pausing a running clock as written never returns, while the intended pause freezes the clock at its reading |
| Sync.Initial | src/sync.py:111-119 | a new controller is stopped, has zero counters, a fresh stopped clock and a frame duration of 1/60 s at 60 fps |
| Sync.SetFps | src/sync.py:121-124 | the frame duration times the rate is 1; a rate of 0 is the division-by-zero error |
| Sync.Start | src/sync.py:126-129 | the loop and the clock run, and from now on the clock reads the start position plus the elapsed wall time; nothing else in the controller changes |
| Sync.Stop | src/sync.py:207-210 | the loop and the clock both stop; the clock's paused_at is kept and nothing else in the controller changes |
| Sync.CatchUp | src/sync.py:163-172 | the first frame that is not late is taken, with one drop per late frame passed; if none is on time the head is kept, every frame is dropped and the queue empties |
| Sync.SelectFrame | src/sync.py:147-172 | no frame exactly when the queue is empty; the chosen frame comes from the queue |
| Sync.IsLate | src/sync.py:160 | a frame is late iff it is more than one frame duration behind the clock reading |
| Sync.FirstOnTime | src/sync.py:160-169 | reference definition: the index of the first frame with pts >= now - frame_duration, all earlier frames being late |
| Sync.SelectionMatchesFirstOnTime | src/sync.py:157-172 | with k the first on-time frame: frame k is chosen, k frames are dropped and frames after k stay queued in order; if all are late, the head is kept, all are dropped and the queue empties |
| Sync.LateChoiceOnlyWhenAllLate | src/sync.py:160-172 | a late frame is chosen only when every queued frame is late, and then it is the head |
| Sync.ChosenPrecedesRemaining | src/sync.py:157-172 | on a pts-ordered queue the chosen frame is no later than any frame left queued, and the rest stays ordered, so displayed pts never go backwards |
| Sync.Present | src/sync.py:186-193 | the frame reaches on_frame_ready iff the callback exists and both controller and clock run; a position update with the frame's pts goes out iff the callback exists, the controller runs and frames_displayed is a multiple of 10; only the two counters of the controller change |
| Sync.SyncPass | src/sync.py:138-193 | a stopped loop, paused clock or empty queue change nothing; otherwise the chosen frame, drops and remaining queue match the first on-time frame at the clock reading, the chosen frame is presented: it is shown and counted iff the display check passes, with the position update rule of Present |
| Sync.DroppedFramesAreNotShown | src/sync.py:160-188 | a late frame passed over during catch-up is never the frame shown |
| Sync.SleepBeforeDisplay | src/sync.py:176-184 | the sleep before the spin-wait is non-negative, ends before the frame is due, and is skipped when at most 5 ms remain |
| Audio.NewPlayer | src/audio_decoder.py:56-73 | a new player for the given track id and stream index is stopped, unpaused, unmuted, without a seek request (target 0), at volume 1, with an empty queue and 44100 Hz / 2 channels |
| Audio.FindAudioStream | src/audio_decoder.py:81-89 | finds an audio stream with the requested index exactly when one exists |
| Audio.FormatOf | src/audio_decoder.py:91-95 | the reported sample rate and channel count, 44100 and 2 when the stream reports none; output channels are min(channels, 2) |
| Audio.Open | src/audio_decoder.py:75-101 | fails iff the file cannot be opened or has no audio stream with the player's index; otherwise only the format changes, taken from that stream |
| Audio.Mix | src/audio_decoder.py:117-128 | exactly `frames` rows: the first min(len, frames) are the chunk rows with every sample times the volume, the rest are zero rows |
| Audio.Callback | src/audio_decoder.py:103-131 | output has exactly `frames` rows. Paused: silence, nothing consumed. Empty queue: silence, pts unchanged. Otherwise the head chunk is consumed and current_pts becomes its pts. Muted: silence. Unmuted: the first min(len, frames) rows are the chunk rows times the volume, the rest silence |
| Audio.FillBuffer | src/audio_decoder.py:123-128 | a row-by-row formulation of the slice copy, proved equal to the callback's buffer: `frames` rows, the scaled chunk rows first, then silence rows |
| Audio.SetVolume | src/audio_decoder.py:286-288 | the volume is the argument clamped into [0, 1]; nothing else changes |
| Audio.VolumeRoundTrip | src/audio_decoder.py:286-292 | get_volume after set_volume(v) is v clamped into [0, 1] |
| Audio.GetVolume | src/audio_decoder.py:290-292 | reports the stored volume |
| Audio.SetMuted | src/audio_decoder.py:294-296 | only the mute flag changes, to the argument |
| Audio.IsMuted | src/audio_decoder.py:298-300 | reports the mute flag |
| Audio.MuteRoundTrip | src/audio_decoder.py:294-300 | is_muted reports the last set_muted; the last set_muted wins |
| Audio.Pause | src/audio_decoder.py:275-277 | only the pause flag changes, to set |
| Audio.Resume | src/audio_decoder.py:279-284 | a player that is not running is unchanged; a running one is unpaused and nothing else changes |
| Audio.Stop | src/audio_decoder.py:307-310 | running and paused are both cleared; nothing else changes |
| Audio.IsFinished | src/audio_decoder.py:302-305 | finished iff the end-of-stream flag is set and the loop is not running |
| Audio.Seek | src/audio_decoder.py:269-273 | the target is stored unclamped and the request flag is raised |
| Audio.RunStart | src/audio_decoder.py:138-139 | the loop runs and the player is not finished |
| Audio.ServeSeek | src/audio_decoder.py:172-182 | a pending request is cleared and the queue emptied; without one nothing changes; the finished flag is untouched |
| Audio.EndOfStream | src/audio_decoder.py:237-246 | the player is finished and no longer running |
| Audio.RunExit | src/audio_decoder.py:251-252 | on leaving the decode loop the finished flag is set, so the player reports finished iff it is not running |
| Audio.DeviceStartFailed | src/audio_decoder.py:138-161 | when the output device fails to start, run returns with the loop flag set and the finished flag cleared, so the player does not report finished even after stop |
| Audio.StoppedPlayerEndsFinished | src/audio_decoder.py:251-310 | a stopped player whose decode loop was left through the finally block reports finished, and resume leaves it so |
| Audio.MakeChunk | src/audio_decoder.py:220-228 | chunk pts is frame pts times the time base, or 0 without a pts; duration times the sample rate is the number of rows |
| Audio.DeliverChunk | src/audio_decoder.py:230-236 | the queue grows by the chunk exactly when the put-retry loop enqueued it |
| AudioMgr.NewManager | src/audio_decoder.py:325-328 | a new manager has no players and no track list |
| AudioMgr.DiscoverTracks | src/audio_decoder.py:330-351 | returns and stores the labelled audio-track list; if the file cannot be opened, returns [] and keeps the old list |
| AudioMgr.AddPlayers | src/audio_decoder.py:358-367 | each track that opens is registered under its list position with its opened player; failing tracks and all other ids keep what they had |
| AudioMgr.InitializeAllTracks | src/audio_decoder.py:353-369 | discovers first when no tracks are known; the result is true iff some player is registered |
| AudioMgr.InitializeSucceedsIffSomeTrackOpens | src/audio_decoder.py:353-369 | from no players, the ids registered are exactly the tracks that opened, and the result is true iff one did |
| AudioMgr.SetTrackVolume | src/audio_decoder.py:396-399 | an unknown id changes nothing; a known id gets its volume clamped into [0, 1]; the key set is unchanged |
| AudioMgr.SetTrackMuted | src/audio_decoder.py:401-404 | an unknown id changes nothing; a known id gets the mute flag; the key set is unchanged |
| AudioMgr.TrackCommandsAreIndependent | src/audio_decoder.py:396-404 | a volume or mute command for one track leaves every other track unchanged |
| AudioMgr.GetMasterPts | src/audio_decoder.py:410-414 | player 0's current pts, or 0 when there is no player 0 |
| AudioMgr.PauseAll | src/audio_decoder.py:376-379 | every registered player is paused, same ids |
| AudioMgr.ResumeAll | src/audio_decoder.py:381-384 | every registered player resumes by its own rule, same ids |
| AudioMgr.SeekAll | src/audio_decoder.py:386-389 | every registered player has a pending seek to the same position |
| AudioMgr.StopAll | src/audio_decoder.py:391-394 | every registered player is stopped and unpaused, and nothing else about it changes; same ids |
| Media.Trunc | src/video_decoder.py:116 | Python int(): the integer between 0 and x that is less than one away from x |
| Media.AudioStreams | src/video_decoder.py:217-218 | the filtered list contains only audio streams, as many as the container has |
| Media.AudioStreamsInOrder | src/video_decoder.py:216-218 | every audio stream is kept, in container order: the one at position i is entry number (audio streams before i) |
| Media.AudioTrackInfosFrom | src/audio_decoder.py:336-344 | the list is the audio streams, in order, the j-th made into an entry labelled as audio track listed + j + 1: one entry per audio stream, and an untagged track is labelled with its 1-based position among audio tracks |
| Media.AudioTrackInfos | src/video_decoder.py:213-226 | no container gives []; otherwise the j-th entry has the j-th audio stream's index and its language, or "Track j+1" when it has none |
| Handoff.PutRetryFrom | src/video_decoder.py:155-160 | the first attempt that ends the loop decides: enqueued iff its condition held and the put was accepted; abandoned iff its condition failed; waiting iff no attempt ends it |
| Handoff.PutRetry | src/video_decoder.py:155-160 | the loop ends at the first attempt whose condition fails or whose put is accepted, and the outcome says which |
| Handoff.AfterPut | src/video_decoder.py:154-160 | the queue keeps its contents and gains the item once iff it was enqueued |
| Handoff.StoppedWorkerNeverEnqueues | src/video_decoder.py:155 | if the loop condition is already false, nothing is enqueued |
| Video.NewDecoder | src/video_decoder.py:46-57 | a new decoder has no container, is stopped, unpaused, without a seek request (target 0), at 30 fps with duration 0, size 0 x 0, frame number 0 and an empty queue |
| Video.FirstVideoIndex | src/video_decoder.py:64-68 | the position of the first video stream; every earlier stream is not video |
| Video.FirstVideoStream | src/video_decoder.py:64-72 | no stream found iff the container has no video stream |
| Video.ReadMetadata | src/video_decoder.py:70-78 | fails exactly when the file cannot be opened or has no video stream. Otherwise: duration is container duration / 1e6 (0 if none), fps is the average rate (30 if none, never 0), and the size is the stream's |
| Video.Open | src/video_decoder.py:59-92 | fails exactly when the metadata cannot be read; otherwise the decoder takes the metadata and nothing else changes |
| Video.Seek | src/video_decoder.py:188-192 | the target is the position clamped into [0, duration] and the request flag is raised |
| Video.Pause | src/video_decoder.py:194-196 | is_paused becomes true; nothing else changes |
| Video.Resume | src/video_decoder.py:198-200 | is_paused becomes false whatever the running state; nothing else changes |
| Video.IsPaused | src/video_decoder.py:202-204 | reports the pause flag |
| Video.Stop | src/video_decoder.py:206-211 | running and paused are both cleared |
| Video.GetAudioTracks | src/video_decoder.py:213-226 | no container gives []; otherwise the j-th entry has the j-th audio stream's index and its language, or "Track j+1" when it has none |
| Video.RunStart | src/video_decoder.py:94-100 | without an open container run returns at once and nothing changes; otherwise the loop runs and numbering starts at 0 |
| Video.ServeSeek | src/video_decoder.py:111-122 | a pending request is cleared, numbering restarts at int(target * fps) and the queue is empty; without one nothing changes |
| Video.FramePts | src/video_decoder.py:146 | a non-zero raw pts gives pts * time_base; a zero or missing one gives frame_number / fps |
| Video.DecodeFrame | src/video_decoder.py:126-162 | a stopped loop or pending seek discards the frame; a paused one waits. Otherwise the frame gets the current number and its pts; while the put-retry loop is still trying, nothing changes; once it has ended, numbering advances by exactly 1 and the queue gains the frame iff the loop enqueued it |
| Video.EndOfStream | src/video_decoder.py:163-170 | the loop stops running |
| Video.FirstFrameAfterSeek | src/video_decoder.py:111-162 | after a served seek, the next frame is numbered int(target * fps), the queue holds at most that frame, and a frame without pts is stamped within one frame duration at or before the target |
| Text.Digits | src/gui.py:310 | a non-empty digit string with no leading zero; one digit iff n < 10 |
| Text.DigitsRoundTrip | src/gui.py:310 | reading back the rendered digits of n gives n |
| Text.Pad2 | src/gui.py:310 | `:02d`: at least two characters; 0..9 is "0" and the digit, n >= 10 is exactly the digits of n (read back as n), a negative n is "-" and its digits |
| Gui.FloorDivOfFloor | src/gui.py:307 | float floor division by a positive integer equals integer division of the floor |
| Gui.FModOfFloor | src/gui.py:308-309 | float remainder keeps the fraction: its floor is the integer remainder of the floor |
| Gui.SplitWholeSeconds | src/gui.py:307-309 | hours*3600 + minutes*60 + seconds of the split equals the whole seconds |
| Gui.TimeFieldsOf | src/gui.py:305-309 | hours is floor(s) div 3600, minutes and seconds lie in [0, 60), and hours*3600 + minutes*60 + seconds = floor(s) |
| Gui.FormatTime | src/gui.py:305-310 | three colon-separated fields: the `:02d` rendering of floor(s) div 3600 (any width, negatives included), of (floor(s) mod 3600) div 60 and of floor(s) mod 60, so 3600 gives "01:00:00" |
| Gui.PlayClicked | src/gui.py:269-273 | asks to pause iff playing, to play otherwise |
| Gui.SeekStart | src/gui.py:275-276 | marks the slider as dragged |
| Gui.SliderToPosition | src/gui.py:280 | value/1000 of the duration; slider values 0..1000 map into [0, duration] |
| Gui.SeekEnd | src/gui.py:278-281 | ends the drag and requests value/1000 of the duration, within [0, duration] for a slider in range |
| Gui.SeekMove | src/gui.py:283-285 | the label previews the dragged position |
| Gui.SetDuration | src/gui.py:292-295 | stores the duration and labels it; nothing else changes |
| Gui.SetPlaying | src/gui.py:287-290 | the play button then asks for pause iff playing; nothing else changes |
| Gui.PositionToSlider | src/gui.py:302 | for a non-negative position, the integer part of position / duration * 1000 |
| Gui.ClampToSlider | src/gui.py:237 | slider values stay in the 0..1000 range: values in range are kept, a negative value becomes 0 and one above 1000 becomes 1000 |
| Gui.SetPosition | src/gui.py:297-303 | ignored while dragging. Otherwise the label shows the position, and only when duration > 0 the slider moves to int(position / duration * 1000) clamped into 0..1000 |
| Gui.SliderValueRoundTrip | src/gui.py:280-302 | the position a slider value v in 0..1000 stands for maps back to v |
| Gui.SliderRoundTrip | src/gui.py:278-303 | releasing at v and feeding the requested position back puts the slider back at v |
| Gui.VolumeChanged | src/gui.py:142-144 | emits the track id and value/100, in [0, 1] for values 0..100, labelled "v%" |
| Gui.HeightFillFits | src/gui.py:66-69 | filling the height of a wider widget needs no more than its width |
| Gui.WidthFillFits | src/gui.py:70-73 | filling the width of a taller widget needs no more than its height |
| Gui.FitRect | src/gui.py:64-76 | wider widget: full height and width int(H * aspect); otherwise full width and height int(W / aspect). The rectangle is centred at non-negative offsets (W - tw) // 2, (H - th) // 2 and lies inside the widget |

## Left out

- Threads, the sleep itself, the sync loop's spin-wait, joins and queue timeouts are not modelled (`Sync.SleepBeforeDisplay` models only the sleep's length). Each thread is modelled as the per-pass steps it takes. Interleavings are not modelled.
- Sync.SyncPass: the catch-up loop's re-check of the controller's running flag is not an input. A pass is only taken inside the running loop, so a stop between the two checks (a race) is not modelled.
- Volume and mute are written without a lock in the source. That race is not modelled.
- The media backend (opening files, demuxing, decoding, resampling, container seeking) and the sound device are external. Their results are inputs: stream metadata, raw frame pts, and whether an open succeeds.
- Gui.SliderRoundTrip: holds in exact real arithmetic only. With double-precision floats, rounding in `value / 1000 * duration` and `position / duration * 1000` can put the slider one step below v (for example v = 173 with a duration of 3.0), since `int()` truncates.
- Audio.Callback: the float32 buffer, numpy reshaping and float rounding are not modelled. Samples are reals and the volume multiply is exact.
- The pause polling inside the decode loops is modelled as a `Polling` outcome, and the audio decode loop's checks before a frame are not modelled. The audio seek conversion to stream units (`_perform_seek`) goes to the backend.
- `AudioManager.start_all` and the thread start of both workers are left out, as thread creation. The state set on entering `run` is modelled as `RunStart`.
- The queue-full wait of a put is an input to the put-retry model (`accepted` per attempt). The capacities (60 video frames, 100 audio chunks) are therefore not used.
- `get_stats`, `SyncState`, `is_running` and `get_track_info` are plain reads, covered by the fields they return.
- Qt widgets, painting, signals, the file dialog, `AudioTracksPanel` and `MainPlayerWidget` are not modelled. main.py (signal wiring and application start-up) and build.py (packaging) are not part of this model.
- Audio.RunExit: `run` also leaves without its `finally` block in three cases. With no open stream it returns at once and the player is unchanged, so it is not finished. When the output device fails to start it is modelled by `Audio.DeviceStartFailed`. An exception from building the resampler (src/audio_decoder.py:142-146) is outside any `try`, so `run` leaves with the loop flag set and the finished flag cleared, as in `Audio.DeviceStartFailed`; the backend's failure itself is not an input.
- Video.Open: the `on_duration` and `on_fps` callbacks it calls on success are GUI wiring and are not modelled.
- Video.Open: when the file opens but has no video stream, the source keeps the opened container. The model returns only the error, so a later `get_audio_tracks` on such a decoder is not modelled.
- Sync.SetFps: in the failing case the source has already stored the rate before raising. The model drops the whole update, since that stored rate is never read.

## Findings

| source | as written | input that shows it | evidently intended | confidence | as-written member | corrected member |
|---|---|---|---|---|---|---|
| src/sync.py:48-53 | `pause` holds the clock's non-reentrant `threading.Lock` and calls `get_time`, which acquires the same lock again (src/sync.py:75), so the call never returns | any running clock, for example after `start(0.0)`, then `pause()` | record the current reading in `paused_at` and stop the clock | high; not executed | Clock.PauseAsWritten (shown by Clock.PauseAsWrittenDeadlocks) | Clock.Pause (proved by Clock.PauseResumeSkipsPausedTime and Clock.PauseIdempotent) |
