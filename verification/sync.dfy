/** The presentation decisions of `SyncController` (src/sync.py): which queued
    frame one pass of the sync loop shows, how many late frames it drops, and
    when the frame-ready and position-update callbacks fire. Sleeping, the
    spin-wait and the thread itself are not modelled; one pass is a pure step. */
module Sync {
  import opened Wrappers
  import Clock
  import Media

  type Frame = Media.VideoFrame

  datatype SyncController = SyncController(
    running: bool,
    clock: Clock.PlaybackClock,
    fps: real,
    frameDuration: real,
    framesDisplayed: nat,
    framesDropped: nat)

  datatype SyncError = DivisionByZero

  /** The controller as constructed: 60 fps until told otherwise. */
  function Initial(): (s: SyncController)
    ensures !s.running && s.frameDuration * s.fps == 1.0
    ensures s.fps == 60.0 && s.frameDuration == 1.0 / 60.0
    ensures s.clock == Clock.Initial()
    ensures s.framesDisplayed == 0 && s.framesDropped == 0
  {
    SyncController(false, Clock.Initial(), 60.0, 1.0 / 60.0, 0, 0)
  }

  /** `set_fps(f)`: one frame lasts 1/f seconds. A rate of 0 raises in the
      source (division by zero). */
  function SetFps(s: SyncController, fps: real): (r: Result<SyncController, SyncError>)
    ensures fps == 0.0 <==> r.Failure?
    ensures r.Success? ==>
      r.value.frameDuration * fps == 1.0 && r.value.fps == fps
      && r.value == s.(fps := fps, frameDuration := r.value.frameDuration)
  {
    if fps == 0.0 then Failure(DivisionByZero)
    else Success(s.(fps := fps, frameDuration := 1.0 / fps))
  }

  /** `start(pts)`: the loop runs and the clock is anchored at `pts`. */
  function Start(s: SyncController, pts: real, now: real): (r: SyncController)
    ensures r.running && r.clock.running
    ensures Clock.GetTime(r.clock, now) == pts
    ensures forall later :: Clock.GetTime(r.clock, later) == pts + (later - now)
    ensures r == s.(running := true, clock := Clock.Start(s.clock, pts, now))
  {
    s.(running := true, clock := Clock.Start(s.clock, pts, now))
  }

  /** `stop()`: the loop and the clock both stop. */
  function Stop(s: SyncController): (r: SyncController)
    ensures !r.running && !r.clock.running
    ensures r.clock.pausedAt == s.clock.pausedAt
    ensures r == s.(running := false, clock := Clock.Stop(s.clock))
  {
    s.(running := false, clock := Clock.Stop(s.clock))
  }

  /** A frame is late when it is more than one frame duration behind the clock. */
  predicate IsLate(f: Frame, now: real, frameDuration: real): (late: bool)
    ensures late <==> now - f.pts > frameDuration
  {
    f.pts < now - frameDuration
  }

  /** The frame one pass takes off the queue, the frames left queued, and how
      many frames it counted as dropped. */
  datatype Selection = Selection(frame: Frame, rest: seq<Frame>, dropped: nat)

  /** The catch-up loop after a late head `head` with `passed` drops so far: take
      frames off the front until one is not late; if the queue runs dry first,
      the head frame is kept. */
  function CatchUp(head: Frame, queue: seq<Frame>, now: real, fd: real, passed: nat): (r: Selection)
    ensures r.frame == head || r.frame in queue
    ensures (forall i :: 0 <= i < |queue| ==> IsLate(queue[i], now, fd)) ==>
      r == Selection(head, [], passed + |queue|)
    ensures forall k :: 0 <= k < |queue| && !IsLate(queue[k], now, fd)
                        && (forall i :: 0 <= i < k ==> IsLate(queue[i], now, fd)) ==>
      r == Selection(queue[k], queue[k + 1..], passed + k)
    decreases |queue|
  {
    if |queue| == 0 then Selection(head, [], passed)
    else if !IsLate(queue[0], now, fd) then Selection(queue[0], queue[1..], passed)
    else
      var r := CatchUp(head, queue[1..], now, fd, passed + 1);
      assert forall k :: 1 <= k < |queue| ==> queue[1..][k - 1] == queue[k];
      assert forall k :: 1 <= k <= |queue| ==> queue[1..][k - 1..] == queue[k..];
      r
  }

  /** One pass's frame choice on the queue `queue` with the clock reading `now`.
      `None` when the queue is empty (the timed `get` raises `Empty`). */
  function SelectFrame(queue: seq<Frame>, now: real, fd: real): (r: Option<Selection>)
    ensures r.None? <==> |queue| == 0
    ensures r.Some? ==> r.value.frame in queue
  {
    if |queue| == 0 then None
    else if !IsLate(queue[0], now, fd) then Some(Selection(queue[0], queue[1..], 0))
    else Some(CatchUp(queue[0], queue[1..], now, fd, 1))
  }

  /** The first frame that is not late, if any. */
  function FirstOnTime(queue: seq<Frame>, now: real, fd: real): (k: nat)
    ensures k <= |queue|
    ensures forall i :: 0 <= i < k ==> IsLate(queue[i], now, fd)
    ensures k < |queue| ==> !IsLate(queue[k], now, fd)
    decreases |queue|
  {
    if |queue| == 0 || !IsLate(queue[0], now, fd) then 0
    else 1 + FirstOnTime(queue[1..], now, fd)
  }

  /** Frame selection against its reference description: with `k` the first
      frame that is not late, that frame is chosen, the `k` late frames before it
      are dropped and the frames behind it stay queued in order; if every frame is
      late the head is kept, all the others are dropped, and the queue empties. */
  lemma SelectionMatchesFirstOnTime(queue: seq<Frame>, now: real, fd: real)
    requires |queue| > 0
    ensures var k := FirstOnTime(queue, now, fd);
      k < |queue| ==> SelectFrame(queue, now, fd) == Some(Selection(queue[k], queue[k + 1..], k))
    ensures var k := FirstOnTime(queue, now, fd);
      k == |queue| ==> SelectFrame(queue, now, fd) == Some(Selection(queue[0], [], |queue|))
  {
    var k := FirstOnTime(queue, now, fd);
    var tail := queue[1..];
    if IsLate(queue[0], now, fd) {
      assert SelectFrame(queue, now, fd) == Some(CatchUp(queue[0], tail, now, fd, 1));
      assert forall i :: 0 <= i < |tail| ==> tail[i] == queue[i + 1];
      if k < |queue| {
        assert forall i :: 0 <= i < k - 1 ==> IsLate(tail[i], now, fd);
        CatchUpStopsAt(queue[0], tail, now, fd, 1, k - 1);
        assert tail[k..] == queue[k + 1..];
      } else {
        CatchUpKeepsHead(queue[0], tail, now, fd, 1);
      }
    }
  }

  /** The catch-up loop stops at the first frame that is not late. */
  lemma CatchUpStopsAt(head: Frame, queue: seq<Frame>, now: real, fd: real, passed: nat, k: nat)
    requires k < |queue| && !IsLate(queue[k], now, fd)
    requires forall i :: 0 <= i < k ==> IsLate(queue[i], now, fd)
    ensures CatchUp(head, queue, now, fd, passed) == Selection(queue[k], queue[k + 1..], passed + k)
  {
  }

  /** When every frame is late the catch-up loop keeps the head. */
  lemma CatchUpKeepsHead(head: Frame, queue: seq<Frame>, now: real, fd: real, passed: nat)
    requires forall i :: 0 <= i < |queue| ==> IsLate(queue[i], now, fd)
    ensures CatchUp(head, queue, now, fd, passed) == Selection(head, [], passed + |queue|)
  {
  }

  /** A late frame is shown only when nothing behind it was on time: then it is
      the head, and the pass empties the queue. */
  lemma LateChoiceOnlyWhenAllLate(queue: seq<Frame>, now: real, fd: real)
    requires |queue| > 0
    ensures var sel := SelectFrame(queue, now, fd).value;
      IsLate(sel.frame, now, fd) ==>
        && (forall i :: 0 <= i < |queue| ==> IsLate(queue[i], now, fd))
        && sel == Selection(queue[0], [], |queue|)
  {
    SelectionMatchesFirstOnTime(queue, now, fd);
  }

  /** The decoder queues frames in non-decreasing pts order. */
  predicate PtsOrdered(queue: seq<Frame>) {
    forall i, j :: 0 <= i < j < |queue| ==> queue[i].pts <= queue[j].pts
  }

  /** On a pts-ordered queue the chosen frame is no later than any frame left
      queued, and what is left stays ordered; so the next pass cannot choose an
      earlier frame than this one. */
  lemma ChosenPrecedesRemaining(queue: seq<Frame>, now: real, fd: real)
    requires |queue| > 0 && PtsOrdered(queue)
    ensures var sel := SelectFrame(queue, now, fd).value;
      && PtsOrdered(sel.rest)
      && forall i :: 0 <= i < |sel.rest| ==> sel.frame.pts <= sel.rest[i].pts
  {
    SelectionMatchesFirstOnTime(queue, now, fd);
    var k := FirstOnTime(queue, now, fd);
    if k < |queue| {
      var rest := queue[k + 1..];
      assert forall i :: 0 <= i < |rest| ==> rest[i] == queue[k + 1 + i];
    }
  }

  /** What happens after the wait: the flags are the ones read when the display
      is re-checked (a pause or stop may have happened during the wait). */
  datatype DisplayCheck = DisplayCheck(
    controllerRunning: bool,
    clockRunning: bool,
    hasFrameReady: bool,
    hasPositionUpdate: bool)

  /** The outcome of one pass: the new controller state, the queue left behind,
      the frame handed to `on_frame_ready` (if any), and the position passed to
      `on_position_update` (if any). */
  datatype Pass = Pass(
    controller: SyncController,
    queue: seq<Frame>,
    shown: Option<Frame>,
    positionUpdate: Option<real>)

  /** Display gating and the position-update rule for a chosen frame. */
  function Present(s: SyncController, sel: Selection, check: DisplayCheck): (p: Pass)
    ensures p.shown.Some? <==> check.hasFrameReady && check.controllerRunning && check.clockRunning
    ensures p.shown.Some? ==> p.shown.value == sel.frame
    ensures p.controller.framesDisplayed == s.framesDisplayed + (if p.shown.Some? then 1 else 0)
    ensures p.controller.framesDropped == s.framesDropped + sel.dropped
    ensures p.positionUpdate.Some? <==>
      check.hasPositionUpdate && check.controllerRunning && p.controller.framesDisplayed % 10 == 0
    ensures p.positionUpdate.Some? ==> p.positionUpdate.value == sel.frame.pts
    ensures p.queue == sel.rest
    ensures p.controller == s.(framesDisplayed := p.controller.framesDisplayed,
                               framesDropped := p.controller.framesDropped)
  {
    var s1 := s.(framesDropped := s.framesDropped + sel.dropped);
    var show := check.hasFrameReady && check.controllerRunning && check.clockRunning;
    var s2 := if show then s1.(framesDisplayed := s1.framesDisplayed + 1) else s1;
    var update := check.hasPositionUpdate && s2.framesDisplayed % 10 == 0 && check.controllerRunning;
    Pass(s2, sel.rest,
         if show then Some(sel.frame) else None,
         if update then Some(sel.frame.pts) else None)
  }

  /** One pass of `_sync_loop` at wall time `now`. A stopped loop, a paused clock
      or an empty queue change nothing; otherwise a frame is chosen against the
      clock's reading and presented. */
  function SyncPass(s: SyncController, queue: seq<Frame>, now: real, check: DisplayCheck): (p: Pass)
    ensures !s.running || !s.clock.running || |queue| == 0 ==> p == Pass(s, queue, None, None)
    ensures p.shown.Some? ==> p.shown.value in queue && check.controllerRunning && check.clockRunning
    ensures s.running && s.clock.running && |queue| > 0 ==>
      var t := Clock.GetTime(s.clock, now);
      var k := FirstOnTime(queue, t, s.frameDuration);
      && (k < |queue| ==> p.queue == queue[k + 1..] && p.controller.framesDropped == s.framesDropped + k)
      && (k < |queue| && p.shown.Some? ==> p.shown.value == queue[k])
      && (k == |queue| ==> p.queue == [] && p.controller.framesDropped == s.framesDropped + |queue|)
      && (k == |queue| && p.shown.Some? ==> p.shown.value == queue[0])
    ensures s.running && s.clock.running && |queue| > 0 ==>
      var t := Clock.GetTime(s.clock, now);
      && SelectFrame(queue, t, s.frameDuration).Some?
      && p == Present(s, SelectFrame(queue, t, s.frameDuration).value, check)
      && (p.shown.Some? <==> check.hasFrameReady && check.controllerRunning && check.clockRunning)
      && p.controller.framesDisplayed == s.framesDisplayed + (if p.shown.Some? then 1 else 0)
    ensures p.controller.running == s.running && p.controller.clock == s.clock
    ensures p.controller.frameDuration == s.frameDuration
  {
    if !s.running || !s.clock.running then Pass(s, queue, None, None)
    else
      var t := Clock.GetTime(s.clock, now);
      match SelectFrame(queue, t, s.frameDuration)
      case None => Pass(s, queue, None, None)
      case Some(sel) =>
        SelectionMatchesFirstOnTime(queue, t, s.frameDuration);
        Present(s, sel, check)
  }

  /** A frame that was dropped (passed over as late) is never the one shown. */
  lemma DroppedFramesAreNotShown(s: SyncController, queue: seq<Frame>, now: real, check: DisplayCheck, i: nat)
    requires s.running && s.clock.running
    requires var k := FirstOnTime(queue, Clock.GetTime(s.clock, now), s.frameDuration);
      0 < i < k
    ensures SyncPass(s, queue, now, check).shown != Some(queue[i]) || queue[i] == queue[0]
  {
  }

  /** How long the loop sleeps before spin-waiting for a frame due in `untilDue`
      seconds: all but the last 2 ms when more than 5 ms remain, otherwise it only
      spins. The sleep always ends before the frame is due. */
  function SleepBeforeDisplay(untilDue: real): (d: real)
    ensures 0.0 <= d
    ensures untilDue > 0.0 ==> d < untilDue
    ensures untilDue > 0.005 ==> untilDue - d == 0.002
    ensures untilDue <= 0.005 ==> d == 0.0
  {
    if untilDue > 0.005 then untilDue - 0.002 else 0.0
  }
}
