/** The master playback clock (`PlaybackClock` in src/sync.py). The wall-clock
    reading `time.perf_counter()` becomes the parameter `now`; seconds are reals.
    `currentPts` mirrors `_current_pts`, which the source writes but never reads. */
module Clock {
  import opened Wrappers

  datatype PlaybackClock = PlaybackClock(
    running: bool,
    startTime: real,
    startPts: real,
    currentPts: real,
    pausedAt: real)

  /** The clock as constructed: stopped at 0. */
  function Initial(): (c: PlaybackClock)
    ensures !c.running && forall now :: GetTime(c, now) == 0.0
  {
    PlaybackClock(false, 0.0, 0.0, 0.0, 0.0)
  }

  /** Current stream time: anchored position plus elapsed wall time while
      running, the frozen position otherwise. */
  function GetTime(c: PlaybackClock, now: real): (t: real)
    ensures !c.running ==> t == c.pausedAt
    ensures c.running ==> t - c.startPts == now - c.startTime
  {
    if c.running then c.startPts + (now - c.startTime) else c.pausedAt
  }

  /** `start(pts)` at wall time `now`: the clock runs and reads `pts` at `now`,
      advancing one stream second per wall second from there. */
  function Start(c: PlaybackClock, pts: real, now: real): (r: PlaybackClock)
    ensures r.running
    ensures forall later :: GetTime(r, later) == pts + (later - now)
    ensures r.currentPts == pts && r.pausedAt == c.pausedAt
  {
    c.(startTime := now, startPts := pts, currentPts := pts, running := true)
  }

  /** `pause()` as evidently intended: a running clock freezes at the time it
      reads at `now`; a paused clock is left as it is. */
  function Pause(c: PlaybackClock, now: real): (r: PlaybackClock)
    ensures !r.running
    ensures forall later :: GetTime(r, later) == GetTime(c, now)
    ensures !c.running ==> r == c
  {
    if c.running then c.(pausedAt := GetTime(c, now), running := false) else c
  }

  /** `resume()`: a paused clock runs again from the position it was frozen at,
      re-anchored to `now`; a running clock is left as it is. */
  function Resume(c: PlaybackClock, now: real): (r: PlaybackClock)
    ensures r.running
    ensures !c.running ==> forall later :: GetTime(r, later) == c.pausedAt + (later - now)
    ensures r.pausedAt == c.pausedAt
    ensures c.running ==> r == c
  {
    if !c.running then c.(startTime := now, startPts := c.pausedAt, running := true) else c
  }

  /** `seek(pts)`: the clock reads `pts` at the seek instant and keeps its
      running flag; a running clock keeps advancing from there, a paused one
      stays at `pts`. */
  function Seek(c: PlaybackClock, pts: real, now: real): (r: PlaybackClock)
    ensures r.running == c.running
    ensures GetTime(r, now) == pts
    ensures !c.running ==> forall later :: GetTime(r, later) == pts
    ensures c.running ==> forall later :: GetTime(r, later) == pts + (later - now)
    ensures r.currentPts == pts
    ensures c.running ==> r.pausedAt == c.pausedAt
  {
    if c.running then c.(startPts := pts, currentPts := pts, startTime := now)
    else c.(startPts := pts, currentPts := pts, pausedAt := pts)
  }

  /** `stop()`: the clock stops; the frozen position `pausedAt` is not touched,
      so after stopping a running clock it reads whatever it last froze at. */
  function Stop(c: PlaybackClock): (r: PlaybackClock)
    ensures !r.running
    ensures r.pausedAt == c.pausedAt
    ensures forall now :: GetTime(r, now) == c.pausedAt
    ensures r.currentPts == 0.0
  {
    c.(running := false, currentPts := 0.0)
  }

  /** While the clock is not running its reading does not depend on wall time. */
  lemma StoppedClockIsFrozen(c: PlaybackClock, w1: real, w2: real)
    requires !c.running
    ensures GetTime(c, w1) == GetTime(c, w2) == c.pausedAt
  {
  }

  /** While running, stream time advances exactly as fast as wall time. */
  lemma RunningClockAdvancesWithWallTime(c: PlaybackClock, w1: real, w2: real)
    requires c.running
    ensures GetTime(c, w2) - GetTime(c, w1) == w2 - w1
  {
  }

  /** Pausing twice is pausing once, whatever the second call's wall time. */
  lemma PauseIdempotent(c: PlaybackClock, w1: real, w2: real)
    ensures Pause(Pause(c, w1), w2) == Pause(c, w1)
  {
  }

  /** Resuming twice is resuming once, whatever the second call's wall time. */
  lemma ResumeIdempotent(c: PlaybackClock, w1: real, w2: real)
    ensures Resume(Resume(c, w1), w2) == Resume(c, w1)
  {
  }

  /** Paused time does not count: pausing at `w1` and resuming at `w2` leaves
      the clock reading at `w2` what it read at `w1`, and from then on it runs
      `w2 - w1` behind a clock that was never paused. */
  lemma PauseResumeSkipsPausedTime(c: PlaybackClock, w1: real, w2: real, later: real)
    requires w1 <= w2
    ensures GetTime(Resume(Pause(c, w1), w2), w2) == GetTime(c, w1)
    ensures GetTime(Resume(Pause(c, w1), w2), later) == GetTime(c, w1) + (later - w2)
    ensures c.running ==>
      GetTime(Resume(Pause(c, w1), w2), later) == GetTime(c, later) - (w2 - w1)
  {
  }

  /** A seek followed by a read at the same instant gives the seek target,
      running or paused. */
  lemma SeekThenRead(c: PlaybackClock, pts: real, now: real)
    ensures GetTime(Seek(c, pts, now), now) == pts
    ensures Seek(c, pts, now).running == c.running
  {
  }

  // ---------------------------------------------------------------------------
  // The source's pause, as written. `pause` takes the clock's lock and, for a
  // running clock, calls `get_time`, which takes the same lock again. The lock
  // is a plain non-reentrant lock, so that second acquisition never returns.
  // `None` stands for a call that never returns.
  // ---------------------------------------------------------------------------

  /** `get_time` entered while the calling thread already holds the lock
      (`lockHeld`): it waits forever; otherwise it returns the reading. */
  function GetTimeUnderLock(c: PlaybackClock, lockHeld: bool, now: real): (r: Option<real>)
    ensures lockHeld <==> r.None?
    ensures r.Some? ==> r.value == GetTime(c, now)
  {
    if lockHeld then None else Some(GetTime(c, now))
  }

  /** `pause` as written: the lock is held while `get_time` is called. */
  function PauseAsWritten(c: PlaybackClock, now: real): (r: Option<PlaybackClock>)
    ensures !c.running ==> r == Some(c)
  {
    var lockHeld := true;
    if c.running then
      match GetTimeUnderLock(c, lockHeld, now)
      case None => None
      case Some(t) => Some(c.(pausedAt := t, running := false))
    else Some(c)
  }

  /** Pausing a running clock never returns in the source, while the intended
      pause does and freezes the clock. */
  lemma PauseAsWrittenDeadlocks(c: PlaybackClock, now: real)
    requires c.running
    ensures PauseAsWritten(c, now).None?
    ensures !Pause(c, now).running && Pause(c, now).pausedAt == GetTime(c, now)
  {
  }
}
