/** The bounded put-retry loop both decode threads use to hand a decoded item
    to their queue (video_decoder.py and audio_decoder.py): while the worker is
    running, no seek is requested and it is not paused, try a put with a short
    timeout; stop at the first put the queue accepts.

    The loop is modelled over a finite trace of attempts. Each attempt records
    the flags as the loop condition read them and whether the timed put found
    room. The queue's timing is not modelled: whether a put is accepted is an
    input. */
module Handoff {

  datatype Attempt = Attempt(running: bool, seekRequested: bool, paused: bool, accepted: bool)

  /** How the loop ended: the item was enqueued at attempt `at`; the loop
      condition failed before attempt `at`, so the item is abandoned; or the
      trace ran out with the loop still retrying. */
  datatype PutOutcome = Enqueued(at: nat) | Abandoned(at: nat) | Waiting

  /** The loop condition `running and not seek_requested and not paused`. */
  predicate Proceeds(a: Attempt) {
    a.running && !a.seekRequested && !a.paused
  }

  /** The attempt ends the loop: its condition fails or its put succeeds. */
  predicate Ends(a: Attempt) {
    !Proceeds(a) || a.accepted
  }

  function PutRetryFrom(trace: seq<Attempt>, start: nat): (o: PutOutcome)
    requires start <= |trace|
    ensures o.Waiting? <==> forall j :: start <= j < |trace| ==> !Ends(trace[j])
    ensures o.Enqueued? ==>
      start <= o.at < |trace| && Proceeds(trace[o.at]) && trace[o.at].accepted
      && forall j :: start <= j < o.at ==> !Ends(trace[j])
    ensures o.Abandoned? ==>
      start <= o.at < |trace| && !Proceeds(trace[o.at])
      && forall j :: start <= j < o.at ==> !Ends(trace[j])
    decreases |trace| - start
  {
    if start == |trace| then Waiting
    else if !Proceeds(trace[start]) then Abandoned(start)
    else if trace[start].accepted then Enqueued(start)
    else PutRetryFrom(trace, start + 1)
  }

  /** The outcome of the whole loop: the first attempt that ends it decides. */
  function PutRetry(trace: seq<Attempt>): (o: PutOutcome)
    ensures o.Waiting? <==> forall j :: 0 <= j < |trace| ==> !Ends(trace[j])
    ensures !o.Waiting? ==>
      && o.at < |trace| && Ends(trace[o.at])
      && forall j :: 0 <= j < o.at ==> !Ends(trace[j])
    ensures o.Enqueued? ==> Proceeds(trace[o.at]) && trace[o.at].accepted
    ensures o.Abandoned? ==> !Proceeds(trace[o.at])
  {
    PutRetryFrom(trace, 0)
  }

  /** The queue after the loop: the item is appended exactly when the loop
      enqueued it, and never more than once. */
  function AfterPut<T>(queue: seq<T>, item: T, o: PutOutcome): (q: seq<T>)
    ensures |queue| <= |q| <= |queue| + 1 && q[..|queue|] == queue
    ensures o.Enqueued? ==> q == queue + [item]
    ensures !o.Enqueued? ==> q == queue
  {
    if o.Enqueued? then queue + [item] else queue
  }

  /** When the very first attempt finds the loop condition false (worker stopped,
      seek pending or paused), nothing is enqueued. */
  lemma StoppedWorkerNeverEnqueues(trace: seq<Attempt>)
    requires |trace| > 0 && !Proceeds(trace[0])
    ensures PutRetry(trace) == Abandoned(0)
  {
  }
}
