/** The queue front end: enqueuing a validated request as a job, reporting
    the queue depth, and the autoscaler that polls the depth, starts an idle
    timer when the queue is empty, asks once for a shutdown after the idle
    timeout, and asks for a start when work arrives while the pod is stopped.
    Redis, the clock and the pod controls are parameters or recorded calls. */
module GpuQueueApi {
  import opened Wrappers
  import opened Errors
  import opened JsonValue
  import opened Requests

  /** QUEUE_IDLE_TIMEOUT at its default, in the clock's unit (seconds). */
  const QueueIdleTimeout: int := 30

  // ---------------------------------------------------------------------------
  // Job submission and queue size
  // ---------------------------------------------------------------------------

  datatype JobSubmissionResponse = JobSubmissionResponse(jobId: string, status: string)

  /** The queue entry: `{"job_id": id, "request": <request dump>}`. */
  function JobPayload(jobId: string, request: TranscriptionRequest): (entry: Json)
    ensures entry.JObj? && entry.fields.Keys == {"job_id", "request"}
    ensures entry.fields["job_id"] == JStr(jobId) && entry.fields["request"].JObj?
  {
    JObj(map["job_id" := JStr(jobId), "request" := JObj(Dump(request))])
  }

  /** What submit_job answers, and the entry it pushes if it gets that far. */
  datatype Submission = Submission(response: Result<JobSubmissionResponse, PyError>, pushed: Option<Json>)

  /** submit_job: 503 without a Redis client, before anything is pushed;
      otherwise the entry is pushed and the job reported queued, or 500 when
      the push raises. */
  function SubmitJob(hasClient: bool, request: TranscriptionRequest, jobId: string,
                     pushError: Option<PyError>): (s: Submission)
    ensures !hasClient ==>
              s.response == Failure(HttpException(503, "Redis connection not initialized")) && s.pushed.None?
    ensures hasClient ==> s.pushed == Some(JobPayload(jobId, request))
    ensures hasClient && pushError.Some? ==> s.response == Failure(HttpException(500, "Failed to enqueue job"))
    ensures hasClient && pushError.None? ==> s.response == Success(JobSubmissionResponse(jobId, "queued"))
  {
    if !hasClient then Submission(Failure(HttpException(503, "Redis connection not initialized")), None)
    else
      var payload := JobPayload(jobId, request);
      if pushError.Some? then Submission(Failure(HttpException(500, "Failed to enqueue job")), Some(payload))
      else Submission(Success(JobSubmissionResponse(jobId, "queued")), Some(payload))
  }

  /** The entry a submission pushes carries its job id, and its request part
      rebuilds the submitted request. */
  lemma SubmittedEntryRoundTrip(request: TranscriptionRequest, jobId: string, pushError: Option<PyError>)
    requires WellFormed(request)
    ensures var entry := SubmitJob(true, request, jobId, pushError).pushed.value;
            && entry.JObj? && "job_id" in entry.fields && "request" in entry.fields
            && entry.fields["job_id"] == JStr(jobId)
            && entry.fields["request"].JObj?
            && FromPayload(entry.fields["request"].fields) == Success(request)
  {
    DumpRoundTrip(request);
  }

  /** queue_size: 503 without a Redis client, else the list length. */
  function QueueSize(hasClient: bool, length: Result<nat, PyError>): (r: Result<nat, PyError>)
    ensures !hasClient ==> r == Failure(HttpException(503, "Redis connection not initialized"))
    ensures hasClient ==> r == length
  {
    if !hasClient then Failure(HttpException(503, "Redis connection not initialized")) else length
  }

  // ---------------------------------------------------------------------------
  // The autoscaler as a step function
  // ---------------------------------------------------------------------------

  /** One reading of the queue depth. */
  datatype Poll = Depth(length: nat) | ReadFailed

  /** The depth the loop sees: 0 without a client, the list length or a failed read with one. */
  function ReadDepth(hasClient: bool, length: Result<nat, PyError>): (p: Poll)
    ensures !hasClient ==> p == Depth(0)
    ensures hasClient ==> (p.ReadFailed? <==> length.Failure?)
    ensures hasClient && length.Success? ==> p == Depth(length.value)
  {
    if !hasClient then Depth(0) else if length.Failure? then ReadFailed else Depth(length.value)
  }

  /** The calls the loop makes to the pod controls. */
  datatype Signal = ShutdownCall | StartCall

  /** The three globals: `idle_start_time`, `shutdown_requested`, `pod_running`. */
  datatype ScalerState = ScalerState(idleStart: Option<int>, shutdownRequested: bool, podRunning: bool)

  /** The new state and the calls made by one iteration for a reading at `now`. */
  datatype StepResult = StepResult(state: ScalerState, signals: seq<Signal>)

  /** trigger_runpod_shutdown's effect: the pod is stopped (already stopped: unchanged). */
  function AfterShutdown(s: ScalerState): ScalerState
  {
    s.(podRunning := false)
  }

  /** trigger_runpod_start's effect: the pod is running (already running: unchanged). */
  function AfterStart(s: ScalerState): ScalerState
  {
    s.(podRunning := true)
  }

  /** One iteration of queue_autoscaler_loop, without the sleep. */
  function Next(s: ScalerState, poll: Poll, now: int): (r: StepResult)
    ensures r.signals == [] || r.signals == [ShutdownCall] || r.signals == [StartCall]
    ensures r.signals == [ShutdownCall] ==> r.state.shutdownRequested && !r.state.podRunning
    ensures r.signals == [StartCall] ==> r.state.podRunning && !s.podRunning
    ensures poll.ReadFailed? ==> r == StepResult(s, [])
    ensures r.state.podRunning != s.podRunning ==> r.signals != []
  {
    match poll
    case ReadFailed => StepResult(s, [])
    case Depth(n) =>
      if n == 0 then
        if s.idleStart.None? then StepResult(s.(idleStart := Some(now)), [])
        else if now - s.idleStart.value >= QueueIdleTimeout && !s.shutdownRequested then
          StepResult(AfterShutdown(s).(shutdownRequested := true), [ShutdownCall])
        else StepResult(s, [])
      else
        var cleared := s.(idleStart := None, shutdownRequested := false);
        if s.podRunning then StepResult(cleared, []) else StepResult(AfterStart(cleared), [StartCall])
  }

  /** A failed read changes nothing and calls nothing. */
  lemma FailedReadIsIgnored(s: ScalerState, now: int)
    ensures Next(s, ReadFailed, now) == StepResult(s, [])
  {
  }

  /** An empty queue with no timer running starts the timer at `now` and calls nothing. */
  lemma EmptyQueueStartsTimer(s: ScalerState, now: int)
    requires s.idleStart.None?
    ensures Next(s, Depth(0), now) == StepResult(s.(idleStart := Some(now)), [])
  {
  }

  /** The shutdown is asked for exactly when the queue is empty, the timer has
      run for the idle timeout and no shutdown has been asked for yet; it
      leaves the pod stopped and the request flag set. */
  lemma ShutdownWhenIdleLongEnough(s: ScalerState, poll: Poll, now: int)
    ensures ShutdownCall in Next(s, poll, now).signals <==>
              && poll == Depth(0) && s.idleStart.Some?
              && now - s.idleStart.value >= QueueIdleTimeout && !s.shutdownRequested
    ensures ShutdownCall in Next(s, poll, now).signals ==>
              var t := Next(s, poll, now).state;
              t.shutdownRequested && !t.podRunning && t.idleStart == s.idleStart
  {
  }

  /** Work in the queue clears the timer and the request flag, leaves the pod
      running, and asks for a start exactly when the pod was stopped. */
  lemma WorkRestartsPod(s: ScalerState, n: nat, now: int)
    requires n > 0
    ensures var r := Next(s, Depth(n), now);
            && r.state == ScalerState(None, false, true)
            && (r.signals == [StartCall] <==> !s.podRunning)
            && (r.signals == [] <==> s.podRunning)
  {
  }

  /** Iterations over a sequence of (reading, time) pairs. */
  function Run(s: ScalerState, polls: seq<(Poll, int)>): (r: StepResult)
    ensures |r.signals| <= |polls|
    ensures r.state.podRunning != s.podRunning ==> |r.signals| > 0
    decreases |polls|
  {
    if |polls| == 0 then StepResult(s, [])
    else
      var first := Next(s, polls[0].0, polls[0].1);
      var rest := Run(first.state, polls[1..]);
      StepResult(rest.state, first.signals + rest.signals)
  }

  function CountShutdowns(signals: seq<Signal>): nat
  {
    if |signals| == 0 then 0
    else (if signals[0] == ShutdownCall then 1 else 0) + CountShutdowns(signals[1..])
  }

  lemma CountShutdownsAppend(a: seq<Signal>, b: seq<Signal>)
    ensures CountShutdowns(a + b) == CountShutdowns(a) + CountShutdowns(b)
  {
    if |a| > 0 {
      assert (a + b)[1..] == a[1..] + b;
      CountShutdownsAppend(a[1..], b);
    } else {
      assert a + b == b;
    }
  }

  /** No reading shows work. */
  predicate Quiet(polls: seq<(Poll, int)>)
  {
    forall i :: 0 <= i < |polls| ==> polls[i].0 == Depth(0) || polls[i].0 == ReadFailed
  }

  /** While the queue stays empty the shutdown is asked for at most once, and
      not at all once it has been asked for. */
  lemma {:induction false} ShutdownAtMostOnce(s: ScalerState, polls: seq<(Poll, int)>)
    requires Quiet(polls)
    ensures CountShutdowns(Run(s, polls).signals) <= (if s.shutdownRequested then 0 else 1)
    ensures s.shutdownRequested ==> Run(s, polls).state.shutdownRequested
    decreases |polls|
  {
    if |polls| > 0 {
      var first := Next(s, polls[0].0, polls[0].1);
      assert Quiet(polls[1..]) by {
        assert forall i :: 1 <= i < |polls| ==> polls[1..][i - 1] == polls[i];
      }
      ShutdownAtMostOnce(first.state, polls[1..]);
      CountShutdownsAppend(first.signals, Run(first.state, polls[1..]).signals);
    }
  }

  /** With the timer running since t and no shutdown asked for, a quiet queue
      that is read at least once QUEUE_IDLE_TIMEOUT after t gets exactly one
      shutdown request. */
  lemma {:induction false} ShutdownExactlyOnce(s: ScalerState, t: int, polls: seq<(Poll, int)>)
    requires s.idleStart == Some(t) && !s.shutdownRequested
    requires forall i :: 0 <= i < |polls| ==> polls[i].0 == Depth(0)
    requires exists k :: 0 <= k < |polls| && polls[k].1 - t >= QueueIdleTimeout
    ensures CountShutdowns(Run(s, polls).signals) == 1
    decreases |polls|
  {
    var first := Next(s, polls[0].0, polls[0].1);
    var rest := polls[1..];
    assert forall i :: 1 <= i < |polls| ==> rest[i - 1] == polls[i];
    CountShutdownsAppend(first.signals, Run(first.state, rest).signals);
    if polls[0].1 - t >= QueueIdleTimeout {
      assert first.signals == [ShutdownCall] && first.state.shutdownRequested;
      ShutdownAtMostOnce(first.state, rest);
    } else {
      assert first == StepResult(s, []);
      var k :| 0 <= k < |polls| && polls[k].1 - t >= QueueIdleTimeout;
      assert rest[k - 1].1 - t >= QueueIdleTimeout;
      ShutdownExactlyOnce(s, t, rest);
    }
  }

  lemma {:induction false} RunSnoc(s: ScalerState, polls: seq<(Poll, int)>, p: (Poll, int))
    ensures var r := Run(s, polls);
            var last := Next(r.state, p.0, p.1);
            Run(s, polls + [p]) == StepResult(last.state, r.signals + last.signals)
    decreases |polls|
  {
    if |polls| == 0 {
      assert polls + [p] == [p];
      assert [p][1..] == [];
    } else {
      var first := Next(s, polls[0].0, polls[0].1);
      assert (polls + [p])[1..] == polls[1..] + [p];
      RunSnoc(first.state, polls[1..], p);
    }
  }

  // ---------------------------------------------------------------------------
  // The autoscaler as the module's globals
  // ---------------------------------------------------------------------------

  class Autoscaler {
    var idleStart: Option<int>
    var shutdownRequested: bool
    var podRunning: bool
    /** Every call made to the pod controls, in order. */
    var calls: seq<Signal>

    function State(): ScalerState
      reads this
    {
      ScalerState(idleStart, shutdownRequested, podRunning)
    }

    /** The globals at import: no timer, nothing requested, the pod stopped. */
    constructor()
      ensures State() == ScalerState(None, false, false) && calls == []
    {
      idleStart := None;
      shutdownRequested := false;
      podRunning := false;
      calls := [];
    }

    /** trigger_runpod_shutdown: stops a running pod; a stopped pod stays stopped. */
    method TriggerShutdown()
      modifies this
      ensures State() == AfterShutdown(old(State()))
      ensures calls == old(calls) + [ShutdownCall]
    {
      calls := calls + [ShutdownCall];
      if !podRunning {
        return;
      }
      podRunning := false;
    }

    /** trigger_runpod_start: starts a stopped pod; a running pod stays running. */
    method TriggerStart()
      modifies this
      ensures State() == AfterStart(old(State()))
      ensures calls == old(calls) + [StartCall]
    {
      calls := calls + [StartCall];
      if podRunning {
        return;
      }
      podRunning := true;
    }

    /** One iteration of the loop for a reading taken at `now`. */
    method Iterate(poll: Poll, now: int)
      modifies this
      ensures State() == Next(old(State()), poll, now).state
      ensures calls == old(calls) + Next(old(State()), poll, now).signals
    {
      if poll.ReadFailed? {
        return;
      }
      if poll.length == 0 {
        if idleStart.None? {
          idleStart := Some(now);
        } else if now - idleStart.value >= QueueIdleTimeout {
          if !shutdownRequested {
            TriggerShutdown();
            shutdownRequested := true;
          }
        }
      } else {
        idleStart := None;
        shutdownRequested := false;
        if !podRunning {
          TriggerStart();
        }
      }
    }

    /** queue_autoscaler_loop over a finite sequence of readings. */
    method Loop(polls: seq<(Poll, int)>)
      modifies this
      ensures State() == Run(old(State()), polls).state
      ensures calls == old(calls) + Run(old(State()), polls).signals
    {
      ghost var start := State();
      ghost var before := calls;
      for i := 0 to |polls|
        invariant State() == Run(start, polls[..i]).state
        invariant calls == before + Run(start, polls[..i]).signals
      {
        RunSnoc(start, polls[..i], polls[i]);
        assert polls[..i + 1] == polls[..i] + [polls[i]];
        Iterate(polls[i].0, polls[i].1);
      }
      assert polls[..|polls|] == polls;
    }
  }
}
