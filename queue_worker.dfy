/** The queue consumer: each iteration takes a GPU permit, pops one entry,
    and either hands the permit to a job task for a valid job or gives it
    straight back (nothing popped, an undecodable entry, an invalid request).
    A job task processes its request, swallows any error and gives the
    permit back exactly once. Redis and the job processing are parameters;
    the interleaving of the loop and the job tasks is a sequence of events. */
module QueueWorker {
  import opened Wrappers
  import opened Errors
  import opened JsonValue
  import opened Requests
  import opened GpuQueueApi
  import opened TranscriptionService
  import opened GpuSemaphore
  import opened Config

  /** What one pop gives: nothing before the timeout, bytes that are not
      UTF-8 JSON, or a decoded JSON value. */
  datatype Popped = NoData | Undecodable | Decoded(job: Json)

  /** A valid job: its `job_id` value (`"<unknown>"` when absent) and its request. */
  datatype Job = Job(jobId: Json, request: TranscriptionRequest)

  /** How the loop treats a decoded entry: a job to run, an entry it logs and
      drops, or an exception the loop does not catch. */
  datatype JobDecode = Accepted(job: Job) | Rejected | Crashed(error: PyError)

  /** `job.get("request", job)`. */
  function JobBody(job: map<string, Json>): Json
  {
    Get(job, "request", JObj(job))
  }

  /** `job.get("job_id", "<unknown>")`. */
  function JobIdOf(job: map<string, Json>): Json
  {
    Get(job, "job_id", JStr("<unknown>"))
  }

  function NoGet(value: Json): PyError
  {
    Raised("AttributeError", "'" + PyTypeName(value) + "' object has no attribute 'get'")
  }

  function NotAMapping(value: Json): PyError
  {
    Raised("TypeError", "TranscriptionRequest() argument after ** must be a mapping, not " + PyTypeName(value))
  }

  /** The decoding as written: only JSON, Unicode and validation errors are
      caught, so a decoded value that is not an object, or whose request part
      is not an object, raises out of the loop. */
  function DecodeJobAsWritten(job: Json): (d: JobDecode)
    ensures !job.JObj? ==> d == Crashed(NoGet(job))
    ensures job.JObj? && !JobBody(job.fields).JObj? ==> d == Crashed(NotAMapping(JobBody(job.fields)))
    ensures job.JObj? && JobBody(job.fields).JObj? ==>
              var built := FromPayload(JobBody(job.fields).fields);
              && (built.Success? ==> d == Accepted(Job(JobIdOf(job.fields), built.value)))
              && (built.Failure? ==> d == Rejected)
  {
    if !job.JObj? then Crashed(NoGet(job))
    else
      var body := JobBody(job.fields);
      if !body.JObj? then Crashed(NotAMapping(body))
      else
        var built := FromPayload(body.fields);
        if built.Failure? then Rejected else Accepted(Job(JobIdOf(job.fields), built.value))
  }

  /** The decoding as intended: an entry that cannot become a request is
      dropped like any other invalid payload. It accepts exactly what the
      written decoding accepts and never raises. */
  function DecodeJob(job: Json): (d: JobDecode)
    ensures !d.Crashed?
    ensures d.Accepted? <==> DecodeJobAsWritten(job).Accepted?
    ensures d.Accepted? ==> d == DecodeJobAsWritten(job)
  {
    var written := DecodeJobAsWritten(job);
    if written.Crashed? then Rejected else written
  }

  /** What the queue front end enqueues for a validated request is accepted,
      with its job id and the very request submitted. */
  lemma SubmittedJobAccepted(jobId: string, request: TranscriptionRequest)
    requires WellFormed(request)
    ensures DecodeJob(JobPayload(jobId, request)) == Accepted(Job(JStr(jobId), request))
  {
    var entry := JobPayload(jobId, request);
    assert "request" in entry.fields && "job_id" in entry.fields;
    DumpRoundTrip(request);
  }

  /** A bare request object without a job wrapper is accepted as its own
      request, under the job id `"<unknown>"`. */
  lemma BareRequestAccepted(request: TranscriptionRequest)
    requires WellFormed(request)
    ensures DecodeJob(JObj(Dump(request))) == Accepted(Job(JStr("<unknown>"), request))
  {
    DumpLookup(request);
    assert "request" !in Dump(request) && "job_id" !in Dump(request);
    DumpRoundTrip(request);
  }

  /** A JSON array on the queue, or an object whose request is a string,
      escapes the written decoding as an exception; the intended decoding drops it. */
  lemma AsWrittenCrashesOnNonObjects()
    ensures DecodeJobAsWritten(JArr([])).Crashed? && DecodeJob(JArr([])) == Rejected
    ensures var entry := JObj(map["request" := JStr("x")]);
            DecodeJobAsWritten(entry) == Crashed(NotAMapping(JStr("x"))) && DecodeJob(entry) == Rejected
  {
    var entry := JObj(map["request" := JStr("x")]);
    assert JobBody(entry.fields) == JStr("x");
  }

  /** Running a job: service.process on its request, or the exception it raises. */
  type JobRunner = TranscriptionRequest -> Result<TranscriptionResponse, PyError>

  /** What the worker's environment does next: a pop delivers an entry, or
      the k-th running job task finishes. */
  datatype Event = Pop(popped: Popped) | Finish(k: nat)

  const WorkerWithoutClient := Raised("RuntimeError", "Redis client is not initialized")

  /** What a job task's processing gave: logged, never raised. */
  type Outcome = Result<TranscriptionResponse, PyError>

  /** The worker as a value: the free permits, the job tasks still holding a
      permit (in start order) and the finished ones with their outcomes. */
  datatype WorkerState = WorkerState(free: int, running: seq<Job>, finished: seq<(Job, Outcome)>)

  /** The jobs of finished tasks, in finishing order. */
  function FinishedJobs(finished: seq<(Job, Outcome)>): (jobs: seq<Job>)
    ensures |jobs| == |finished| && forall i :: 0 <= i < |finished| ==> jobs[i] == finished[i].0
  {
    seq(|finished|, i requires 0 <= i < |finished| => finished[i].0)
  }

  /** A decoding of popped entries: the written one or the intended one. */
  type Decoder = Json -> JobDecode

  /** The job a pop starts: a decoded entry the decoding accepts, once a
      permit is free; while none is, the worker is still waiting and nothing
      is popped. */
  function StartedBy(s: WorkerState, e: Event, decode: Decoder): (jobs: seq<Job>)
    ensures |jobs| <= 1
    ensures |jobs| == 1 ==> e.Pop? && e.popped.Decoded? && decode(e.popped.job) == Accepted(jobs[0])
  {
    if e.Pop? && s.free > 0 && e.popped.Decoded? && decode(e.popped.job).Accepted? then
      [decode(e.popped.job).job]
    else []
  }

  /** One pop that does not raise: the permit passes to the new task, or is
      given straight back. */
  function PopStep(s: WorkerState, popped: Popped, decode: Decoder): (t: WorkerState)
    ensures t.finished == s.finished
    ensures t.running == s.running + StartedBy(s, Pop(popped), decode)
    ensures t.free + |t.running| == s.free + |s.running| && (s.free >= 0 ==> t.free >= 0)
  {
    if s.free > 0 && popped.Decoded? && decode(popped.job).Accepted? then
      WorkerState(s.free - 1, s.running + [decode(popped.job).job], s.finished)
    else s
  }

  /** The k-th running task finishing: its outcome is recorded and its permit
      given back; a task that does not exist changes nothing. */
  function FinishStep(s: WorkerState, k: nat, process: JobRunner): (t: WorkerState)
    ensures t.free + |t.running| == s.free + |s.running| && (s.free >= 0 ==> t.free >= 0)
    ensures k < |s.running| ==>
              && multiset(t.running) + multiset{s.running[k]} == multiset(s.running)
              && t.finished == s.finished + [(s.running[k], process(s.running[k].request))]
    ensures k >= |s.running| ==> t == s
  {
    if k < |s.running| then
      var job := s.running[k];
      assert s.running == s.running[..k] + [job] + s.running[k + 1..];
      WorkerState(s.free + 1, s.running[..k] + s.running[k + 1..], s.finished + [(job, process(job.request))])
    else s
  }

  function Step(s: WorkerState, e: Event, decode: Decoder, process: JobRunner): WorkerState
  {
    match e
    case Pop(popped) => PopStep(s, popped, decode)
    case Finish(k) => FinishStep(s, k, process)
  }

  /** The state after a sequence of events. */
  function Run(s: WorkerState, events: seq<Event>, decode: Decoder, process: JobRunner): WorkerState
    decreases |events|
  {
    if |events| == 0 then s
    else Step(Run(s, events[..|events| - 1], decode, process), events[|events| - 1], decode, process)
  }

  /** The jobs a sequence of events starts, in start order. */
  function Started(s: WorkerState, events: seq<Event>, decode: Decoder, process: JobRunner): seq<Job>
    decreases |events|
  {
    if |events| == 0 then []
    else
      var before := events[..|events| - 1];
      Started(s, before, decode, process) + StartedBy(Run(s, before, decode, process), events[|events| - 1], decode)
  }

  /** Free permits and running tasks always add up to the same total, and
      the free count never goes negative. */
  lemma {:induction false} RunConservesPermits(s: WorkerState, events: seq<Event>, decode: Decoder, process: JobRunner)
    ensures var t := Run(s, events, decode, process);
            t.free + |t.running| == s.free + |s.running| && (s.free >= 0 ==> t.free >= 0)
    decreases |events|
  {
    if |events| > 0 {
      RunConservesPermits(s, events[..|events| - 1], decode, process);
    }
  }

  /** One event keeps every task accounted for. */
  lemma StepAccountsForJobs(u: WorkerState, e: Event, decode: Decoder, process: JobRunner)
    ensures var t := Step(u, e, decode, process);
            multiset(t.running) + multiset(FinishedJobs(t.finished))
              == multiset(u.running) + multiset(FinishedJobs(u.finished)) + multiset(StartedBy(u, e, decode))
  {
    match e
    case Pop(popped) =>
      assert FinishedJobs(PopStep(u, popped, decode).finished) == FinishedJobs(u.finished);
    case Finish(k) =>
      if k < |u.running| {
        var t := FinishStep(u, k, process);
        assert FinishedJobs(t.finished) == FinishedJobs(u.finished) + [u.running[k]];
      }
  }

  /** Every task is accounted for: the running and finished tasks at the end
      are those at the start plus one task per job the run started. */
  lemma {:induction false} RunAccountsForJobs(s: WorkerState, events: seq<Event>, decode: Decoder, process: JobRunner)
    ensures var t := Run(s, events, decode, process);
            multiset(t.running) + multiset(FinishedJobs(t.finished))
              == multiset(s.running) + multiset(FinishedJobs(s.finished)) + multiset(Started(s, events, decode, process))
    decreases |events|
  {
    if |events| > 0 {
      var before := events[..|events| - 1];
      var e := events[|events| - 1];
      var u := Run(s, before, decode, process);
      assert Run(s, events, decode, process) == Step(u, e, decode, process);
      assert Started(s, events, decode, process) == Started(s, before, decode, process) + StartedBy(u, e, decode);
      RunAccountsForJobs(s, before, decode, process);
      StepAccountsForJobs(u, e, decode, process);
    }
  }

  /** Some pop among the events delivered an entry the decoding accepts as the job. */
  ghost predicate PoppedAndAccepted(events: seq<Event>, decode: Decoder, job: Job)
  {
    exists i :: 0 <= i < |events| && events[i].Pop? && events[i].popped.Decoded?
                && decode(events[i].popped.job) == Accepted(job)
  }

  /** Every started job is what the decoding accepted from an entry some pop
      delivered. */
  lemma {:induction false} StartedFromPops(s: WorkerState, events: seq<Event>, decode: Decoder, process: JobRunner)
    ensures forall m :: 0 <= m < |Started(s, events, decode, process)| ==>
              PoppedAndAccepted(events, decode, Started(s, events, decode, process)[m])
    decreases |events|
  {
    if |events| > 0 {
      var n := |events| - 1;
      var before := events[..n];
      var sb := StartedBy(Run(s, before, decode, process), events[n], decode);
      var all := Started(s, events, decode, process);
      var earlier := Started(s, before, decode, process);
      assert all == earlier + sb;
      StartedFromPops(s, before, decode, process);
      forall m | 0 <= m < |all|
        ensures PoppedAndAccepted(events, decode, all[m])
      {
        if m < |earlier| {
          assert all[m] == earlier[m];
          assert PoppedAndAccepted(before, decode, earlier[m]);
          var i :| 0 <= i < |before| && before[i].Pop? && before[i].popped.Decoded?
                   && decode(before[i].popped.job) == Accepted(earlier[m]);
          assert events[i] == before[i];
        } else {
          assert |sb| == 1 && all[m] == sb[0];
          assert events[n].Pop? && events[n].popped.Decoded? && decode(events[n].popped.job) == Accepted(all[m]);
        }
      }
    }
  }

  /** Finished tasks are only ever added, each with the outcome of processing
      its own request. */
  lemma {:induction false} RunKeepsOutcomes(s: WorkerState, events: seq<Event>, decode: Decoder, process: JobRunner)
    requires forall i :: 0 <= i < |s.finished| ==> s.finished[i].1 == process(s.finished[i].0.request)
    ensures var t := Run(s, events, decode, process);
            && |s.finished| <= |t.finished| && t.finished[..|s.finished|] == s.finished
            && forall i :: 0 <= i < |t.finished| ==> t.finished[i].1 == process(t.finished[i].0.request)
    decreases |events|
  {
    if |events| > 0 {
      var u := Run(s, events[..|events| - 1], decode, process);
      RunKeepsOutcomes(s, events[..|events| - 1], decode, process);
      var t := Run(s, events, decode, process);
      assert t.finished[..|s.finished|] == s.finished by {
        assert t.finished[..|u.finished|] == u.finished;
        assert u.finished[..|s.finished|] == s.finished;
      }
    }
  }

  /** The written and the intended decoding start the same jobs, so where
      the written one does not raise, the runs agree. */
  lemma {:induction false} DecodersAgreeOnRuns(s: WorkerState, events: seq<Event>, process: JobRunner)
    ensures Run(s, events, DecodeJobAsWritten, process) == Run(s, events, DecodeJob, process)
    decreases |events|
  {
    if |events| > 0 {
      var before := events[..|events| - 1];
      DecodersAgreeOnRuns(s, before, process);
      var u := Run(s, before, DecodeJob, process);
      match events[|events| - 1]
      case Pop(popped) =>
        if popped.Decoded? {
          assert DecodeJob(popped.job).Accepted? <==> DecodeJobAsWritten(popped.job).Accepted?;
        }
      case Finish(k) =>
    }
  }

  // The run as written: the first decoded entry the written decoding cannot
  // handle ends the worker loop with its permit still taken. The job tasks
  // already started go on finishing; nothing is popped any more.

  /** One pop as written: the state after it, and the exception it raises. */
  function PopStepAsWritten(s: WorkerState, popped: Popped, decode: Decoder): (r: (WorkerState, Option<PyError>))
    ensures r.1.Some? <==> s.free > 0 && popped.Decoded? && decode(popped.job).Crashed?
    ensures r.1.Some? ==> r.0 == WorkerState(s.free - 1, s.running, s.finished)
    ensures r.1.None? ==> r.0 == PopStep(s, popped, decode)
  {
    if s.free > 0 && popped.Decoded? && decode(popped.job).Crashed? then
      (WorkerState(s.free - 1, s.running, s.finished), Some(decode(popped.job).error))
    else (PopStep(s, popped, decode), None)
  }

  /** The state after a sequence of events as written, and the exception
      that ended the worker loop, if one did. */
  function RunAsWritten(s: WorkerState, events: seq<Event>, decode: Decoder, process: JobRunner)
    : (WorkerState, Option<PyError>)
    decreases |events|
  {
    if |events| == 0 then (s, None)
    else
      var (t, raised) := RunAsWritten(s, events[..|events| - 1], decode, process);
      match events[|events| - 1]
      case Pop(popped) => if raised.Some? then (t, raised) else PopStepAsWritten(t, popped, decode)
      case Finish(k) => (FinishStep(t, k, process), raised)
  }

  /** One event as written: a run that has not raised stays equal to the
      run that cannot raise, and a raising pop loses one permit. */
  lemma StepAsWrittenLeaks(v: WorkerState, u: WorkerState, raised: Option<PyError>, e: Event,
                           decode: Decoder, process: JobRunner)
    requires raised.None? ==> u == v
    ensures var (t, err) := match e
                            case Pop(popped) => if raised.Some? then (u, raised) else PopStepAsWritten(u, popped, decode)
                            case Finish(k) => (FinishStep(u, k, process), raised);
            && (err.None? ==> raised.None? && t == Step(v, e, decode, process))
            && (err.Some? ==> t.free + |t.running| == u.free + |u.running| - (if raised.Some? then 0 else 1))
  {
  }

  /** As written, a run that raises nowhere is the intended run; once the
      loop has raised, one permit is held by no task for good, so the free
      permits never again reach the capacity. */
  lemma {:induction false} RunAsWrittenLeaks(s: WorkerState, events: seq<Event>, process: JobRunner)
    ensures var (t, raised) := RunAsWritten(s, events, DecodeJobAsWritten, process);
            && (raised.None? ==> t == Run(s, events, DecodeJob, process))
            && (raised.Some? ==> t.free + |t.running| == s.free + |s.running| - 1)
  {
    RunAsWrittenLeaksWith(s, events, DecodeJobAsWritten, process);
    DecodersAgreeOnRuns(s, events, process);
  }

  lemma {:induction false} RunAsWrittenLeaksWith(s: WorkerState, events: seq<Event>, decode: Decoder, process: JobRunner)
    ensures var (t, raised) := RunAsWritten(s, events, decode, process);
            && (raised.None? ==> t == Run(s, events, decode, process))
            && (raised.Some? ==> t.free + |t.running| == s.free + |s.running| - 1)
    decreases |events|
  {
    if |events| > 0 {
      var before := events[..|events| - 1];
      RunAsWrittenLeaksWith(s, before, decode, process);
      RunConservesPermits(s, before, decode, process);
      var (u, raised) := RunAsWritten(s, before, decode, process);
      StepAsWrittenLeaks(Run(s, before, decode, process), u, raised, events[|events| - 1], decode, process);
    }
  }

  /** Once the loop has raised, it stays raised. */
  lemma {:induction false} AsWrittenRaisedStays(s: WorkerState, events: seq<Event>, n: nat, decode: Decoder, process: JobRunner)
    requires n <= |events| && RunAsWritten(s, events[..n], decode, process).1.Some?
    ensures RunAsWritten(s, events, decode, process).1.Some?
    decreases |events|
  {
    if n < |events| {
      assert events[..|events| - 1][..n] == events[..n];
      AsWrittenRaisedStays(s, events[..|events| - 1], n, decode, process);
    } else {
      assert events[..n] == events;
    }
  }

  /** A worker with one permit whose first pop delivers a JSON array never
      has a free permit again, whatever follows; the intended worker gives
      the permit straight back. */
  lemma AsWrittenRunStalls(rest: seq<Event>, process: JobRunner)
    ensures var start := WorkerState(1, [], []);
            var events := [Pop(Decoded(JArr([])))] + rest;
            && RunAsWritten(start, events, DecodeJobAsWritten, process).1.Some?
            && RunAsWritten(start, events, DecodeJobAsWritten, process).0.free <= 0
            && Run(start, [Pop(Decoded(JArr([])))], DecodeJob, process) == start
  {
    var start := WorkerState(1, [], []);
    var first := [Pop(Decoded(JArr([])))];
    var events := first + rest;
    AsWrittenCrashesOnNonObjects();
    assert first[..0] == [];
    assert RunAsWritten(start, first, DecodeJobAsWritten, process).1.Some?;
    assert events[..1] == first;
    AsWrittenRaisedStays(start, events, 1, DecodeJobAsWritten, process);
    RunAsWrittenLeaks(start, events, process);
  }

  class Worker {
    const gate: Semaphore
    /** The job tasks still holding their permit. */
    var running: seq<Job>
    /** The job tasks that have finished, with what processing gave (logged, never raised). */
    var finished: seq<(Job, Result<TranscriptionResponse, PyError>)>

    /** Every permit not free is held by exactly one running job task. */
    ghost predicate Valid()
      reads this, gate
    {
      gate.Valid() && gate.held == |running|
    }

    /** The worker's state as a value. */
    function State(): WorkerState
      reads this, gate
    {
      WorkerState(gate.value, running, finished)
    }

    constructor(gate: Semaphore)
      requires gate.Valid() && gate.held == 0
      ensures Valid() && this.gate == gate && running == [] && finished == []
    {
      this.gate := gate;
      running := [];
      finished := [];
    }

    /** One loop iteration with the intended decoding: the permit goes to a
        new job task for a valid job and is given back otherwise. */
    method Iterate(popped: Popped)
      requires Valid() && gate.value > 0
      modifies this, gate
      ensures Valid() && finished == old(finished)
      ensures popped.Decoded? && DecodeJob(popped.job).Accepted? ==>
                running == old(running) + [DecodeJob(popped.job).job] && gate.value == old(gate.value) - 1
      ensures !(popped.Decoded? && DecodeJob(popped.job).Accepted?) ==>
                running == old(running) && gate.value == old(gate.value)
      ensures State() == PopStep(old(State()), popped, DecodeJob)
    {
      gate.Acquire();
      match popped
      case NoData =>
        gate.Release();
      case Undecodable =>
        gate.Release();
      case Decoded(job) =>
        var decoded := DecodeJob(job);
        if decoded.Accepted? {
          running := running + [decoded.job];
        } else {
          gate.Release();
        }
    }

    /** One loop iteration as written: a decoded entry the written decoding
        cannot handle raises out of the loop while its permit is taken, so that
        permit is never given back. */
    method IterateAsWritten(popped: Popped) returns (raised: Option<PyError>)
      requires Valid() && gate.value > 0
      modifies this, gate
      ensures gate.Valid() && finished == old(finished)
      ensures raised.Some? <==> popped.Decoded? && DecodeJobAsWritten(popped.job).Crashed?
      ensures raised.Some? ==>
                && running == old(running) && gate.value == old(gate.value) - 1
                && gate.value + |running| == gate.capacity - 1
      ensures raised.None? ==> Valid()
      ensures (State(), raised) == PopStepAsWritten(old(State()), popped, DecodeJobAsWritten)
    {
      gate.Acquire();
      raised := None;
      match popped
      case NoData =>
        gate.Release();
      case Undecodable =>
        gate.Release();
      case Decoded(job) =>
        var decoded := DecodeJobAsWritten(job);
        if decoded.Crashed? {
          raised := Some(decoded.error);
        } else if decoded.Accepted? {
          running := running + [decoded.job];
        } else {
          gate.Release();
        }
    }

    /** _run_job_with_slot: processes the job's request, records the outcome
        whatever it is, and gives the job's permit back. It also runs after
        the loop has raised and left a permit held by no task. */
    method RunJobWithSlot(k: nat, process: JobRunner)
      requires gate.Valid() && gate.held >= |running| && k < |running|
      modifies this, gate
      ensures gate.Valid() && gate.held - |running| == old(gate.held - |running|)
      ensures State() == FinishStep(old(State()), k, process)
      ensures running == old(running[..k] + running[k + 1..])
      ensures finished == old(finished) + [(old(running[k]), process(old(running[k]).request))]
      ensures gate.value == old(gate.value) + 1
    {
      var job := running[k];
      var outcome := process(job.request);
      finished := finished + [(job, outcome)];
      running := running[..k] + running[k + 1..];
      gate.Release();
    }
  }

  /** queue_worker over a finite sequence of events, with the intended
      decoding: without a Redis client it raises before touching a permit;
      otherwise a pop runs one iteration once a permit is free (while none
      is, the worker is still waiting and nothing is popped) and a finishing
      task runs to its release. The worker ends in the state Run gives, so
      the free permits and the running tasks add up to the capacity and
      every task is accounted for. */
  method RunWorker(w: Worker, hasClient: bool, events: seq<Event>, process: JobRunner)
    returns (r: Result<(), PyError>)
    requires w.Valid()
    modifies w, w.gate
    ensures w.Valid()
    ensures 0 <= w.gate.value && w.gate.value + |w.running| == w.gate.capacity
    ensures !hasClient ==> r == Failure(WorkerWithoutClient) && w.State() == old(w.State())
    ensures hasClient ==> r == Success(()) && w.State() == Run(old(w.State()), events, DecodeJob, process)
    ensures |w.finished| + |w.running| >= |old(w.finished)| + |old(w.running)|
  {
    if !hasClient {
      return Failure(WorkerWithoutClient);
    }
    ghost var start := w.State();
    for i := 0 to |events|
      invariant w.Valid()
      invariant w.State() == Run(start, events[..i], DecodeJob, process)
      invariant |w.finished| + |w.running| >= |old(w.finished)| + |old(w.running)|
    {
      assert events[..i + 1][..i] == events[..i];
      match events[i]
      case Pop(popped) =>
        if w.gate.value > 0 {
          w.Iterate(popped);
        }
      case Finish(k) =>
        if k < |w.running| {
          w.RunJobWithSlot(k, process);
        }
    }
    assert events[..|events|] == events;
    r := Success(());
  }

  /** queue_worker as written: the first entry the written decoding cannot
      handle raises out of the loop with its permit taken, and the worker
      pops nothing more; the job tasks already running still finish. The
      worker ends in the state RunAsWritten gives. */
  method RunWorkerAsWritten(w: Worker, hasClient: bool, events: seq<Event>, process: JobRunner)
    returns (r: Result<(), PyError>)
    requires w.Valid()
    modifies w, w.gate
    ensures w.gate.Valid()
    ensures !hasClient ==> r == Failure(WorkerWithoutClient) && w.State() == old(w.State())
    ensures hasClient ==>
              var (t, raised) := RunAsWritten(old(w.State()), events, DecodeJobAsWritten, process);
              && w.State() == t
              && (raised.None? ==> r == Success(()) && w.Valid())
              && (raised.Some? ==> r == Failure(raised.value) && w.gate.value + |w.running| == w.gate.capacity - 1)
  {
    if !hasClient {
      return Failure(WorkerWithoutClient);
    }
    ghost var start := w.State();
    var raised: Option<PyError> := None;
    for i := 0 to |events|
      invariant w.gate.Valid()
      invariant (w.State(), raised) == RunAsWritten(start, events[..i], DecodeJobAsWritten, process)
      invariant raised.None? ==> w.Valid()
      invariant raised.Some? ==> w.gate.held == |w.running| + 1
    {
      assert events[..i + 1][..i] == events[..i];
      match events[i]
      case Pop(popped) =>
        if raised.None? && w.gate.value > 0 {
          raised := w.IterateAsWritten(popped);
        }
      case Finish(k) =>
        if k < |w.running| {
          w.RunJobWithSlot(k, process);
        }
    }
    assert events[..|events|] == events;
    r := if raised.Some? then Failure(raised.value) else Success(());
  }

  /** The start-up of the GPU gate and the consumer: the semaphore starts with
      MAX_CONCURRENCY free permits and no job task; a negative setting makes
      the semaphore's constructor raise. */
  method StartWorker(settings: Settings) returns (w: Worker?, err: Option<PyError>)
    ensures settings.maxConcurrency < 0 ==>
              w == null && err == Some(Raised("ValueError", "Semaphore initial value must be >= 0"))
    ensures settings.maxConcurrency >= 0 ==>
              && err.None? && w != null && fresh(w) && fresh(w.gate) && w.Valid()
              && w.gate.capacity == settings.maxConcurrency && w.gate.value == settings.maxConcurrency
              && w.running == [] && w.finished == []
  {
    if settings.maxConcurrency < 0 {
      return null, Some(Raised("ValueError", "Semaphore initial value must be >= 0"));
    }
    var gate := new Semaphore(settings.maxConcurrency);
    w := new Worker(gate);
    err := None;
  }
}
