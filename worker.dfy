/**
 * The worker: dispatch of the minimum-score job, execution through the
 * handler registry, and the retry policy. The pure functions below state one
 * loop iteration on a snapshot of the backends; the JobWorker class performs
 * it on the broker and the store and is proved against them.
 */
module Worker {
  import opened Wrappers
  import opened Config
  import opened Models
  import opened Broker
  import opened Store
  import opened Backends

  /** Seconds the loop sleeps when no job was dispatched. */
  const POLL_INTERVAL: nat := 2

  /** The error recorded when a handler reports failure without raising. */
  const EXECUTION_FAILED: string := "Job execution failed"

  /** The registered handlers, one per known job type. */
  datatype Handler = SendEmail | ProcessData | GenerateReport

  function HandlerFor(jobType: string): Option<Handler>
  {
    if jobType == "send_email" then Some(SendEmail)
    else if jobType == "process_data" then Some(ProcessData)
    else if jobType == "generate_report" then Some(GenerateReport)
    else None
  }

  /** What running a handler produced: a boolean result or a raised error. */
  datatype ExecOutcome = Returned(success: bool) | Raised(message: string)

  /**
   * Kind dispatch. `handlerOutcome` is what the registered handler does with
   * the payload (the handlers themselves are not modelled); an unknown job
   * type reports failure without running anything.
   */
  function ExecuteJob(jobType: string, handlerOutcome: ExecOutcome): (o: ExecOutcome)
    ensures HandlerFor(jobType).None? ==> o == Returned(false)
    ensures HandlerFor(jobType).Some? ==> o == handlerOutcome
  {
    if HandlerFor(jobType).Some? then handlerOutcome else Returned(false)
  }

  /** How processing a job ended. */
  datatype Completion = Done | Retrying(delay: nat) | GaveUp

  /** What one iteration of the loop did; `id` is the entry the broker handed out. */
  datatype Event = Idle | Dropped(id: string) | Ran(id: string, result: Completion)

  /**
   * The environment of one loop iteration: the clock readings at pick and at
   * finish, and what the job's handler would do if a job is run.
   */
  datatype Tick = Tick(pickTime: string, finishTime: string, handlerOutcome: ExecOutcome)

  /** The retry policy applied to a failed job: the job's new state and the decision. */
  function AfterFailure(r: JobRecord, message: string, now: string): (JobRecord, Completion)
  {
    var failed := FailedRecord(r, message, now);
    if failed.retryCount < MAX_RETRIES then
      (failed.(status := Pending), Retrying(RETRY_DELAYS[failed.retryCount - 1]))
    else
      (failed, GaveUp)
  }

  /** The job's new state after its handler returned `outcome`. */
  function AfterExecution(r: JobRecord, outcome: ExecOutcome, now: string): (JobRecord, Completion)
  {
    match outcome
    case Returned(success) =>
      if success then (CompletedRecord(r, now), Done) else AfterFailure(r, EXECUTION_FAILED, now)
    case Raised(message) => AfterFailure(r, message, now)
  }

  /**
   * One loop iteration after the broker handed out `id`: the entry is gone;
   * a missing or non-pending job is dropped; a pending one is picked, run,
   * and either completed, re-queued with its priority's score, or given up.
   */
  function StepWith(s: Sys, id: string, tick: Tick): (Sys, Event)
  {
    var queue := s.queue - {id};
    if id in s.rows && s.rows[id].status == Pending then
      var picked := PickedRecord(s.rows[id], tick.pickTime);
      var (finished, result) :=
        AfterExecution(picked, ExecuteJob(picked.jobType, tick.handlerOutcome), tick.finishTime);
      var queue' := if result.Retrying? then queue[id := Score(finished.priority)] else queue;
      (Sys(queue', s.rows[id := picked][id := finished]), Ran(id, result))
    else
      (Sys(queue, s.rows), Dropped(id))
  }

  /**
   * One loop iteration: idle exactly when the broker is empty, otherwise
   * StepWith on the minimum entry the event names.
   */
  ghost predicate Step(s: Sys, s': Sys, tick: Tick, event: Event)
  {
    if event.Idle? then
      |s.queue| == 0 && s' == s
    else
      IsMin(s.queue, event.id) && StepWith(s, event.id, tick) == (s', event)
  }

  /** `trace` is a run of the loop producing `events`, one iteration per tick. */
  ghost predicate Chain(trace: seq<Sys>, events: seq<Event>, ticks: seq<Tick>)
  {
    && |trace| == |events| + 1
    && |ticks| == |events|
    && forall k :: 0 <= k < |events| ==> Step(trace[k], trace[k + 1], ticks[k], events[k])
  }

  /** Seconds the loop sleeps after an iteration: the poll interval when nothing ran, the backoff on a retry. */
  function Slept(event: Event): nat
  {
    match event
    case Idle => POLL_INTERVAL
    case Dropped(_) => POLL_INTERVAL
    case Ran(_, result) => if result.Retrying? then result.delay else 0
  }

  /** The backoff delays slept during a run, in order. */
  function Delays(events: seq<Event>): seq<nat>
  {
    if events == [] then []
    else
      (if events[0].Ran? && events[0].result.Retrying? then [events[0].result.delay] else [])
      + Delays(events[1..])
  }

  /**
   * A failure always costs exactly one attempt and records its error; the job
   * is re-queued as pending, with the backoff for that attempt, exactly when
   * attempts remain, and is otherwise left failed.
   */
  lemma FailureOutcome(r: JobRecord, message: string, now: string)
    ensures var (f, result) := AfterFailure(r, message, now);
      && f == FailedRecord(r, message, now).(status := f.status)
      && f.retryCount == r.retryCount + 1
      && (result.Retrying? <==> r.retryCount + 1 < MAX_RETRIES)
      && (result.Retrying? ==> f.status == Pending && result.delay == RETRY_DELAYS[r.retryCount])
      && (!result.Retrying? ==> result == GaveUp && f.status == Failed)
  {
  }

  /** Success completes the job and leaves its attempt count alone. */
  lemma SuccessOutcome(r: JobRecord, now: string)
    ensures AfterExecution(r, Returned(true), now) == (CompletedRecord(r, now), Done)
    ensures AfterExecution(r, Returned(true), now).0.retryCount == r.retryCount
  {
  }

  /** A retry never reads the last backoff entry: only the first MAX_RETRIES - 1 are used. */
  lemma RetryDelayIndexBelowLast(r: JobRecord, message: string, now: string)
    requires AfterFailure(r, message, now).1.Retrying?
    ensures 0 <= r.retryCount < MAX_RETRIES - 1
    ensures AfterFailure(r, message, now).1.delay == RETRY_DELAYS[r.retryCount]
  {
  }

  /** From a consistent state the dispatched entry always names a pending job. */
  lemma ConsistentStepRuns(s: Sys, id: string, tick: Tick)
    requires Consistent(s) && IsMin(s.queue, id)
    ensures StepWith(s, id, tick).1.Ran?
  {
    assert id in s.rows && s.rows[id].status == Pending;
  }

  /** The finished job keeps its id and priority and ends in a quiescent, bounded state. */
  lemma AfterExecutionBounded(r: JobRecord, outcome: ExecOutcome, now: string)
    requires r.status == Processing && r.retryCount < MAX_RETRIES
    ensures var (f, result) := AfterExecution(r, outcome, now);
      && f.jobId == r.jobId && f.priority == r.priority
      && f.status != Processing
      && RetryBounded(f)
      && (f.status == Pending <==> result.Retrying?)
  {
  }

  /** An iteration from a consistent state leads to a consistent state. */
  lemma StepWithKeepsConsistent(s: Sys, id: string, tick: Tick)
    requires Consistent(s) && IsMin(s.queue, id)
    ensures Consistent(StepWith(s, id, tick).0)
  {
    var picked := PickedRecord(s.rows[id], tick.pickTime);
    var outcome := ExecuteJob(picked.jobType, tick.handlerOutcome);
    AfterExecutionBounded(picked, outcome, tick.finishTime);
    var (finished, result) := AfterExecution(picked, outcome, tick.finishTime);
    var s' := StepWith(s, id, tick).0;
    assert s'.rows == s.rows[id := finished];
    assert s'.queue == if result.Retrying? then (s.queue - {id})[id := Score(finished.priority)] else s.queue - {id};
  }

  lemma StepKeepsConsistent(s: Sys, s': Sys, tick: Tick, event: Event)
    requires Consistent(s) && Step(s, s', tick, event)
    ensures Consistent(s')
  {
    if !event.Idle? {
      StepWithKeepsConsistent(s, event.id, tick);
    }
  }

  /**
   * When the broker holds a high-priority job, the dispatched entry is a
   * high-priority job: no low-priority job overtakes it.
   */
  lemma HighDispatchedBeforeLow(s: Sys, id: string, high: string)
    requires Consistent(s) && IsMin(s.queue, id)
    requires high in s.queue && s.rows[high].priority == High
    ensures s.rows[id].priority == High
  {
    PriorityScoreTable();
    assert s.queue[id] <= s.queue[high];
  }

  /** One iteration on a broker holding only `id`, whose handler fails. */
  lemma FailingStepOnSoleJob(s: Sys, s': Sys, tick: Tick, event: Event, id: string)
    requires s.queue.Keys == {id}
    requires id in s.rows && s.rows[id].status == Pending && s.rows[id].retryCount < MAX_RETRIES
    requires ExecuteJob(s.rows[id].jobType, tick.handlerOutcome) != Returned(true)
    requires Step(s, s', tick, event)
    ensures event.Ran? && event.id == id
    ensures id in s'.rows
    ensures s'.rows[id].jobType == s.rows[id].jobType
    ensures s'.rows[id].retryCount == s.rows[id].retryCount + 1
    ensures s.rows[id].retryCount + 1 < MAX_RETRIES ==>
      && event.result == Retrying(RETRY_DELAYS[s.rows[id].retryCount])
      && s'.queue.Keys == {id}
      && s'.rows[id].status == Pending
    ensures s.rows[id].retryCount + 1 == MAX_RETRIES ==>
      && event.result == GaveUp
      && s'.queue == map[]
      && s'.rows[id].status == Failed
  {
    assert id in s.queue;
    assert !event.Idle?;
    assert event.id == id;
    var picked := PickedRecord(s.rows[id], tick.pickTime);
    var outcome := ExecuteJob(picked.jobType, tick.handlerOutcome);
    var message := if outcome.Raised? then outcome.message else EXECUTION_FAILED;
    assert AfterExecution(picked, outcome, tick.finishTime) == AfterFailure(picked, message, tick.finishTime);
    FailureOutcome(picked, message, tick.finishTime);
    assert (s.queue - {id}).Keys == {};
  }

  lemma ChainTail(trace: seq<Sys>, events: seq<Event>, ticks: seq<Tick>)
    requires Chain(trace, events, ticks) && |events| > 0
    ensures Chain(trace[1..], events[1..], ticks[1..])
    ensures Step(trace[0], trace[1], ticks[0], events[0])
  {
    forall k | 0 <= k < |events| - 1
      ensures Step(trace[1..][k], trace[1..][k + 1], ticks[1..][k], events[1..][k])
    {
      assert Step(trace[k + 1], trace[k + 2], ticks[k + 1], events[k + 1]);
    }
  }

  /** Every state of a run that starts consistent is consistent. */
  lemma {:induction false} ChainKeepsConsistent(trace: seq<Sys>, events: seq<Event>, ticks: seq<Tick>)
    requires Chain(trace, events, ticks) && Consistent(trace[0])
    ensures forall k :: 0 <= k < |trace| ==> Consistent(trace[k])
    decreases |events|
  {
    if |events| > 0 {
      ChainTail(trace, events, ticks);
      StepKeepsConsistent(trace[0], trace[1], ticks[0], events[0]);
      ChainKeepsConsistent(trace[1..], events[1..], ticks[1..]);
      forall k | 0 < k < |trace|
        ensures Consistent(trace[k])
      {
        assert trace[k] == trace[1..][k - 1];
      }
    }
  }

  /** Appending one step to a chain gives a chain. */
  lemma ChainExtend(trace: seq<Sys>, events: seq<Event>, ticks: seq<Tick>,
                    s': Sys, tick: Tick, event: Event)
    requires Chain(trace, events, ticks)
    requires Step(trace[|trace| - 1], s', tick, event)
    ensures Chain(trace + [s'], events + [event], ticks + [tick])
  {
    var trace', events', ticks' := trace + [s'], events + [event], ticks + [tick];
    forall k | 0 <= k < |events'|
      ensures Step(trace'[k], trace'[k + 1], ticks'[k], events'[k])
    {
      if k < |events| {
        assert trace'[k] == trace[k] && trace'[k + 1] == trace[k + 1];
        assert ticks'[k] == ticks[k] && events'[k] == events[k];
      }
    }
  }

  /**
   * A job alone in the broker whose handler always fails is run once per
   * remaining attempt, sleeps the backoff of each attempt but the last, and
   * ends failed with MAX_RETRIES attempts and no broker entry.
   */
  lemma {:induction false} AlwaysFailingJobGivesUp(trace: seq<Sys>, events: seq<Event>,
                                                   ticks: seq<Tick>, id: string)
    requires Chain(trace, events, ticks)
    requires trace[0].queue.Keys == {id}
    requires id in trace[0].rows && trace[0].rows[id].status == Pending
    requires trace[0].rows[id].retryCount < MAX_RETRIES
    requires |events| == MAX_RETRIES - trace[0].rows[id].retryCount
    requires forall k :: 0 <= k < |ticks| ==>
               ExecuteJob(trace[0].rows[id].jobType, ticks[k].handlerOutcome) != Returned(true)
    ensures forall k :: 0 <= k < |events| ==> events[k].Ran? && events[k].id == id
    ensures Delays(events) == RETRY_DELAYS[trace[0].rows[id].retryCount .. MAX_RETRIES - 1]
    ensures trace[|events|].queue == map[]
    ensures id in trace[|events|].rows
    ensures trace[|events|].rows[id].status == Failed
    ensures trace[|events|].rows[id].retryCount == MAX_RETRIES
    decreases |events|
  {
    var c := trace[0].rows[id].retryCount;
    ChainTail(trace, events, ticks);
    FailingStepOnSoleJob(trace[0], trace[1], ticks[0], events[0], id);
    if c + 1 == MAX_RETRIES {
      assert |events| == 1;
      assert Delays(events) == [] + Delays(events[1..]);
    } else {
      forall k | 0 <= k < |ticks[1..]|
        ensures ExecuteJob(trace[1..][0].rows[id].jobType, ticks[1..][k].handlerOutcome) != Returned(true)
      {
        assert ticks[1..][k] == ticks[k + 1];
      }
      AlwaysFailingJobGivesUp(trace[1..], events[1..], ticks[1..], id);
      assert Delays(events) == [RETRY_DELAYS[c]] + Delays(events[1..]);
      assert RETRY_DELAYS[c .. MAX_RETRIES - 1] == [RETRY_DELAYS[c]] + RETRY_DELAYS[c + 1 .. MAX_RETRIES - 1];
      forall k | 0 <= k < |events|
        ensures events[k].Ran? && events[k].id == id
      {
        if k > 0 {
          assert events[k] == events[1..][k - 1];
        }
      }
    }
  }

  /**
   * A newly submitted job whose handler always fails runs exactly MAX_RETRIES
   * times, sleeps the delays RETRY_DELAYS[0 .. MAX_RETRIES - 1], and ends failed.
   */
  lemma NewJobAlwaysFailing(trace: seq<Sys>, events: seq<Event>, ticks: seq<Tick>, id: string)
    requires Chain(trace, events, ticks)
    requires trace[0].queue.Keys == {id}
    requires id in trace[0].rows && trace[0].rows[id].status == Pending
    requires trace[0].rows[id].retryCount == 0
    requires |events| == MAX_RETRIES
    requires forall k :: 0 <= k < |ticks| ==>
               ExecuteJob(trace[0].rows[id].jobType, ticks[k].handlerOutcome) != Returned(true)
    ensures forall k :: 0 <= k < |events| ==> events[k].Ran? && events[k].id == id
    ensures Delays(events) == [1, 4]
    ensures id in trace[MAX_RETRIES].rows
    ensures trace[MAX_RETRIES].rows[id].status == Failed
    ensures trace[MAX_RETRIES].rows[id].retryCount == MAX_RETRIES
    ensures trace[MAX_RETRIES].queue == map[]
  {
    AlwaysFailingJobGivesUp(trace, events, ticks, id);
    assert RETRY_DELAYS[0 .. MAX_RETRIES - 1] == [1, 4];
  }

  class JobWorker {
    const broker: SortedSet
    const db: JobStore

    constructor (broker: SortedSet, db: JobStore)
      ensures this.broker == broker && this.db == db
    {
      this.broker := broker;
      this.db := db;
    }

    /**
     * Pops the minimum-score entry. The entry is consumed in every case; only
     * a job stored as pending is picked, written back as processing and returned.
     * `popped` is the id the broker handed out, if any.
     */
    method GetNextJob(pickTime: string) returns (job: Job?, popped: Option<string>)
      requires db.Valid()
      modifies broker, db
      ensures db.Valid()
      ensures |old(broker.scores)| == 0 ==>
        popped.None? && job == null && broker.scores == old(broker.scores) && db.rows == old(db.rows)
      ensures |old(broker.scores)| > 0 ==>
        popped.Some? && IsMin(old(broker.scores), popped.value)
        && broker.scores == old(broker.scores) - {popped.value}
      ensures job != null ==>
        && popped.Some? && fresh(job)
        && popped.value in old(db.rows) && old(db.rows)[popped.value].status == Pending
        && job.jobId == popped.value
        && job.Record() == PickedRecord(old(db.rows)[popped.value], pickTime)
        && db.rows == old(db.rows)[popped.value := job.Record()]
      ensures job == null ==>
        && db.rows == old(db.rows)
        && (popped.Some? ==> !(popped.value in old(db.rows) && old(db.rows)[popped.value].status == Pending))
    {
      job := null;
      var entry := broker.PopMin();
      if entry.None? {
        return null, None;
      }
      var id := entry.value.0;
      popped := Some(id);
      var stored := db.GetJob(id);
      if stored.Some? && stored.value.status == Pending {
        job := new Job.FromRecord(stored.value);
        job.MarkPicked(pickTime);
        db.UpdateJobStatus(job.Record());
      }
    }

    /**
     * Applies the retry policy to a failed job: one more attempt is counted;
     * with attempts left the job is stored as pending and re-added with its
     * priority's score after the backoff delay (returned), otherwise stored as failed.
     */
    method HandleJobFailure(job: Job, message: string, now: string) returns (result: Completion)
      requires db.Valid()
      modifies job, broker, db
      ensures db.Valid()
      ensures (job.Record(), result) == AfterFailure(old(job.Record()), message, now)
      ensures db.rows == old(db.rows)[job.jobId := job.Record()]
      ensures broker.scores ==
        if result.Retrying? then old(broker.scores)[job.jobId := Score(job.priority)] else old(broker.scores)
    {
      job.MarkFailed(message, now);
      if job.ShouldRetry(MAX_RETRIES) {
        var retryDelay := RETRY_DELAYS[job.retryCount - 1];
        job.status := Pending;
        db.UpdateJobStatus(job.Record());
        // The worker sleeps retryDelay seconds here, before re-adding the job.
        broker.Add(job.jobId, Score(job.priority));
        result := Retrying(retryDelay);
      } else {
        db.UpdateJobStatus(job.Record());
        result := GaveUp;
      }
    }

    /** Runs the job's handler and records success, or hands the failure to the retry policy. */
    method ProcessJob(job: Job, handlerOutcome: ExecOutcome, now: string) returns (result: Completion)
      requires db.Valid()
      modifies job, broker, db
      ensures db.Valid()
      ensures (job.Record(), result) ==
        AfterExecution(old(job.Record()), ExecuteJob(old(job.jobType), handlerOutcome), now)
      ensures db.rows == old(db.rows)[job.jobId := job.Record()]
      ensures broker.scores ==
        if result.Retrying? then old(broker.scores)[job.jobId := Score(job.priority)] else old(broker.scores)
    {
      var outcome := ExecuteJob(job.jobType, handlerOutcome);
      match outcome
      case Returned(success) =>
        if success {
          job.MarkCompleted(now);
          db.UpdateJobStatus(job.Record());
          result := Done;
        } else {
          result := HandleJobFailure(job, EXECUTION_FAILED, now);
        }
      case Raised(message) =>
        result := HandleJobFailure(job, message, now);
    }

    /** One iteration of the polling loop. */
    method RunOnce(tick: Tick) returns (event: Event)
      requires db.Valid()
      modifies broker, db
      ensures db.Valid()
      ensures Step(old(Snapshot(broker, db)), Snapshot(broker, db), tick, event)
    {
      ghost var s0 := Snapshot(broker, db);
      var job, popped := GetNextJob(tick.pickTime);
      if job != null {
        var result := ProcessJob(job, tick.handlerOutcome, tick.finishTime);
        event := Ran(job.jobId, result);
      } else if popped.Some? {
        // Nothing was dispatched: the loop sleeps POLL_INTERVAL seconds.
        event := Dropped(popped.value);
      } else {
        // Nothing was dispatched: the loop sleeps POLL_INTERVAL seconds.
        event := Idle;
      }
    }

    /**
     * The polling loop, run for one iteration per tick. The run is recorded
     * in `trace`, and the backend invariant is kept throughout.
     */
    method Start(ticks: seq<Tick>) returns (events: seq<Event>, ghost trace: seq<Sys>)
      requires db.Valid()
      modifies broker, db
      ensures db.Valid()
      ensures Chain(trace, events, ticks)
      ensures trace[0] == old(Snapshot(broker, db))
      ensures trace[|trace| - 1] == Snapshot(broker, db)
      ensures Consistent(old(Snapshot(broker, db))) ==> Consistent(Snapshot(broker, db))
    {
      events := [];
      trace := [Snapshot(broker, db)];
      var i := 0;
      while i < |ticks|
        invariant 0 <= i <= |ticks|
        invariant db.Valid()
        invariant Chain(trace, events, ticks[..i])
        invariant trace[0] == old(Snapshot(broker, db))
        invariant trace[|trace| - 1] == Snapshot(broker, db)
      {
        ghost var before := Snapshot(broker, db);
        var event := RunOnce(ticks[i]);
        ghost var after := Snapshot(broker, db);
        ChainExtend(trace, events, ticks[..i], after, ticks[i], event);
        assert ticks[..i + 1] == ticks[..i] + [ticks[i]];
        events := events + [event];
        trace := trace + [after];
        i := i + 1;
      }
      assert ticks[..i] == ticks;
      if Consistent(trace[0]) {
        ChainKeepsConsistent(trace, events, ticks);
      }
    }
  }
}
