# Priority job queue: job lifecycle model

This project models the core of a small priority job queue. An HTTP API
validates submitted jobs, stores each one as a `pending` record and inserts its
id into a broker sorted set, scored by priority (`high` = 1, `low` = 2). A
single worker loop pops the minimum-score id and checks that the stored record
is still pending. It marks the job `processing`, runs the handler for its job
type, and then either:

- completes the job, or
- counts a failed attempt and re-queues the job as `pending` after a backoff
  delay, or
- leaves the job `failed` once `MAX_RETRIES` attempts are spent.

The API also reports a status histogram and a job listing.

Modules, in dependency order:

- `Config` (`config.dfy`): the policy constants `MAX_RETRIES`, `RETRY_DELAYS` and `PRIORITY_SCORES`, and lemmas about the tables.
- `Models` (`models.dfy`): contains
  - the JSON-like `Value` and Python truthiness;
  - the `JobRecord` value with the transitions of the state machine on it;
  - the stored dictionary form (`ToDict`/`FromDict`) and its round trip;
  - the mutable `Job` class, whose `Mark*` methods update its fields in place.
- `Broker` (`broker.dfy`): the sorted set as a class over `map<string, int>`. `PopMin` removes a minimum-score member; among equal scores the choice is left open.
- `Store` (`store.dfy`): the record store as a class over `map<string, JobRecord>`. `SaveJob` is insert-or-replace, and `GetAllJobs` lists every row once.
- `Backends` (`backends.dfy`): a snapshot `Sys` of both backends and the invariant `Consistent`, which holds at quiescent points. It requires:
  - every row is filed under its own id;
  - an id is queued exactly when its job is pending;
  - queued ids carry their priority's score;
  - no job is processing;
  - failed jobs have exactly `MAX_RETRIES` attempts, and all others have fewer.
- `Worker` (`worker.dfy`): one loop iteration as a function `StepWith` and a relation `Step` on snapshots, with runs of them as `Chain`. The `JobWorker` class performs the iterations on the two backends and is proved against `Step`.
- `App` (`app.dfy`): the submit endpoint (`Validate`, `Submitted`, `SubmitJob`), the statistics endpoint (`QueueStats`) and the listing endpoint (`ListJobs`).

Inputs the program takes from its environment are parameters:

- the clock readings (`now`, and `Tick.pickTime`/`Tick.finishTime`);
- the generated UUID (`freshId`);
- whether the record store accepted the API's write (`saveSucceeds`);
- what a job's handler does (`Tick.handlerOutcome`: it returns a boolean or raises with a message).

The worker loop `Start` runs one iteration per element of a finite `ticks` sequence.

Points of the code's behaviour that the model keeps as written:

- A stale or missing broker entry is consumed. `get_next_job` then returns `None` and the loop sleeps `POLL_INTERVAL` seconds before polling again (`Worker.Slept`).
- On the retry path no `failed` snapshot is written. The only write is `pending`, before the backoff sleep and the re-insert.
- The statuses are `pending`, `processing`, `completed` and `failed`. A job that has given up is `failed`.
- Of the three `RETRY_DELAYS`, only the first two are ever slept (`Worker.RetryDelayIndexBelowLast`).

## Model

| member | source | states |
|---|---|---|
| Config.RetryDelayTable | config.py:13-14 | the backoff table has exactly MAX_RETRIES entries, all positive and strictly increasing |
| Config.PriorityScoreTable | config.py:19-23 | the score table is defined for exactly "high" and "low"; high scores lower than low; distinct priorities have distinct scores |
| Config.ParsePriorityMatchesTable | config.py:20-23 | a priority string is accepted exactly when it is a key of the score table, and it names the priority it parses to |
| Config.PriorityNameRoundTrip | config.py:20-23 | every priority's name parses back to that priority |
| Models.Job.constructor | models.py:7-18 | a new job keeps a supplied non-empty id and otherwise takes the fresh id; it is pending with no attempts and no pick time, end time or error |
| Models.ToDict | models.py:20-33 | the stored form has exactly the ten field keys |
| Models.FromDict | models.py:39-54 | a successful read needs every field key and keeps the payload as stored |
| Models.FromDictReadsFields | models.py:39-54 | for any stored form that reads successfully, every field of the job comes from its own key, and a false-valued id becomes the fresh id |
| Models.FromDictInvertsToDict | models.py:20-54 | reading back the stored form of a job with a non-empty id reproduces every field |
| Models.FromDictReplacesEmptyId | models.py:9 | a false-valued stored id is replaced by a fresh id on reading; every other field survives |
| Models.StatusNameRoundTrip | models.py:48 | every status name parses back to that status |
| Models.Job.FromRecord | models.py:42-54 | the rebuilt job object holds exactly the stored fields |
| Models.PickedRecord | models.py:62-65 | picking keeps the job's identity, sets processing and the pick time, and leaves attempts, end time and error unchanged |
| Models.Job.MarkPicked | models.py:62-65 | the object's new fields are the picked transition of its old fields |
| Models.CompletedRecord | models.py:67-70 | completing keeps identity and pick time, sets completed and the end time, and leaves attempts and error unchanged |
| Models.Job.MarkCompleted | models.py:67-70 | the object's new fields are the completed transition of its old fields |
| Models.FailedRecord | models.py:72-77 | failing keeps identity and pick time, sets failed, the error and the end time, and counts exactly one more attempt |
| Models.Job.MarkFailed | models.py:72-77 | the object's new fields are the failed transition of its old fields |
| Broker.MinExists | worker.py:42 | a non-empty sorted set has a member of minimum score |
| Broker.SortedSet.PopMin | worker.py:42 | an empty set yields nothing and is unchanged; otherwise a minimum-score member is returned with its score and removed, and nothing else changes |
| Broker.SortedSet.Add | worker.py:176-177 | the member is inserted or rescored and no other member changes |
| Store.JobStore.SaveJob | database.py:31-49 | on success the row is inserted or replaced under the job's id; on failure nothing changes; the result reports which happened |
| Store.JobStore.UpdateJobStatus | database.py:108-110 | the worker's write replaces the job's row and touches no other row |
| Store.JobStore.GetAllJobs | database.py:79-106 | the result lists every stored job exactly once, as stored; the order is left open |
| Store.ListingSize | database.py:79-106 | a listing has as many entries as the store has rows |
| Worker.ExecuteJob | worker.py:81-91 | a registered job type yields its handler's outcome; an unknown job type reports failure without running a handler |
| Worker.SuccessOutcome | worker.py:71-74 | handler success completes the job, keeps its attempt count, and does not re-queue it |
| Worker.FailureOutcome | worker.py:153-182 | a failure records its error and exactly one more attempt; the job is re-queued as pending, with that attempt's backoff, exactly when attempts remain; otherwise it is left failed |
| Worker.RetryDelayIndexBelowLast | worker.py:164-165 | a retry reads the backoff index retryCount - 1 < MAX_RETRIES - 1, always in range and never the last entry |
| Worker.AfterExecutionBounded | worker.py:67-79 | whatever the handler does, the finished job keeps its id and priority, is no longer processing, stays within the retry bound, and is pending exactly when it is re-queued |
| Worker.ConsistentStepRuns | worker.py:44-53 | from a consistent state the popped minimum always names a pending job, so it is run and never dropped |
| Worker.HighDispatchedBeforeLow | worker.py:42 | while a high-priority job is queued, the job dispatched is high priority |
| Worker.StepWithKeepsConsistent | worker.py:38-79 | one iteration on the minimum entry keeps the backends consistent |
| Worker.StepKeepsConsistent | worker.py:27-32 | every loop iteration, idle, dropped or run, keeps the backends consistent |
| Worker.ChainKeepsConsistent | worker.py:27-32 | every state of a run of the loop that starts consistent is consistent |
| Worker.FailingStepOnSoleJob | worker.py:153-182 | a failing run of the only queued job counts one attempt; it re-queues the job as pending with that attempt's delay when attempts remain, and otherwise leaves it failed with an empty queue |
| Worker.AlwaysFailingJobGivesUp | worker.py:153-182 | a lone job whose handler always fails is run once per remaining attempt, sleeps each backoff but the last, and ends failed with MAX_RETRIES attempts and no queue entry |
| Worker.NewJobAlwaysFailing | worker.py:153-182 | a new job whose handler always fails runs exactly MAX_RETRIES times, sleeps 1 s then 4 s, and ends failed with MAX_RETRIES attempts |
| Worker.JobWorker.GetNextJob | worker.py:38-58 | the minimum entry is always consumed; only a job stored as pending is returned, picked and written back; a missing or non-pending job changes no row and nothing is re-inserted |
| Worker.JobWorker.HandleJobFailure | worker.py:153-182 | the job's new state and the decision are the retry policy applied to its old state; only its row is written; it is re-added with its priority's score exactly when retrying |
| Worker.JobWorker.ProcessJob | worker.py:60-79 | the job's new state is the outcome of dispatching its handler; only its row is written; it is re-inserted only on retry |
| Worker.JobWorker.RunOnce | worker.py:27-32 | one iteration of the loop on the live backends is a Step of their snapshot |
| Worker.JobWorker.Start | worker.py:19-36 | the iterations form a run of Steps from the initial backends to the final ones, and a consistent start stays consistent |
| App.FirstMissing | app.py:47-50 | on an object body the result is the first listed field absent from it, or none exactly when all are present |
| App.Validate | app.py:41-61 | a false-valued body is exactly the no-data error; a body is accepted exactly when it is an object with all required fields, a valid priority and a valid job type, and the request carries those values; validation never reports a failed save; object bodies never raise |
| App.ValidationOrder | app.py:44-61 | the first absent field in the order job_type, priority, payload is named; the priority is checked only when all are present, and the job type only after a valid priority |
| App.ValidTypesHaveHandlers | app.py:57-58 | the job types the API accepts are exactly those the worker has a handler for |
| App.SampleAccepted | test_api.py:31-39 | the sample high-priority email job, with its full payload, validates to the expected request |
| App.SampleRejected | test_api.py:158-175 | the sample with only a job type, the "medium" priority and the unknown job type are refused with 400 for missing priority, bad priority and bad job type |
| App.SubmittedOutcome | app.py:63-86 | a job is created exactly when it validates and is saved; it is then stored pending with no attempts under the fresh id, queued with its priority's score, and reported pending; other rows are untouched; an unsaved or invalid job changes nothing |
| App.SubmitResponseCode | app.py:44-90 | a submission answers 201 exactly when it validates and is saved; 500 exactly when a valid job is not saved or the body makes the handler raise; 400 for every other refusal of an object body |
| App.SubmitKeepsConsistent | app.py:70-76 | a submission under an unused id keeps the backends consistent |
| App.SubmitJob | app.py:38-90 | the live endpoint's new backends and response are those of Submitted; the queue is touched only after a successful save |
| App.CountsPartition | app.py:153-161 | the per-status counts of a list of jobs add up to its length |
| App.CountOfListing | app.py:153-156 | counting a status over a listing of the store gives the number of stored jobs with that status |
| App.StatusCounts | app.py:154-156 | the histogram has a key exactly for each status that occurs, holding its number of jobs |
| App.QueueStats | app.py:146-162 | reports the broker's size, the number of stored jobs, and per status the number of stored jobs with it; the counts sum to the total |
| App.ListEntrySummarisesStoredForm | app.py:124-135 | a listed job's fields are its stored form without payload and error message |
| App.SummariesOfListing | app.py:122-135 | the summaries of a listing summarise each stored job, and only stored jobs |
| App.ListJobs | app.py:118-140 | one entry per stored job, each a stored job's summary, and the reported total equals the number of entries and of stored jobs |

## Left out

- Printing and the alert message in `handle_job_failure`.
- The `failed_jobs.log` append: the model assumes the write succeeds. If opening the log raised, `process_job` would catch the exception and call `handle_job_failure` a second time, counting a second attempt. That call would raise again and stop the worker, leaving the job's row `processing`. Log-file errors are out of scope.
- `time.sleep`: the poll interval (`POLL_INTERVAL`) is named, and the backoff delay is returned as `Retrying(delay)`, but no time passes.
- `datetime.now()`, `uuid4()` and the handlers' `random` failure rates: they are parameters. The handlers `send_email`, `process_data` and `generate_report` are an arbitrary outcome per iteration; the model also allows outcomes the real handlers never produce, such as raising.
- Redis and SQLite errors: the broker and the worker's store writes always succeed. The API's save has an explicit success flag. A failure of the API's `zadd` after a successful save, which would leave a pending job unqueued, is outside the model, and so are `get_job`/`get_all_jobs` swallowing database errors.
- `Models.FromDict`: it is stricter than `from_dict`. Python copies values of any type. The model accepts only a string for the string fields, "high"/"low" for the priority, one of the four status names for the status, and a non-negative number for the attempt count, and treats any other value as a failed read.
- The priority and status are enumerations rather than free strings. A stored record with an unknown priority, which would make `PRIORITY_SCORES[job.priority]` raise inside the worker, cannot be represented.
- JSON encoding of the payload in the store, `to_json`/`from_json`, and `ORDER BY created_at DESC`: the listing order is left open.
- `App.QueueStats`: `status_counts` is keyed by the status value. The conversion of the keys to strings for the response (`StatusName`) is not part of the model.
- `App.ListJobs`: a listing entry is the `Summary` datatype. Its dictionary form is `SummaryFields`.
- Flask plumbing, the response bodies' `message` text, `get_job_status`, `health_check` and `run_worker.py`.
- JSON floats: `Value` has integers only. A float body such as `0.0` (refused with 400 as empty) or `1.5` (500), and float values inside payloads, cannot be represented.
- A request body that is not valid JSON makes Flask's `get_json` raise. That path is not modelled; the body parameter is the decoded value.
- `KeyboardInterrupt` and `self.running`: the loop runs a finite number of iterations, one per tick. Concurrent workers are out of scope.
- `Models.Job.ShouldRetry` has no contract of its own. Its use, retrying exactly while `retryCount < MAX_RETRIES`, is stated by `Worker.FailureOutcome` and `Worker.JobWorker.HandleJobFailure`.
- `Store.JobStore.GetJob` has no contract of its own. Its result is stated through `Worker.JobWorker.GetNextJob`.
