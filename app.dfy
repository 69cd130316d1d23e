/**
 * The HTTP API's core: validation and enqueueing of a submitted job, and the
 * counting done by the statistics and listing endpoints.
 */
module App {
  import opened Wrappers
  import opened Config
  import opened Models
  import opened Broker
  import opened Store
  import opened Backends
  import opened Worker

  const VALID_JOB_TYPES: seq<string> := ["send_email", "process_data", "generate_report"]

  /** Checked for presence in this order; the first one absent is reported. */
  const REQUIRED_FIELDS: seq<string> := ["job_type", "priority", "payload"]

  /** Why a submission was refused. */
  datatype SubmitError =
    | NoJsonData
    | MissingField(field: string)
    | BadPriority
    | BadJobType
    | SaveFailed
    /** An exception escaped the request handler (a request body of an unexpected kind). */
    | InternalError

  function ErrorMessage(e: SubmitError): string
  {
    match e
    case NoJsonData => "No JSON data provided"
    case MissingField(field) => "Missing field: " + field
    case BadPriority => "Priority must be \"high\" or \"low\""
    case BadJobType => "Invalid job_type. Valid types: ['send_email', 'process_data', 'generate_report']"
    case SaveFailed => "Failed to save job to database"
    case InternalError => "Internal server error"
  }

  /** Malformed requests are the client's fault; a failed save or an escaped exception is the server's. */
  function ErrorCode(e: SubmitError): (code: int)
    ensures code == 400 || code == 500
    ensures code == 500 <==> (e == SaveFailed || e == InternalError)
  {
    if e == SaveFailed || e == InternalError then 500 else 400
  }

  /** The fields of an accepted submission. */
  datatype Request = Request(jobType: string, priority: Priority, payload: Value)

  datatype Response =
    | Created(jobId: string, status: string, priority: string, jobType: string)
    | Rejected(error: SubmitError)

  function ResponseCode(resp: Response): int
  {
    match resp
    case Created(_, _, _, _) => 201
    case Rejected(e) => ErrorCode(e)
  }

  /** `p` occurs in `s` as a contiguous substring. */
  predicate IsSubstring(p: string, s: string)
    decreases |s|
  {
    p <= s || (|s| > 0 && IsSubstring(p, s[1..]))
  }

  /**
   * The membership test `field in data`: a key of an object, an element of a
   * list, a substring of a string. On any other kind of value it raises (None).
   */
  function Contains(data: Value, field: string): Option<bool>
  {
    match data
    case Obj(fields) => Some(field in fields)
    case Arr(items) => Some(Str(field) in items)
    case Str(s) => Some(IsSubstring(field, s))
    case _ => None
  }

  /** The first of `fields` absent from `data`, if any; an error if the test raises. */
  function FirstMissing(data: Value, fields: seq<string>): (r: Result<Option<string>, SubmitError>)
    ensures r.Err? ==> r.error == InternalError
    ensures data.Obj? ==> r.Ok?
    ensures data.Obj? ==> (r == Ok(None) <==> forall i :: 0 <= i < |fields| ==> fields[i] in data.fields)
    ensures data.Obj? && r.Ok? && r.value.Some? ==>
      exists k :: 0 <= k < |fields| && fields[k] == r.value.value && fields[k] !in data.fields
                  && forall j :: 0 <= j < k ==> fields[j] in data.fields
  {
    if fields == [] then Ok(None)
    else
      match Contains(data, fields[0])
      case None => Err(InternalError)
      case Some(present) =>
        if !present then Ok(Some(fields[0]))
        else
          var rest := FirstMissing(data, fields[1..]);
          assert data.Obj? && rest.Ok? && rest.value.Some? ==>
            exists k :: 1 <= k < |fields| && fields[k] == rest.value.value && fields[k] !in data.fields
                        && forall j :: 0 <= j < k ==> fields[j] in data.fields
          by {
            if data.Obj? && rest.Ok? && rest.value.Some? {
              var k :| 0 <= k < |fields[1..]| && fields[1..][k] == rest.value.value && fields[1..][k] !in data.fields
                       && forall j :: 0 <= j < k ==> fields[1..][j] in data.fields;
              assert forall j :: 1 <= j < k + 1 ==> fields[j] == fields[1..][j - 1];
            }
          }
          rest
  }

  predicate HasRequiredFields(fields: map<string, Value>)
  {
    "job_type" in fields && "priority" in fields && "payload" in fields
  }

  /**
   * The checks of a submission, in order: a body at all, the required fields,
   * the priority, the job type. Indexing a list or string body by a field name
   * raises, which the handler reports as an internal error.
   */
  function Validate(body: Value): (r: Result<Request, SubmitError>)
    ensures Falsy(body) <==> r == Err(NoJsonData)
    ensures r.Ok? <==>
      && body.Obj?
      && HasRequiredFields(body.fields)
      && body.fields["priority"] in [Str("high"), Str("low")]
      && body.fields["job_type"] in [Str("send_email"), Str("process_data"), Str("generate_report")]
    ensures r.Ok? ==>
      && body.Obj? && HasRequiredFields(body.fields)
      && Str(r.value.jobType) == body.fields["job_type"]
      && Str(PriorityName(r.value.priority)) == body.fields["priority"]
      && r.value.payload == body.fields["payload"]
    ensures body.Obj? ==> r != Err(InternalError)
    ensures r != Err(SaveFailed)
  {
    if Falsy(body) then Err(NoJsonData)
    else
      match FirstMissing(body, REQUIRED_FIELDS)
      case Err(e) => Err(e)
      case Ok(missing) =>
        if missing.Some? then Err(MissingField(missing.value))
        else if !body.Obj? then Err(InternalError)
        else
          assert REQUIRED_FIELDS[0] in body.fields && REQUIRED_FIELDS[1] in body.fields
              && REQUIRED_FIELDS[2] in body.fields;
          var priority := body.fields["priority"];
          var jobType := body.fields["job_type"];
          if !(priority.Str? && ParsePriority(priority.s).Some?) then Err(BadPriority)
          else if !(jobType.Str? && jobType.s in VALID_JOB_TYPES) then Err(BadJobType)
          else
            ParsePriorityMatchesTable(priority.s);
            Ok(Request(jobType.s, ParsePriority(priority.s).value, body.fields["payload"]))
  }

  /**
   * The checks run in order on an object body: the first absent required field
   * is named, and only with all fields present is the priority checked, and
   * the job type only after a valid priority.
   */
  lemma ValidationOrder(body: Value)
    requires body.Obj? && body.fields != map[]
    ensures "job_type" !in body.fields ==> Validate(body) == Err(MissingField("job_type"))
    ensures "job_type" in body.fields && "priority" !in body.fields ==>
              Validate(body) == Err(MissingField("priority"))
    ensures "job_type" in body.fields && "priority" in body.fields && "payload" !in body.fields ==>
              Validate(body) == Err(MissingField("payload"))
    ensures HasRequiredFields(body.fields) ==>
              && (body.fields["priority"] !in [Str("high"), Str("low")] ==> Validate(body) == Err(BadPriority))
              && (body.fields["priority"] in [Str("high"), Str("low")]
                  && body.fields["job_type"] !in [Str("send_email"), Str("process_data"), Str("generate_report")]
                  ==> Validate(body) == Err(BadJobType))
  {
    var fs := body.fields;
    assert FirstMissing(body, REQUIRED_FIELDS[2..]) ==
      (if "payload" in fs then Ok(None) else Ok(Some("payload")));
    assert FirstMissing(body, REQUIRED_FIELDS[1..]) ==
      (if "priority" !in fs then Ok(Some("priority")) else FirstMissing(body, REQUIRED_FIELDS[2..]));
    if "priority" in fs {
      var p := fs["priority"];
      assert (p.Str? && ParsePriority(p.s).Some?) <==> p in [Str("high"), Str("low")];
    }
    if "job_type" in fs {
      var t := fs["job_type"];
      assert (t.Str? && t.s in VALID_JOB_TYPES) <==>
             t in [Str("send_email"), Str("process_data"), Str("generate_report")];
    }
  }

  /** A job type passes validation exactly when the worker has a handler for it. */
  lemma ValidTypesHaveHandlers(jobType: string)
    ensures jobType in VALID_JOB_TYPES <==> HandlerFor(jobType).Some?
  {
  }

  /** The first sample submission, with its full payload, is accepted. */
  lemma SampleAccepted()
    ensures Validate(Obj(map["job_type" := Str("send_email"), "priority" := Str("high"),
                             "payload" := Obj(map["to" := Str("user1@example.com"),
                                                  "subject" := Str("High Priority Email"),
                                                  "message" := Str("This is a high priority email!")])]))
            == Ok(Request("send_email", High, Obj(map["to" := Str("user1@example.com"),
                                                      "subject" := Str("High Priority Email"),
                                                      "message" := Str("This is a high priority email!")])))
  {
  }

  /** The sample invalid submissions are each refused with 400, for the reason the samples name. */
  lemma SampleRejected()
    ensures Validate(Obj(map["job_type" := Str("send_email")])) == Err(MissingField("priority"))
    ensures Validate(Obj(map["job_type" := Str("send_email"), "priority" := Str("medium"),
                             "payload" := Obj(map["to" := Str("test@example.com")])]))
            == Err(BadPriority)
    ensures Validate(Obj(map["job_type" := Str("invalid_type"), "priority" := Str("high"),
                             "payload" := Obj(map["data" := Str("test")])]))
            == Err(BadJobType)
    ensures ErrorCode(MissingField("priority")) == 400 && ErrorCode(BadPriority) == 400
    ensures ErrorCode(BadJobType) == 400
  {
    var missing := map["job_type" := Str("send_email")];
    var medium := map["job_type" := Str("send_email"), "priority" := Str("medium"),
                      "payload" := Obj(map["to" := Str("test@example.com")])];
    var invalid := map["job_type" := Str("invalid_type"), "priority" := Str("high"),
                       "payload" := Obj(map["data" := Str("test")])];
    assert "job_type" in missing && "job_type" in medium && "job_type" in invalid;
    ValidationOrder(Obj(missing));
    ValidationOrder(Obj(medium));
    ValidationOrder(Obj(invalid));
  }

  /** The record of a newly accepted job: the constructor's defaults with a generated id. */
  function NewRecord(req: Request, freshId: string, now: string): JobRecord
  {
    JobRecord(freshId, req.jobType, req.priority, req.payload, Pending, 0, now, None, None, None)
  }

  /**
   * The effect of one submission on the backends and the response sent.
   * `saveSucceeds` stands for whether the record store accepted the write.
   */
  function Submitted(s: Sys, body: Value, freshId: string, now: string, saveSucceeds: bool): (Sys, Response)
  {
    match Validate(body)
    case Err(e) => (s, Rejected(e))
    case Ok(req) =>
      var r := NewRecord(req, freshId, now);
      if !saveSucceeds then (s, Rejected(SaveFailed))
      else
        (Sys(s.queue[r.jobId := Score(r.priority)], s.rows[r.jobId := r]),
         Created(r.jobId, StatusName(r.status), PriorityName(r.priority), r.jobType))
  }

  /**
   * A submission is created exactly when it validates and is saved. Then the
   * new job is stored pending with no attempts and queued with its priority's
   * score, and the response reports it pending; otherwise nothing changes.
   */
  lemma SubmittedOutcome(s: Sys, body: Value, freshId: string, now: string, saveSucceeds: bool)
    ensures var (s', resp) := Submitted(s, body, freshId, now, saveSucceeds);
      && (resp.Created? <==> Validate(body).Ok? && saveSucceeds)
      && (resp.Rejected? ==> s' == s)
      && (Validate(body).Ok? && !saveSucceeds ==> resp == Rejected(SaveFailed))
      && (resp.Created? ==>
            && resp.jobId == freshId && resp.status == "pending"
            && freshId in s'.rows && s'.rows[freshId].status == Pending
            && s'.rows[freshId].retryCount == 0
            && s'.rows[freshId].pickedAt == None && s'.rows[freshId].completedAt == None
            && s'.rows[freshId].errorMessage == None
            && body.Obj? && "priority" in body.fields
            && Str(PriorityName(s'.rows[freshId].priority)) == body.fields["priority"]
            && s'.queue == s.queue[freshId := Score(s'.rows[freshId].priority)]
            && (forall id :: id in s.rows && id != freshId ==> id in s'.rows && s'.rows[id] == s.rows[id])
            && s'.rows.Keys == s.rows.Keys + {freshId})
  {
  }

  /** Submitting a job under an unused id keeps the backends consistent. */
  lemma SubmitKeepsConsistent(s: Sys, body: Value, freshId: string, now: string, saveSucceeds: bool)
    requires Consistent(s) && freshId !in s.rows
    ensures Consistent(Submitted(s, body, freshId, now, saveSucceeds).0)
  {
    var s' := Submitted(s, body, freshId, now, saveSucceeds).0;
    if Validate(body).Ok? && saveSucceeds {
      assert freshId !in s.queue;
      var r := NewRecord(Validate(body).value, freshId, now);
      assert s'.rows == s.rows[freshId := r];
      assert s'.queue == s.queue[freshId := Score(r.priority)];
    }
  }

  /**
   * The HTTP status of a submission: 201 exactly when it is created, 500
   * exactly when a valid job could not be saved or the body made the handler
   * raise, and 400 for every refusal of an object body.
   */
  lemma SubmitResponseCode(s: Sys, body: Value, freshId: string, now: string, saveSucceeds: bool)
    ensures var code := ResponseCode(Submitted(s, body, freshId, now, saveSucceeds).1);
      && (code == 201 <==> Validate(body).Ok? && saveSucceeds)
      && (code == 500 <==> (Validate(body).Ok? && !saveSucceeds) || Validate(body) == Err(InternalError))
      && (body.Obj? && Validate(body).Err? ==> code == 400)
      && (code == 201 || code == 400 || code == 500)
  {
  }

  /**
   * The submit endpoint: validate, build the job, save it, then queue it with
   * its priority's score. The queue is touched only after a successful save.
   */
  method SubmitJob(broker: SortedSet, db: JobStore, body: Value, freshId: string, now: string,
                   saveSucceeds: bool)
    returns (response: Response)
    requires db.Valid()
    modifies broker, db
    ensures db.Valid()
    ensures (Snapshot(broker, db), response) ==
      Submitted(old(Snapshot(broker, db)), body, freshId, now, saveSucceeds)
  {
    var request := Validate(body);
    if request.Err? {
      return Rejected(request.error);
    }
    var req := request.value;
    var job := new Job(req.jobType, req.priority, req.payload, None, freshId, now);
    var saved := db.SaveJob(job.Record(), saveSucceeds);
    if !saved {
      return Rejected(SaveFailed);
    }
    broker.Add(job.jobId, Score(job.priority));
    response := Created(job.jobId, StatusName(job.status), PriorityName(job.priority), job.jobType);
  }

  /** How many of `jobs` have status `st`. */
  function CountStatus(jobs: seq<JobRecord>, st: Status): nat
  {
    if jobs == [] then 0
    else CountStatus(jobs[..|jobs| - 1], st) + (if jobs[|jobs| - 1].status == st then 1 else 0)
  }

  /** Every job has exactly one status, so the per-status counts add up to the length. */
  lemma {:induction false} CountsPartition(jobs: seq<JobRecord>)
    ensures CountStatus(jobs, Pending) + CountStatus(jobs, Processing)
          + CountStatus(jobs, Completed) + CountStatus(jobs, Failed) == |jobs|
  {
    if jobs != [] {
      CountsPartition(jobs[..|jobs| - 1]);
    }
  }

  /** Removing one stored job takes it out of its status's set and leaves the other sets alone. */
  lemma WithStatusWithout(rows: map<string, JobRecord>, id: string, st: Status)
    requires id in rows
    ensures |WithStatus(rows, st)| ==
      |WithStatus(rows - {id}, st)| + (if rows[id].status == st then 1 else 0)
  {
    var all, rest := WithStatus(rows, st), WithStatus(rows - {id}, st);
    var here: set<string> := if rows[id].status == st then {id} else {};
    forall k
      ensures k in all <==> k in rest || k in here
    {
      if k != id {
        assert k in rows <==> k in rows - {id};
      }
    }
    assert all == rest + here;
    assert id !in rest;
  }

  /** Counting the statuses over a listing of the store counts the stored jobs with each status. */
  lemma {:induction false} CountOfListing(rows: map<string, JobRecord>, jobs: seq<JobRecord>, st: Status)
    requires Lists(rows, jobs)
    ensures CountStatus(jobs, st) == |WithStatus(rows, st)|
    decreases |jobs|
  {
    if jobs == [] {
      assert forall id :: id !in rows;
      assert WithStatus(rows, st) == {};
    } else {
      var last := jobs[|jobs| - 1];
      ListsPrefix(rows, jobs);
      CountOfListing(rows - {last.jobId}, jobs[..|jobs| - 1], st);
      WithStatusWithout(rows, last.jobId, st);
    }
  }

  /** The count under `st`, absent keys being zero. */
  function CountOf(counts: map<Status, nat>, st: Status): nat
  {
    if st in counts then counts[st] else 0
  }

  function Total(counts: map<Status, nat>): nat
  {
    CountOf(counts, Pending) + CountOf(counts, Processing) + CountOf(counts, Completed) + CountOf(counts, Failed)
  }

  /** The status histogram: a key for each status that occurs, with its number of jobs. */
  method StatusCounts(jobs: seq<JobRecord>) returns (counts: map<Status, nat>)
    ensures forall st :: st in counts <==> CountStatus(jobs, st) > 0
    ensures forall st :: CountOf(counts, st) == CountStatus(jobs, st)
  {
    counts := map[];
    for i := 0 to |jobs|
      invariant forall st :: st in counts <==> CountStatus(jobs[..i], st) > 0
      invariant forall st :: CountOf(counts, st) == CountStatus(jobs[..i], st)
    {
      assert jobs[..i + 1][..i] == jobs[..i];
      var st := jobs[i].status;
      counts := counts[st := CountOf(counts, st) + 1];
    }
    assert jobs[..|jobs|] == jobs;
  }

  /** What the statistics endpoint reports. */
  datatype Stats = Stats(queueSize: nat, statusCounts: map<Status, nat>, totalJobs: nat)

  /**
   * The statistics endpoint: the broker's size, the number of stored jobs
   * with each status that occurs, and the number of stored jobs, which the
   * counts add up to.
   */
  method QueueStats(broker: SortedSet, db: JobStore) returns (stats: Stats)
    requires db.Valid()
    ensures stats.queueSize == |broker.scores|
    ensures stats.totalJobs == |db.rows|
    ensures forall st :: st in stats.statusCounts <==> |WithStatus(db.rows, st)| > 0
    ensures forall st :: CountOf(stats.statusCounts, st) == |WithStatus(db.rows, st)|
    ensures Total(stats.statusCounts) == stats.totalJobs
  {
    var queueSize := broker.Card();
    var allJobs := db.GetAllJobs();
    var counts := StatusCounts(allJobs);
    ListingSize(db.rows, allJobs);
    CountsPartition(allJobs);
    forall st
      ensures CountStatus(allJobs, st) == |WithStatus(db.rows, st)|
    {
      CountOfListing(db.rows, allJobs, st);
    }
    stats := Stats(queueSize, counts, |allJobs|);
  }

  /** The summary of a job in the listing. */
  datatype Summary = Summary(
    jobId: string, jobType: string, priority: Priority, status: Status, retryCount: nat,
    createdAt: string, pickedAt: Option<string>, completedAt: Option<string>)

  function ListEntry(r: JobRecord): Summary
  {
    Summary(r.jobId, r.jobType, r.priority, r.status, r.retryCount, r.createdAt, r.pickedAt, r.completedAt)
  }

  /** The dictionary sent for a summary. */
  function SummaryFields(e: Summary): map<string, Value>
  {
    map[
      "job_id" := Str(e.jobId),
      "job_type" := Str(e.jobType),
      "priority" := Str(PriorityName(e.priority)),
      "status" := Str(StatusName(e.status)),
      "retry_count" := Num(e.retryCount),
      "created_at" := Str(e.createdAt),
      "picked_at" := Nullable(e.pickedAt),
      "completed_at" := Nullable(e.completedAt)
    ]
  }

  /** A job's summary is its stored form without the payload and the error message. */
  lemma ListEntrySummarisesStoredForm(r: JobRecord)
    ensures SummaryFields(ListEntry(r)).Keys == FIELD_NAMES - {"payload", "error_message"}
    ensures forall k :: k in SummaryFields(ListEntry(r)) ==> SummaryFields(ListEntry(r))[k] == ToDict(r)[k]
  {
  }

  /** Summaries of a listing of the store summarise each stored job, and only those. */
  lemma SummariesOfListing(rows: map<string, JobRecord>, jobs: seq<JobRecord>, entries: seq<Summary>)
    requires Lists(rows, jobs)
    requires |entries| == |jobs| && forall k :: 0 <= k < |jobs| ==> entries[k] == ListEntry(jobs[k])
    ensures forall i :: 0 <= i < |entries| ==> entries[i].jobId in rows && entries[i] == ListEntry(rows[entries[i].jobId])
    ensures forall id :: id in rows ==> exists i :: 0 <= i < |entries| && entries[i] == ListEntry(rows[id])
  {
    forall id | id in rows
      ensures exists i :: 0 <= i < |entries| && entries[i] == ListEntry(rows[id])
    {
      var i :| 0 <= i < |jobs| && jobs[i].jobId == id;
      assert entries[i] == ListEntry(rows[id]);
    }
  }

  /**
   * The listing endpoint: one summary per stored job, each stored job once,
   * and the total reported is the number of summaries.
   */
  method ListJobs(db: JobStore) returns (entries: seq<Summary>, totalJobs: nat)
    requires db.Valid()
    ensures totalJobs == |entries| == |db.rows|
    ensures forall i :: 0 <= i < |entries| ==>
      entries[i].jobId in db.rows && entries[i] == ListEntry(db.rows[entries[i].jobId])
    ensures forall id :: id in db.rows ==>
      exists i :: 0 <= i < |entries| && entries[i] == ListEntry(db.rows[id])
  {
    var jobs := db.GetAllJobs();
    entries := [];
    for i := 0 to |jobs|
      invariant |entries| == i
      invariant forall k :: 0 <= k < i ==> entries[k] == ListEntry(jobs[k])
    {
      entries := entries + [ListEntry(jobs[i])];
    }
    totalJobs := |entries|;
    ListingSize(db.rows, jobs);
    SummariesOfListing(db.rows, jobs, entries);
  }
}
