/**
 * The job record: its statuses, its stored (dictionary) form, the value-level
 * transitions of the state machine, and the mutable Job object the API and the
 * worker operate on.
 */
module Models {
  import opened Wrappers
  import opened Config

  /** A JSON-like value, as found in request bodies, payloads and stored rows. */
  datatype Value =
    | Null
    | Bool(b: bool)
    | Num(n: int)
    | Str(s: string)
    | Arr(items: seq<Value>)
    | Obj(fields: map<string, Value>)

  /** Python truthiness of a value: None, False, 0, "", [] and {} are false. */
  predicate Falsy(v: Value)
  {
    match v
    case Null => true
    case Bool(b) => !b
    case Num(n) => n == 0
    case Str(s) => s == ""
    case Arr(items) => items == []
    case Obj(fields) => fields == map[]
  }

  datatype Status = Pending | Processing | Completed | Failed

  function StatusName(st: Status): string
  {
    match st
    case Pending => "pending"
    case Processing => "processing"
    case Completed => "completed"
    case Failed => "failed"
  }

  function ParseStatus(s: string): Option<Status>
  {
    if s == "pending" then Some(Pending)
    else if s == "processing" then Some(Processing)
    else if s == "completed" then Some(Completed)
    else if s == "failed" then Some(Failed)
    else None
  }

  /** The fields of one job, as a value (one row of the record store). */
  datatype JobRecord = JobRecord(
    jobId: string,
    jobType: string,
    priority: Priority,
    payload: Value,
    status: Status,
    retryCount: nat,
    createdAt: string,
    pickedAt: Option<string>,
    completedAt: Option<string>,
    errorMessage: Option<string>)

  /** The fields no transition touches: which job this is and what it asks for. */
  predicate SameJob(a: JobRecord, b: JobRecord)
  {
    && a.jobId == b.jobId && a.jobType == b.jobType && a.priority == b.priority
    && a.payload == b.payload && a.createdAt == b.createdAt
  }

  // The state machine on values: what each transition method of Job does to the fields.

  /** Picking marks the job processing and stamps the pick time; nothing else changes. */
  function PickedRecord(r: JobRecord, now: string): (r': JobRecord)
    ensures SameJob(r, r')
    ensures r'.status == Processing && r'.pickedAt == Some(now)
    ensures r'.retryCount == r.retryCount && r'.completedAt == r.completedAt
    ensures r'.errorMessage == r.errorMessage
  {
    r.(status := Processing, pickedAt := Some(now))
  }

  /** Completing marks the job completed and stamps the end time; attempts and error are kept. */
  function CompletedRecord(r: JobRecord, now: string): (r': JobRecord)
    ensures SameJob(r, r')
    ensures r'.status == Completed && r'.completedAt == Some(now)
    ensures r'.retryCount == r.retryCount && r'.errorMessage == r.errorMessage
    ensures r'.pickedAt == r.pickedAt
  {
    r.(status := Completed, completedAt := Some(now))
  }

  /** Failing marks the job failed, records the error and the end time, and counts one more attempt. */
  function FailedRecord(r: JobRecord, message: string, now: string): (r': JobRecord)
    ensures SameJob(r, r')
    ensures r'.status == Failed && r'.errorMessage == Some(message) && r'.completedAt == Some(now)
    ensures r'.retryCount == r.retryCount + 1
    ensures r'.pickedAt == r.pickedAt
  {
    r.(status := Failed, completedAt := Some(now), errorMessage := Some(message),
       retryCount := r.retryCount + 1)
  }

  /** The keys of the stored form of a job. */
  const FIELD_NAMES: set<string> :=
    {"job_id", "job_type", "priority", "payload", "status", "retry_count",
     "created_at", "picked_at", "completed_at", "error_message"}

  function Nullable(o: Option<string>): Value
  {
    match o
    case None => Null
    case Some(s) => Str(s)
  }

  /** The stored form of a job: one entry per field. */
  function ToDict(r: JobRecord): (d: map<string, Value>)
    ensures d.Keys == FIELD_NAMES
  {
    map[
      "job_id" := Str(r.jobId),
      "job_type" := Str(r.jobType),
      "priority" := Str(PriorityName(r.priority)),
      "payload" := r.payload,
      "status" := Str(StatusName(r.status)),
      "retry_count" := Num(r.retryCount),
      "created_at" := Str(r.createdAt),
      "picked_at" := Nullable(r.pickedAt),
      "completed_at" := Nullable(r.completedAt),
      "error_message" := Nullable(r.errorMessage)
    ]
  }

  function AsString(v: Value): Option<string>
  {
    if v.Str? then Some(v.s) else None
  }

  function AsNullable(v: Value): Option<Option<string>>
  {
    match v
    case Null => Some(None)
    case Str(s) => Some(Some(s))
    case _ => None
  }

  function AsCount(v: Value): Option<nat>
  {
    if v.Num? && v.n >= 0 then Some(v.n) else None
  }

  /** The constructor's `job_id or uuid4()`: a false-valued id is replaced by a fresh one. */
  function IdOrFresh(v: Value, freshId: string): Option<string>
  {
    if Falsy(v) then Some(freshId)
    else if v.Str? then Some(v.s)
    else None
  }

  /**
   * Rebuilds a job from its stored form. A missing key fails (`from_dict`
   * raises KeyError); so does a value of the wrong kind. The id goes through
   * the constructor first, so a false-valued id is replaced by `freshId`.
   */
  function FromDict(data: map<string, Value>, freshId: string): (r: Option<JobRecord>)
    ensures r.Some? ==> FIELD_NAMES <= data.Keys
    ensures r.Some? ==> r.value.payload == data["payload"]
  {
    if !(FIELD_NAMES <= data.Keys) then None
    else
      var jobId :- IdOrFresh(data["job_id"], freshId);
      var jobType :- AsString(data["job_type"]);
      var priorityName :- AsString(data["priority"]);
      var priority :- ParsePriority(priorityName);
      var statusName :- AsString(data["status"]);
      var status :- ParseStatus(statusName);
      var retryCount :- AsCount(data["retry_count"]);
      var createdAt :- AsString(data["created_at"]);
      var pickedAt :- AsNullable(data["picked_at"]);
      var completedAt :- AsNullable(data["completed_at"]);
      var errorMessage :- AsNullable(data["error_message"]);
      Some(JobRecord(jobId, jobType, priority, data["payload"], status, retryCount,
                     createdAt, pickedAt, completedAt, errorMessage))
  }

  /** A status string that parses is the name of the status it parses to. */
  lemma ParseStatusInvertsName(s: string)
    ensures ParseStatus(s).Some? ==> StatusName(ParseStatus(s).value) == s
  {
  }

  /**
   * Every field of a job read from any stored form comes from its own key:
   * writing the job back gives the same values, except that a false-valued
   * id has become `freshId`.
   */
  lemma FromDictReadsFields(data: map<string, Value>, freshId: string)
    requires FromDict(data, freshId).Some?
    ensures var r := FromDict(data, freshId).value;
      && (forall k :: k in FIELD_NAMES && k != "job_id" ==> ToDict(r)[k] == data[k])
      && (!Falsy(data["job_id"]) ==> ToDict(r)["job_id"] == data["job_id"])
      && (Falsy(data["job_id"]) ==> r.jobId == freshId)
  {
    var r := FromDict(data, freshId).value;
    assert r == JobRecord(IdOrFresh(data["job_id"], freshId).value, data["job_type"].s,
                          ParsePriority(data["priority"].s).value, data["payload"],
                          ParseStatus(data["status"].s).value, data["retry_count"].n,
                          data["created_at"].s, AsNullable(data["picked_at"]).value,
                          AsNullable(data["completed_at"]).value, AsNullable(data["error_message"]).value);
    ParsePriorityMatchesTable(data["priority"].s);
    ParseStatusInvertsName(data["status"].s);
    assert ToDict(r)["retry_count"] == data["retry_count"];
    assert ToDict(r)["picked_at"] == data["picked_at"];
    assert ToDict(r)["completed_at"] == data["completed_at"];
    assert ToDict(r)["error_message"] == data["error_message"];
  }

  lemma StatusNameRoundTrip(st: Status)
    ensures ParseStatus(StatusName(st)) == Some(st)
  {
  }

  /** Reading back the stored form of a job with a non-empty id gives the same job. */
  lemma FromDictInvertsToDict(r: JobRecord, freshId: string)
    requires r.jobId != ""
    ensures FromDict(ToDict(r), freshId) == Some(r)
  {
    StatusNameRoundTrip(r.status);
    PriorityNameRoundTrip(r.priority);
  }

  /** An empty id does not survive the round trip: the constructor replaces it. */
  lemma FromDictReplacesEmptyId(r: JobRecord, freshId: string)
    requires r.jobId == ""
    ensures FromDict(ToDict(r), freshId) == Some(r.(jobId := freshId))
  {
    StatusNameRoundTrip(r.status);
    PriorityNameRoundTrip(r.priority);
  }

  /** A job object; its transition methods update its fields in place. */
  class Job {
    var jobId: string
    var jobType: string
    var priority: Priority
    var payload: Value
    var status: Status
    var retryCount: nat
    var createdAt: string
    var pickedAt: Option<string>
    var completedAt: Option<string>
    var errorMessage: Option<string>

    /** The current field values. */
    function Record(): JobRecord
      reads this
    {
      JobRecord(jobId, jobType, priority, payload, status, retryCount,
                createdAt, pickedAt, completedAt, errorMessage)
    }

    /**
     * A new job. A supplied non-empty id is kept; otherwise the job takes
     * `freshId` (a generated UUID). `now` is the creation time.
     */
    constructor (jobType: string, priority: Priority, payload: Value,
                 suppliedId: Option<string>, freshId: string, now: string)
      ensures jobId == (if suppliedId.Some? && suppliedId.value != "" then suppliedId.value else freshId)
      ensures Record() == JobRecord(jobId, jobType, priority, payload, Pending, 0, now, None, None, None)
    {
      this.jobId := if suppliedId.Some? && suppliedId.value != "" then suppliedId.value else freshId;
      this.jobType := jobType;
      this.priority := priority;
      this.payload := payload;
      this.status := Pending;
      this.retryCount := 0;
      this.createdAt := now;
      this.pickedAt := None;
      this.completedAt := None;
      this.errorMessage := None;
    }

    /** A job object rebuilt from a stored row. */
    constructor FromRecord(r: JobRecord)
      ensures Record() == r
    {
      jobId := r.jobId;
      jobType := r.jobType;
      priority := r.priority;
      payload := r.payload;
      status := r.status;
      retryCount := r.retryCount;
      createdAt := r.createdAt;
      pickedAt := r.pickedAt;
      completedAt := r.completedAt;
      errorMessage := r.errorMessage;
    }

    method MarkPicked(now: string)
      modifies this
      ensures Record() == PickedRecord(old(Record()), now)
    {
      status := Processing;
      pickedAt := Some(now);
    }

    method MarkCompleted(now: string)
      modifies this
      ensures Record() == CompletedRecord(old(Record()), now)
    {
      status := Completed;
      completedAt := Some(now);
    }

    method MarkFailed(message: string, now: string)
      modifies this
      ensures Record() == FailedRecord(old(Record()), message, now)
    {
      status := Failed;
      completedAt := Some(now);
      errorMessage := Some(message);
      retryCount := retryCount + 1;
    }

    function ShouldRetry(maxRetries: int): bool
      reads this
    {
      retryCount < maxRetries
    }
  }
}
