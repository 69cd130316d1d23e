/**
 * A snapshot of the two shared backends (broker and record store) and the
 * invariant that ties them together at quiescent points.
 */
module Backends {
  import opened Config
  import opened Models
  import opened Broker
  import opened Store

  /** Broker scores and stored rows at one moment. */
  datatype Sys = Sys(queue: map<string, int>, rows: map<string, JobRecord>)

  ghost function Snapshot(broker: SortedSet, db: JobStore): Sys
    reads broker, db
  {
    Sys(broker.scores, db.rows)
  }

  ghost predicate KeyedById(s: Sys)
  {
    forall id :: id in s.rows ==> s.rows[id].jobId == id
  }

  /** An id is queued exactly when its stored job is pending. */
  ghost predicate Agreement(s: Sys)
  {
    forall id :: id in s.queue <==> id in s.rows && s.rows[id].status == Pending
  }

  /** Queued ids carry the score of their job's priority. */
  ghost predicate ScoresMatch(s: Sys)
  {
    forall id :: id in s.queue && id in s.rows ==> s.queue[id] == Score(s.rows[id].priority)
  }

  /** No job is mid-execution. */
  ghost predicate NoneProcessing(s: Sys)
  {
    forall id :: id in s.rows ==> s.rows[id].status != Processing
  }

  /** A failed job has used up all attempts; any other job has attempts left. */
  predicate RetryBounded(r: JobRecord)
  {
    if r.status == Failed then r.retryCount == MAX_RETRIES else r.retryCount < MAX_RETRIES
  }

  ghost predicate AllRetryBounded(s: Sys)
  {
    forall id :: id in s.rows ==> RetryBounded(s.rows[id])
  }

  ghost predicate Consistent(s: Sys)
  {
    && KeyedById(s)
    && Agreement(s)
    && ScoresMatch(s)
    && NoneProcessing(s)
    && AllRetryBounded(s)
  }
}
