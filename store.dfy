/** The durable record store: one row per job id. */
module Store {
  import opened Wrappers
  import opened Models

  /** The ids of the stored jobs whose status is `st`. */
  ghost function WithStatus(rows: map<string, JobRecord>, st: Status): set<string>
  {
    set id | id in rows && rows[id].status == st
  }

  predicate DistinctIds(jobs: seq<JobRecord>)
  {
    forall i, j :: 0 <= i < j < |jobs| ==> jobs[i].jobId != jobs[j].jobId
  }

  /** `jobs` lists the rows of the store, each exactly once, in some order. */
  ghost predicate Lists(rows: map<string, JobRecord>, jobs: seq<JobRecord>)
  {
    && DistinctIds(jobs)
    && (forall i :: 0 <= i < |jobs| ==> jobs[i].jobId in rows && rows[jobs[i].jobId] == jobs[i])
    && (forall id :: id in rows ==> exists i :: 0 <= i < |jobs| && jobs[i].jobId == id)
  }

  /** Dropping the last job of a listing lists the store without that job. */
  lemma ListsPrefix(rows: map<string, JobRecord>, jobs: seq<JobRecord>)
    requires Lists(rows, jobs) && |jobs| > 0
    ensures Lists(rows - {jobs[|jobs| - 1].jobId}, jobs[..|jobs| - 1])
    ensures jobs[|jobs| - 1].jobId in rows
  {
    var n := |jobs| - 1;
    var rows' := rows - {jobs[n].jobId};
    forall id | id in rows'
      ensures exists i :: 0 <= i < n && jobs[..n][i].jobId == id
    {
      var i :| 0 <= i < |jobs| && jobs[i].jobId == id;
      assert i != n;
      assert jobs[..n][i] == jobs[i];
    }
  }

  /** A listing has one entry per row. */
  lemma {:induction false} ListingSize(rows: map<string, JobRecord>, jobs: seq<JobRecord>)
    requires Lists(rows, jobs)
    ensures |jobs| == |rows|
    decreases |jobs|
  {
    if jobs == [] {
      assert forall id :: id !in rows;
      assert rows == map[];
    } else {
      var last := jobs[|jobs| - 1];
      ListsPrefix(rows, jobs);
      ListingSize(rows - {last.jobId}, jobs[..|jobs| - 1]);
      assert (rows - {last.jobId}).Keys == rows.Keys - {last.jobId};
    }
  }

  class JobStore {
    var rows: map<string, JobRecord>

    /** Every row is filed under its own job id (the table's primary key). */
    ghost predicate Valid()
      reads this
    {
      forall id :: id in rows ==> rows[id].jobId == id
    }

    constructor ()
      ensures Valid() && rows == map[]
    {
      rows := map[];
    }

    /**
     * Inserts or replaces the row of `r`. `succeeds` stands for whether the
     * database write went through; on failure nothing changes.
     */
    method SaveJob(r: JobRecord, succeeds: bool) returns (saved: bool)
      requires Valid()
      modifies this
      ensures Valid()
      ensures saved == succeeds
      ensures rows == if succeeds then old(rows)[r.jobId := r] else old(rows)
    {
      saved := succeeds;
      if succeeds {
        rows := rows[r.jobId := r];
      }
    }

    /** The worker's write of a job's new state (its result is not inspected). */
    method UpdateJobStatus(r: JobRecord)
      requires Valid()
      modifies this
      ensures Valid()
      ensures rows == old(rows)[r.jobId := r]
    {
      rows := rows[r.jobId := r];
    }

    function GetJob(id: string): Option<JobRecord>
      reads this
    {
      if id in rows then Some(rows[id]) else None
    }

    /** All stored jobs, each once. The order of the listing is not specified. */
    method GetAllJobs() returns (jobs: seq<JobRecord>)
      requires Valid()
      ensures Lists(rows, jobs)
    {
      var left := rows.Keys;
      jobs := [];
      while left != {}
        invariant left <= rows.Keys
        invariant DistinctIds(jobs)
        invariant forall i :: 0 <= i < |jobs| ==>
          jobs[i].jobId in rows && rows[jobs[i].jobId] == jobs[i] && jobs[i].jobId !in left
        invariant forall id :: id in rows && id !in left ==> exists i :: 0 <= i < |jobs| && jobs[i].jobId == id
        decreases left
      {
        var id :| id in left;
        ghost var before := jobs;
        jobs := jobs + [rows[id]];
        left := left - {id};
        assert jobs[|jobs| - 1].jobId == id;
        forall k | k in rows && k !in left
          ensures exists i :: 0 <= i < |jobs| && jobs[i].jobId == k
        {
          if k != id {
            var i :| 0 <= i < |before| && before[i].jobId == k;
            assert jobs[i] == before[i];
          }
        }
      }
    }
  }
}
