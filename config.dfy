/** The queue's policy constants: retry bound, backoff table and priority scores. */
module Config {
  import opened Wrappers

  /** A job is given up once it has failed this many times. */
  const MAX_RETRIES: nat := 3

  /** Backoff in seconds before the k-th retry is re-enqueued (index k - 1). */
  const RETRY_DELAYS: seq<nat> := [1, 4, 9]

  /** The two priority classes a job may carry. */
  datatype Priority = High | Low

  function PriorityName(p: Priority): string
  {
    match p
    case High => "high"
    case Low => "low"
  }

  function ParsePriority(s: string): Option<Priority>
  {
    if s == "high" then Some(High)
    else if s == "low" then Some(Low)
    else None
  }

  /** Sorted-set score per priority name; a lower score is dispatched first. */
  const PRIORITY_SCORES: map<string, int> := map["high" := 1, "low" := 2]

  function Score(p: Priority): int
  {
    PRIORITY_SCORES[PriorityName(p)]
  }

  /** The priority names parse back to the priority they name. */
  lemma PriorityNameRoundTrip(p: Priority)
    ensures ParsePriority(PriorityName(p)) == Some(p)
  {
  }

  /** Exactly the keys of the score table are accepted as priority names. */
  lemma ParsePriorityMatchesTable(s: string)
    ensures ParsePriority(s).Some? <==> s in PRIORITY_SCORES
    ensures ParsePriority(s).Some? ==> PriorityName(ParsePriority(s).value) == s
  {
  }

  /** The score table is defined for exactly "high" and "low", and high sorts first. */
  lemma PriorityScoreTable()
    ensures PRIORITY_SCORES.Keys == {"high", "low"}
    ensures Score(High) < Score(Low)
    ensures forall p, q: Priority :: Score(p) == Score(q) ==> p == q
  {
  }

  /** The backoff table has one entry per allowed failure and grows strictly. */
  lemma RetryDelayTable()
    ensures |RETRY_DELAYS| == MAX_RETRIES
    ensures forall i :: 0 <= i < |RETRY_DELAYS| ==> RETRY_DELAYS[i] > 0
    ensures forall i, j :: 0 <= i < j < |RETRY_DELAYS| ==> RETRY_DELAYS[i] < RETRY_DELAYS[j]
  {
  }
}
