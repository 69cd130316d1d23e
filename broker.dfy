/**
 * The priority broker: a sorted set mapping each job id to one score, with
 * insert-or-update and pop-minimum. Among equal scores the order is the
 * broker's own and is left unspecified.
 */
module Broker {
  import opened Wrappers

  /** `id` holds a minimum score of `q`. */
  predicate IsMin(q: map<string, int>, id: string)
  {
    id in q && forall k :: k in q ==> q[id] <= q[k]
  }

  /** Every non-empty sorted set has a member of minimum score. */
  lemma {:induction false} MinExists(q: map<string, int>)
    requires |q| > 0
    ensures exists id :: IsMin(q, id)
    decreases |q|
  {
    var k :| k in q;
    var rest := q - {k};
    assert rest.Keys == q.Keys - {k};
    assert |rest| == |q| - 1;
    if |rest| == 0 {
      assert forall j :: j in q ==> j == k;
      assert IsMin(q, k);
    } else {
      MinExists(rest);
      var m :| IsMin(rest, m);
      assert forall j :: j in q ==> j == k || (j in rest && rest[j] == q[j]);
      if q[k] <= rest[m] {
        assert IsMin(q, k);
      } else {
        assert IsMin(q, m);
      }
    }
  }

  class SortedSet {
    var scores: map<string, int>

    constructor ()
      ensures scores == map[]
    {
      scores := map[];
    }

    /** Adds `id` with `score`, or moves an existing `id` to `score`. */
    method Add(id: string, score: int)
      modifies this
      ensures scores == old(scores)[id := score]
    {
      scores := scores[id := score];
    }

    /** The number of members. */
    function Card(): nat
      reads this
    {
      |scores|
    }

    /** Removes and returns a member of minimum score, if there is one. */
    method PopMin() returns (r: Option<(string, int)>)
      modifies this
      ensures |old(scores)| == 0 ==> r.None? && scores == old(scores)
      ensures |old(scores)| > 0 ==>
        && r.Some?
        && IsMin(old(scores), r.value.0)
        && r.value.1 == old(scores)[r.value.0]
        && scores == old(scores) - {r.value.0}
    {
      if |scores| == 0 {
        return None;
      }
      MinExists(scores);
      var id :| id in scores && IsMin(scores, id);
      r := Some((id, scores[id]));
      scores := scores - {id};
    }
  }
}
