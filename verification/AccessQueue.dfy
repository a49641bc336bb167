/** The order of the access queue and the batches that are taken from its front. How long a job can be
    passed over is bounded in QueueBound.dfy. */
module AccessQueue {
  import opened Domain
  import opened Listing
  import opened Timestamps
  import opened Transactions

  const BATCH: nat := 100

  /** ORDER BY updated_at, account_id, on the stored texts. */
  ghost predicate Ahead(jobs: map<nat, Job>, a: nat, b: nat)
    requires a in jobs && b in jobs
  {
    Earlier(jobs[a].updatedAt, a, jobs[b].updatedAt, b)
  }

  function Stamps(jobs: map<nat, Job>): map<nat, int> {
    map a | a in jobs :: jobs[a].updatedAt
  }

  /** The first `limit` jobs of the queue, in order. */
  ghost predicate IsBatch(jobs: map<nat, Job>, limit: nat, batch: seq<nat>) {
    IsListing(Stamps(jobs), limit, batch)
  }

  // ----- what can be said of a job's place as the queue changes -----

  ghost function JobsAhead(jobs: map<nat, Job>, x: nat): set<nat>
    requires x in jobs
  {
    set a | a in jobs && Ahead(jobs, a, x)
  }

  ghost function Members(s: seq<nat>): set<nat> {
    set a | a in s
  }

  ghost predicate Late(jobs: map<nat, Job>, a: nat, t: int)
    requires a in jobs
  {
    TextBefore(t, jobs[a].updatedAt)
  }

  /** Since `start`, every job either got a later stamp or is the row it was, and none of `done` is. */
  ghost predicate Since(start: map<nat, Job>, jobs: map<nat, Job>, done: set<nat>, t: int) {
    forall a :: a in jobs ==> Late(jobs, a, t) || (a in start && jobs[a] == start[a] && a !in done)
  }

  lemma NotAheadWhenLate(jobs: map<nat, Job>, a: nat, x: nat)
    requires a in jobs && x in jobs && Late(jobs, a, jobs[x].updatedAt)
    ensures !Ahead(jobs, a, x)
  {
    TextBeforeTrichotomy(jobs[a].updatedAt, jobs[x].updatedAt);
    TextBeforeIrreflexive(jobs[x].updatedAt);
  }

  // Whoever is ahead afterwards was ahead before and has not been attempted.
  lemma AheadShrinks(start: map<nat, Job>, jobs: map<nat, Job>, done: set<nat>, x: nat)
    requires x in start && x in jobs && jobs[x] == start[x] && Since(start, jobs, done, start[x].updatedAt)
    ensures JobsAhead(jobs, x) <= JobsAhead(start, x) - done
  {
    forall a | a in JobsAhead(jobs, x)
      ensures a in JobsAhead(start, x) - done
    {
      if Late(jobs, a, start[x].updatedAt) {
        NotAheadWhenLate(jobs, a, x);
      }
    }
  }

  lemma {:induction false} DistinctSize(s: seq<nat>)
    requires forall i, j :: 0 <= i < j < |s| ==> s[i] != s[j]
    ensures |Members(s)| == |s|
  {
    if s != [] {
      var front, last := s[..|s| - 1], s[|s| - 1];
      DistinctSize(front);
      assert s == front + [last];
      assert Members(s) == Members(front) + {last};
      assert last !in front;
    }
  }

  lemma {:induction false} SmallerSet(small: set<nat>, big: set<nat>)
    requires small <= big
    ensures |small| <= |big|
  {
    if small != {} {
      var a :| a in small;
      SmallerSet(small - {a}, big - {a});
    }
  }

  // A run that does not list the job attempts a full batch, all of it ahead of the job.
  lemma FullBatchAhead(jobs: map<nat, Job>, batch: seq<nat>, x: nat)
    requires IsBatch(jobs, BATCH, batch) && x in jobs && x !in batch
    ensures |batch| == BATCH
    ensures Members(batch) <= JobsAhead(jobs, x) && |Members(batch)| == BATCH
  {
    ListingDistinct(Stamps(jobs), BATCH, batch);
    DistinctSize(batch);
    assert Stamps(jobs).Keys == jobs.Keys && |Stamps(jobs)| == |Stamps(jobs).Keys|;
    if |jobs.Keys| < BATCH {
      assert Members(batch) + {x} <= jobs.Keys;
      SmallerSet(Members(batch) + {x}, jobs.Keys);
    }
  }
}
