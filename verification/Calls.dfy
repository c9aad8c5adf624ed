/**
 What each server call does to the collection, field by field: which records it
 may write, which it must, and what it leaves in them.
 */
module Calls {
  import opened Wrappers
  import opened VTime
  import opened Duration
  import opened Jobs

  /** Pending, in the partition, and past its visibility time; whether claimed before or not. */
  predicate Due(j: Job, partition: string, now: int) {
    j.partition == partition && j.liveness == Pending && j.visibleAt <= now
  }

  ghost predicate AnyDue(jobs: JobMap, partition: string, now: int) {
    exists id <- jobs :: Due(jobs[id], partition, now)
  }

  /** Lowest stamp first, and among equals the id that is first in binary order. */
  ghost predicate SortsBefore(jobs: JobMap, a: JobId, b: JobId)
    requires a in jobs && b in jobs
  {
    jobs[a].vstamp < jobs[b].vstamp || (jobs[a].vstamp == jobs[b].vstamp && Lexically(a, b))
  }

  /** Binary order: a proper prefix, or the lower character at the first difference. */
  ghost predicate Lexically(a: string, b: string) {
    || (|a| < |b| && a == b[..|a|])
    || exists k: nat :: k < |a| && k < |b| && a[..k] == b[..k] && a[k] < b[k]
  }

  lemma {:induction false} IdBeforeIsLexical(a: JobId, b: JobId)
    ensures IdBefore(a, b) <==> Lexically(a, b)
    decreases |a|
  {
    if a != "" && b != "" {
      IdBeforeIsLexical(a[1..], b[1..]);
      if IdBefore(a, b) && a[0] == b[0] { LexicallyCons(a, b); }
      if IdBefore(a, b) && a[0] != b[0] { assert a[..0] == b[..0]; }
      if Lexically(a, b) && a[0] == b[0] { LexicallyTail(a, b); }
    }
  }

  lemma LexicallyCons(a: string, b: string)
    requires a != "" && b != "" && a[0] == b[0] && Lexically(a[1..], b[1..])
    ensures Lexically(a, b)
  {
    if |a| < |b| && a[1..] == b[1..][..|a| - 1] {
      assert a == [a[0]] + a[1..] && b[..|a|] == [b[0]] + b[1..][..|a| - 1];
    } else {
      var k: nat :| k < |a| - 1 && k < |b| - 1 && a[1..][..k] == b[1..][..k] && a[1..][k] < b[1..][k];
      assert a[..k + 1] == [a[0]] + a[1..][..k] && b[..k + 1] == [b[0]] + b[1..][..k];
      assert a[k + 1] < b[k + 1];
    }
  }

  lemma LexicallyTail(a: string, b: string)
    requires a != "" && b != "" && a[0] == b[0] && Lexically(a, b)
    ensures Lexically(a[1..], b[1..])
  {
    if |a| < |b| && a == b[..|a|] {
      assert a[1..] == b[1..][..|a| - 1];
    } else {
      var k: nat :| k < |a| && k < |b| && a[..k] == b[..k] && a[k] < b[k];
      assert k > 0;
      assert a[1..][..k - 1] == a[..k][1..] && b[1..][..k - 1] == b[..k][1..];
      assert a[1..][k - 1] < b[1..][k - 1];
    }
  }

  /**
   A claim takes a record exactly when some record of the partition is pending and due, claimed before or not; and
   then the one that sorts first among all that are. It gets the fence, a visibility one lease later, and an attempt.
   */
  lemma ClaimTakesFirstDue(jobs: JobMap, partition: string, now: int, lease: int64, claimId: ClaimId)
    requires lease > 0
    ensures var jobs' := StoreStep(jobs, StoreEvent.Claim(partition, now, lease, claimId));
            if !AnyDue(jobs, partition, now) then jobs' == jobs
            else exists id <- jobs ::
                   && Due(jobs[id], partition, now)
                   && (forall k <- jobs :: k != id && Due(jobs[k], partition, now) ==> SortsBefore(jobs, id, k))
                   && Claimed(jobs, jobs', id, now, lease, claimId)
  {
    var pool := VisibleSet(jobs, partition, now);
    assert forall k <- jobs :: k in pool <==> Due(jobs[k], partition, now);
    if AnyDue(jobs, partition, now) {
      var id := Target(jobs, partition, now).value;
      forall k | k in jobs && k != id && Due(jobs[k], partition, now) ensures SortsBefore(jobs, id, k) {
        assert k in pool;
        IdBeforeIsLexical(id, k);
      }
      assert Claimed(jobs, StoreStep(jobs, StoreEvent.Claim(partition, now, lease, claimId)), id, now, lease, claimId);
    }
  }

  /** The record with this id, and no other, is written by a claim. */
  predicate Claimed(jobs: JobMap, jobs': JobMap, id: JobId, now: int, lease: int64, claimId: ClaimId)
    requires id in jobs
  {
    jobs' == jobs[id := jobs[id].(claimId := claimId, visibleAt := now + DurationMillis(lease),
    attempts := jobs[id].attempts + 1)]
  }

  /** A claim with no lease to give takes nothing. */
  lemma ClaimNeedsLease(jobs: JobMap, partition: string, now: int, lease: int64, claimId: ClaimId)
    requires lease <= 0
    ensures StoreStep(jobs, StoreEvent.Claim(partition, now, lease, claimId)) == jobs
  {
  }

  /** The record carries this claim and is pending; that its lease may have run out does not matter. */
  predicate Fenced(jobs: JobMap, id: JobId, claimId: ClaimId) {
    id in jobs && jobs[id].claimId == claimId && jobs[id].liveness == Pending
  }

  /** A fenced call writes exactly when the fence matches: a heartbeat moves the visibility time, and nothing else. */
  lemma HeartbeatWrites(jobs: JobMap, id: JobId, claimId: ClaimId, now: int, extend: int64)
    ensures StoreStep(jobs, StoreEvent.Heartbeat(id, claimId, now, extend)) ==
            if extend > 0
               && Fenced(jobs, id, claimId) then jobs[id := jobs[id].(visibleAt := now + DurationMillis(extend))]
            else jobs
  {
  }

  /** A release also clears the fence; its delay is kept. */
  lemma ReleaseWrites(jobs: JobMap, id: JobId, claimId: ClaimId, now: int, delay: int64)
    ensures StoreStep(jobs, StoreEvent.Release(id, claimId, now, delay)) ==
            if delay >= 0 && Fenced(jobs, id, claimId)
            then jobs[id := jobs[id].(visibleAt := now + DurationMillis(delay), claimId := "")]
            else jobs
  {
  }

  lemma CompleteWrites(jobs: JobMap, id: JobId, claimId: ClaimId, now: int, resolution: string)
    ensures StoreStep(jobs, StoreEvent.Complete(id, claimId, now, resolution)) ==
            if resolution != "" && Fenced(jobs, id, claimId)
            then jobs[id := jobs[id].(liveness := Resolved, resolution := resolution, resolvedAt := Some(now))]
            else jobs
  {
  }

  /** A cancel resolves the record whenever it is pending, claimed or not, and keeps its fence. */
  lemma CancelWrites(jobs: JobMap, id: JobId, now: int)
    ensures StoreStep(jobs, StoreEvent.Cancel(id, now)) ==
            if id in jobs && jobs[id].liveness == Pending
            then jobs[id := jobs[id].(liveness := Resolved, resolution := "canceled", resolvedAt := Some(now))]
            else jobs
  {
  }

  /** A deletion takes exactly a resolved record. */
  lemma ExpireDeletes(jobs: JobMap, id: JobId)
    ensures StoreStep(jobs, StoreEvent.Expire(id)) == if id in jobs
                                                         && jobs[id].liveness == Resolved then jobs - {id} else jobs
  {
  }
}
