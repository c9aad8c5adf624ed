/** The server calls of Claim, Heartbeat, Release, Complete, Cancel, Get and enqueue's insert, on one collection. */
module Collection {
  import opened Wrappers
  import opened VTime
  import opened Jobs
  import opened Calls

  /** A call may fail before it reaches the server, or be applied and lose its reply. */
  datatype Fault = NoFault | Dropped | ReplyLost

  /** The handle: a claim-time snapshot, and the private id and fence later calls use. */
  datatype ClaimedJob = ClaimedJob(job: Job, jobId: JobId, claimId: ClaimId)

  class Collection {
    var jobs: JobMap

    constructor ()
      ensures jobs == map[]
    {
      jobs := map[];
    }

    method InsertOne(id: JobId, job: Job, fault: Fault) returns (r: Result<(), Error>)
      modifies this
      ensures jobs == if id in old(jobs) || fault.Dropped? then old(jobs) else old(jobs)[id := job]
      ensures r == if !fault.NoFault? then Err(ErrDriver) else if id in old(jobs) then Err(ErrDuplicateJob) else Ok(())
    {
      if fault.Dropped? { return Err(ErrDriver); }
      var duplicate := id in jobs;
      if !duplicate { jobs := jobs[id := job]; }
      if fault.ReplyLost? { return Err(ErrDriver); }
      return if duplicate then Err(ErrDuplicateJob) else Ok(());
    }

    /** One atomic find-and-update of the first visible job. */
    method Claim(partition: string, lease: int64, now: int, claimId: ClaimId, fault: Fault)
      returns (r: Result<ClaimedJob, Error>)
      modifies this
      ensures var p := if partition == "" then "default" else partition;
              && jobs == (if fault.Dropped? then old(jobs)
                          else StoreStep(old(jobs), StoreEvent.Claim(p, now, lease, claimId)))
              && (lease <= 0 ==> r == Err(ErrInvalidLease) && jobs == old(jobs))
              && (lease > 0 && !fault.NoFault? ==> r == Err(ErrDriver))
              && (lease > 0 && fault.NoFault? && !AnyDue(old(jobs), p, now) ==> r == Err(ErrNoJob))
              && (lease > 0 && fault.NoFault? && AnyDue(old(jobs), p, now) ==>
                    && r.Ok? && r.value.jobId in old(jobs) && r.value.jobId in jobs && r.value.claimId == claimId
                    && r.value.job == jobs[r.value.jobId]
                    && Claimed(old(jobs), jobs, r.value.jobId, now, lease, claimId))
    {
      if lease <= 0 { return Err(ErrInvalidLease); }
      if fault.Dropped? { return Err(ErrDriver); }
      var p := DefaultPartition(partition);
      var pool := VisibleSet(jobs, p, now);
      assert forall k <- jobs :: k in pool <==> Due(jobs[k], p, now);
      if pool == {} {
        return Err(if fault.ReplyLost? then ErrDriver else ErrNoJob);
      }
      ghost var first := FirstExists(jobs, pool);
      var id :| id in pool && IsFirst(jobs, pool, id);
      FirstUnique(jobs, pool, id, Target(jobs, p, now).value);
      jobs := jobs[id := Update(jobs[id], StoreEvent.Claim(p, now, lease, claimId))];
      return if fault.ReplyLost? then Err(ErrDriver) else Ok(ClaimedJob(jobs[id], id, claimId));
    }

    /** The fence: the handle's id and claim, and pending liveness; no visibility condition. */
    method FencedUpdate(h: ClaimedJob, ev: StoreEvent, fault: Fault) returns (r: Result<(), Error>)
      requires !ev.Claim? && !ev.Cancel? && !ev.Expire?
      modifies this
      ensures jobs == if Fenced(old(jobs), h.jobId, h.claimId) && !fault.Dropped?
                      then old(jobs)[h.jobId := Update(old(jobs)[h.jobId], ev)] else old(jobs)
      ensures r == if !fault.NoFault? then Err(ErrDriver)
                   else if Fenced(old(jobs), h.jobId, h.claimId) then Ok(()) else Err(ErrLeaseLost)
    {
      if fault.Dropped? { return Err(ErrDriver); }
      var matched := Holds(jobs, h.jobId, h.claimId);
      if matched { jobs := jobs[h.jobId := Update(jobs[h.jobId], ev)]; }
      if fault.ReplyLost? { return Err(ErrDriver); }
      return if matched then Ok(()) else Err(ErrLeaseLost);
    }

    method Heartbeat(h: ClaimedJob, extend: int64, now: int, fault: Fault) returns (r: Result<(), Error>)
      modifies this
      ensures jobs == if fault.Dropped? then old(jobs)
                      else StoreStep(old(jobs), StoreEvent.Heartbeat(h.jobId, h.claimId, now, extend))
      ensures r == if extend <= 0 then Err(ErrInvalidLease)
                   else if !fault.NoFault? then Err(ErrDriver)
                   else if Fenced(old(jobs), h.jobId, h.claimId) then Ok(()) else Err(ErrLeaseLost)
    {
      if extend <= 0 { return Err(ErrInvalidLease); }
      r := FencedUpdate(h, StoreEvent.Heartbeat(h.jobId, h.claimId, now, extend), fault);
    }

    method Release(h: ClaimedJob, delay: int64, now: int, fault: Fault) returns (r: Result<(), Error>)
      modifies this
      ensures jobs == if fault.Dropped? then old(jobs)
                      else StoreStep(old(jobs), StoreEvent.Release(h.jobId, h.claimId, now, delay))
      ensures r == if delay < 0 then Err(ErrInvalidDelay)
                   else if !fault.NoFault? then Err(ErrDriver)
                   else if Fenced(old(jobs), h.jobId, h.claimId) then Ok(()) else Err(ErrLeaseLost)
    {
      if delay < 0 { return Err(ErrInvalidDelay); }
      r := FencedUpdate(h, StoreEvent.Release(h.jobId, h.claimId, now, delay), fault);
    }

    method Complete(h: ClaimedJob, resolution: string, now: int, fault: Fault) returns (r: Result<(), Error>)
      modifies this
      ensures jobs == if fault.Dropped? then old(jobs)
                      else StoreStep(old(jobs), StoreEvent.Complete(h.jobId, h.claimId, now, resolution))
      ensures r == if resolution == "" then Err(ErrEmptyResolution)
                   else if !fault.NoFault? then Err(ErrDriver)
                   else if Fenced(old(jobs), h.jobId, h.claimId) then Ok(()) else Err(ErrLeaseLost)
    {
      if resolution == "" { return Err(ErrEmptyResolution); }
      r := FencedUpdate(h, StoreEvent.Complete(h.jobId, h.claimId, now, resolution), fault);
    }

    method Get(id: JobId, fault: Fault) returns (r: Result<Job, Error>)
      ensures id == "" ==> r == Err(ErrMissingJobID)
      ensures id != "" && !fault.NoFault? ==> r == Err(ErrDriver)
      ensures id != "" && fault.NoFault? ==> r == if id in jobs then Ok(jobs[id]) else Err(ErrJobNotFound)
    {
      if id == "" { return Err(ErrMissingJobID); }
      if !fault.NoFault? { return Err(ErrDriver); }
      return if id in jobs then Ok(jobs[id]) else Err(ErrJobNotFound);
    }

    /**
     Cancel, and on a miss the diagnostic read that classifies it. Other clients may act between the two: `meanwhile`
     is the store at the read, so the job may by then be absent, resolved, or even inserted anew and pending.
     */
    method Cancel(id: JobId, now: int, fault: Fault, meanwhile: JobMap, readFault: Fault) returns (r: Result<(), Error>)
      modifies this
      ensures id == "" ==> r == Err(ErrMissingJobID) && jobs == old(jobs)
      ensures id != "" ==>
                var ev := StoreEvent.Cancel(id, now);
                var missed := fault.NoFault? && !(id in old(jobs) && old(jobs)[id].liveness == Pending);
                && jobs == (if missed then meanwhile
                            else if fault.Dropped? then old(jobs)
                            else StoreStep(old(jobs), ev))
                && (!fault.NoFault? ==> r == Err(ErrDriver))
                && (fault.NoFault? && !missed ==> r == Ok(()))
                && (missed ==>
                      r == Err(if !readFault.NoFault? then ErrDriver
                               else if id in meanwhile then ErrJobResolved
                               else ErrJobNotFound))
    {
      if id == "" { return Err(ErrMissingJobID); }
      if fault.Dropped? { return Err(ErrDriver); }
      var matched := id in jobs && jobs[id].liveness == Pending;
      if matched { jobs := jobs[id := Update(jobs[id], StoreEvent.Cancel(id, now))]; }
      if fault.ReplyLost? { return Err(ErrDriver); }
      if matched { return Ok(()); }
      jobs := meanwhile;
      var found := Get(id, readFault);
      if found.Err? { return Err(found.error); }
      return Err(ErrJobResolved);
    }
  }
}
