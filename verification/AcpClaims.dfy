/** The dispatch claims of the ACP adapter: one time-swept dedup map and two claim sets. */
module AcpClaims {
  import opened Jobs

  // Event type names, of which the adapter tells four apart: "job.created", "requirement.message",
  // "job.funded", and the "__decided" it writes itself. Every other name is a Named.
  datatype EventType = Created | Requirement | Funded | DecidedMark | Named(name: string)

  // The dedup map is keyed by job id and event only; the chain is not part of the key.
  datatype EventKey = EventKey(jobId: string, event: EventType)

  const DEDUP_TTL_MS: int := 5 * 60 * 1000
  const DEDUP_CLEANUP_THRESHOLD: int := 100

  datatype Claims = Claims(
    recent: map<EventKey, int>,
    inFlight: set<JobKey>,
    accepting: set<JobKey>)

  function Fresh(recent: map<EventKey, int>, now: int): map<EventKey, int> {
    map k | k in recent && now - recent[k] <= DEDUP_TTL_MS :: recent[k]
  }

  /** Whether a dispatch of `event` for `job` is let through. */
  predicate Admits(c: Claims, job: JobKey, event: EventType) {
    EventKey(job.jobId, event) !in c.recent && !(event.Funded? && job in c.inFlight)
  }

  /** The claims after a dispatch that was let through; the clock is read once for the
      new entry (`stamp`) and once more for the sweep (`sweepAt`). */
  function Dispatched(c: Claims, job: JobKey, event: EventType, stamp: int, sweepAt: int): Claims {
    var stamped := c.recent[EventKey(job.jobId, event) := stamp];
    c.(recent := if |stamped| > DEDUP_CLEANUP_THRESHOLD then Fresh(stamped, sweepAt) else stamped,
       inFlight := if event.Funded? then c.inFlight + {job} else c.inFlight)
  }

  predicate IsDecided(c: Claims, job: JobKey) {
    EventKey(job.jobId, DecidedMark) in c.recent
  }

  function MarkedDecided(c: Claims, job: JobKey, at: int): Claims {
    c.(recent := c.recent[EventKey(job.jobId, DecidedMark) := at])
  }

  // What an entry starts once its claims are taken.
  datatype Begins = Nothing | BeginsDelivery | BeginsAccept

  /** The synchronous front of the entry handler: everything before its first await. */
  function Entered(c: Claims, job: JobKey, event: EventType, stamp: int, sweepAt: int): (Claims, Begins) {
    if !Admits(c, job, event) then (c, Nothing)
    else
      var d := Dispatched(c, job, event, stamp, sweepAt);
      if event.Funded? then (d, BeginsDelivery)
      else if (event.Created? || event.Requirement?) && !IsDecided(d, job) && job !in d.accepting then
        (d.(accepting := d.accepting + {job}), BeginsAccept)
      else (d, Nothing)
  }

  /** The mutable fields of the adapter that hold claims, and the synchronous methods on them. */
  class AcpAdapter {
    var recentJobs: map<EventKey, int>
    var inFlight: set<JobKey>
    var acceptInFlight: set<JobKey>

    constructor ()
      ensures View() == Claims(map[], {}, {})
    {
      recentJobs, inFlight, acceptInFlight := map[], {}, {};
    }

    function View(): Claims
      reads this
    {
      Claims(recentJobs, inFlight, acceptInFlight)
    }

    method ClaimDispatch(job: JobKey, event: EventType, stamp: int, sweepAt: int) returns (claimed: bool)
      modifies this
      ensures claimed == Admits(old(View()), job, event)
      ensures View() == if claimed then Dispatched(old(View()), job, event, stamp, sweepAt) else old(View())
    {
      var key := EventKey(job.jobId, event);
      if key in recentJobs || (event.Funded? && job in inFlight) {
        return false;
      }
      recentJobs := recentJobs[key := stamp];
      if event.Funded? {
        inFlight := inFlight + {job};
      }
      if |recentJobs| > DEDUP_CLEANUP_THRESHOLD {
        Sweep(sweepAt);
      }
      return true;
    }

    method Sweep(now: int)
      modifies this`recentJobs
      ensures recentJobs == Fresh(old(recentJobs), now)
    {
      ghost var before := recentJobs;
      var todo := recentJobs.Keys;
      while todo != {}
        invariant todo <= before.Keys
        invariant recentJobs.Keys <= before.Keys
        invariant forall k :: k in before ==>
          (k in recentJobs <==> k in todo || now - before[k] <= DEDUP_TTL_MS)
        invariant forall k :: k in recentJobs ==> recentJobs[k] == before[k]
        decreases todo
      {
        var k :| k in todo;
        if now - recentJobs[k] > DEDUP_TTL_MS {
          recentJobs := recentJobs - {k};
        }
        todo := todo - {k};
      }
    }

    method ClaimAccept(job: JobKey) returns (claimed: bool)
      modifies this`acceptInFlight
      ensures claimed == (job !in old(acceptInFlight))
      ensures acceptInFlight == if claimed then old(acceptInFlight) + {job} else old(acceptInFlight)
    {
      if job in acceptInFlight {
        return false;
      }
      acceptInFlight := acceptInFlight + {job};
      return true;
    }

    method HandleEntry(job: JobKey, event: EventType, stamp: int, sweepAt: int) returns (begins: Begins)
      modifies this
      ensures (View(), begins) == Entered(old(View()), job, event, stamp, sweepAt)
    {
      var claimed := ClaimDispatch(job, event, stamp, sweepAt);
      if !claimed {
        return Nothing;
      }
      match event
      case Created | Requirement =>
        if EventKey(job.jobId, DecidedMark) in recentJobs {
          return Nothing;
        }
        var accepted := ClaimAccept(job);
        return if accepted then BeginsAccept else Nothing;
      case Funded =>
        return BeginsDelivery;
      case _ =>
        return Nothing;
    }

    method ReleaseAccept(job: JobKey)
      modifies this`acceptInFlight
      ensures acceptInFlight == old(acceptInFlight) - {job}
    {
      acceptInFlight := acceptInFlight - {job};
    }

    method MarkDecided(job: JobKey, now: int)
      modifies this`recentJobs
      ensures View() == MarkedDecided(old(View()), job, now)
    {
      recentJobs := recentJobs[EventKey(job.jobId, DecidedMark) := now];
    }

    method ReleaseFlight(job: JobKey)
      modifies this`inFlight
      ensures inFlight == old(inFlight) - {job}
    {
      inFlight := inFlight - {job};
    }
  }
}
