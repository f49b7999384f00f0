/** Accept decisions: one attempt at a time per job, and two decisions on a job further apart than
    the dedup window; without a sweep, one decision ever. */
module AcpAccept {
  import opened AcpClaims
  import opened AcpProtocol
  import opened AcpSafety
  import opened Jobs

  /** The sweep runs as part of this step. */
  predicate Sweeps(s: State, step: Step) {
    step.Entry? && Admits(s.claims, step.job, step.event)
    && |s.claims.recent[EventKey(step.job.jobId, step.event) := step.stamp]| > DEDUP_CLEANUP_THRESHOLD
  }

  /** Far enough after `earlier` for its mark to have been swept, if there are sweeps at all. */
  predicate Past(swept: bool, earlier: int, now: int) {
    swept && now - earlier > DEDUP_TTL_MS
  }

  ghost predicate DecisionsApart(swept: bool, h: seq<Event>) {
    forall i, j :: 0 <= i < j < |h| && h[i].Decided? && h[j].Decided? && h[i].job == h[j].job ==>
      Past(swept, h[i].when, h[j].when)
  }

  /** A decision that can still be repeated only when its time is past: it is marked, or about to be. */
  ghost predicate Held(swept: bool, s: State, job: JobKey, when: int) {
    || Past(swept, when, s.clock)
    || (IsDecided(s.claims, job) && when <= s.claims.recent[EventKey(job.jobId, DecidedMark)])
    || exists id :: AboutToMark(s, id, job)
  }

  predicate AboutToMark(s: State, id: nat, job: JobKey) {
    id in s.accepts && s.accepts[id].job == job && !MayDecide(s.accepts[id].at)
  }

  predicate MayDecide(at: AcceptAt) {
    !(at.Replied? && at.ok)
  }

  ghost predicate AcceptSafe(swept: bool, s: State) {
    && DecisionsApart(swept, s.hist)
    && (forall k :: k in s.claims.recent ==> s.claims.recent[k] <= s.clock)
    && (forall i :: 0 <= i < |s.hist| && s.hist[i].Decided? ==>
          s.hist[i].when <= s.clock && Held(swept, s, s.hist[i].job, s.hist[i].when))
    && (forall i, id | 0 <= i < |s.hist| && s.hist[i].Decided? && id in s.accepts
            && s.accepts[id].job == s.hist[i].job && MayDecide(s.accepts[id].at)
          :: Past(swept, s.hist[i].when, s.clock))
  }

  lemma EntryKeepsAcceptSafe(cfg: Config, swept: bool, s: State, id: nat, job: JobKey, event: EventType, stamp: int,
                             sweepAt: int)
    requires Exclusive(s) && AcceptSafe(swept, s)
    requires var step := Entry(id, job, event, stamp, sweepAt); Enabled(s, step) && (swept || !Sweeps(s, step))
    ensures AcceptSafe(swept, ApplyEntry(cfg, s, id, job, event, stamp, sweepAt))
  {
    var s' := ApplyEntry(cfg, s, id, job, event, stamp, sweepAt);
    forall i | 0 <= i < |s.hist| && s.hist[i].Decided?
      ensures Held(swept, s', s.hist[i].job, s.hist[i].when)
    {
      EntryKeepsHeld(cfg, swept, s, id, job, event, stamp, sweepAt, s.hist[i].job, s.hist[i].when);
    }
    forall i, k | 0 <= i < |s.hist| && s.hist[i].Decided? && k in s'.accepts
      && s'.accepts[k].job == s.hist[i].job && MayDecide(s'.accepts[k].at)
      ensures Past(swept, s.hist[i].when, s'.clock)
    {
      EntryBeginsPast(cfg, swept, s, id, job, event, stamp, sweepAt, i, k);
    }
  }

  /** An attempt on a decided job, be it the one that begins, is far enough from the decision. */
  lemma EntryBeginsPast(cfg: Config, swept: bool, s: State, id: nat, job: JobKey, event: EventType, stamp: int,
                        sweepAt: int, i: nat, k: nat)
    requires Exclusive(s) && AcceptSafe(swept, s)
    requires var step := Entry(id, job, event, stamp, sweepAt); Enabled(s, step) && (swept || !Sweeps(s, step))
    requires var s' := ApplyEntry(cfg, s, id, job, event, stamp, sweepAt);
      && i < |s.hist| && s.hist[i].Decided? && Held(swept, s', s.hist[i].job, s.hist[i].when)
      && k in s'.accepts && s'.accepts[k].job == s.hist[i].job && MayDecide(s'.accepts[k].at)
    ensures Past(swept, s.hist[i].when, ApplyEntry(cfg, s, id, job, event, stamp, sweepAt).clock)
  {
    var s' := ApplyEntry(cfg, s, id, job, event, stamp, sweepAt);
    if k == id {
      assert !IsDecided(s'.claims, job);
      assert forall o :: o in s.accepts ==> Accepting(s)[o] != job;
    }
  }

  lemma EntryKeepsHeld(cfg: Config, swept: bool, s: State, id: nat, job: JobKey, event: EventType, stamp: int,
                       sweepAt: int,
                       other: JobKey, when: int)
    requires Exclusive(s)
    requires forall k :: k in s.claims.recent ==> s.claims.recent[k] <= s.clock
    requires var step := Entry(id, job, event, stamp, sweepAt); Enabled(s, step) && (swept || !Sweeps(s, step))
    requires Held(swept, s, other, when) && when <= s.clock
    ensures Held(swept, ApplyEntry(cfg, s, id, job, event, stamp, sweepAt), other, when)
  {
    var s' := ApplyEntry(cfg, s, id, job, event, stamp, sweepAt);
    if o :| AboutToMark(s, o, other) {
      assert AboutToMark(s', o, other);
    }
  }

  /** A decision stays held when no mark is lost and every attempt about to mark is still there. */
  lemma HeldCarries(swept: bool, s: State, s': State, job: JobKey, when: int)
    requires Held(swept, s, job, when) && s.clock <= s'.clock
    requires IsDecided(s.claims, job) ==>
      IsDecided(s'.claims, job)
      && s.claims.recent[EventKey(job.jobId, DecidedMark)] <= s'.claims.recent[EventKey(job.jobId, DecidedMark)]
    requires forall o :: AboutToMark(s, o, job) ==> AboutToMark(s', o, job)
    ensures Held(swept, s', job, when)
  {
    if o :| AboutToMark(s, o, job) {
      assert AboutToMark(s', o, job);
    }
  }

  lemma MoveKeepsAcceptSafe(swept: bool, s: State, id: nat, at: AcceptAt)
    requires AcceptSafe(swept, s) && id in s.accepts
    requires MayDecide(s.accepts[id].at) && MayDecide(at)
    ensures AcceptSafe(swept, AcceptMovesTo(s, id, at))
  {
    var s' := AcceptMovesTo(s, id, at);
    forall i | 0 <= i < |s.hist| && s.hist[i].Decided?
      ensures Held(swept, s', s.hist[i].job, s.hist[i].when)
    {
      HeldCarries(swept, s, s', s.hist[i].job, s.hist[i].when);
    }
  }

  lemma AbandonKeepsAcceptSafe(swept: bool, s: State, id: nat)
    requires AcceptSafe(swept, s) && id in s.accepts && MayDecide(s.accepts[id].at)
    ensures AcceptSafe(swept, AcceptDone(s, id))
  {
    var s' := AcceptDone(s, id);
    forall i | 0 <= i < |s.hist| && s.hist[i].Decided?
      ensures Held(swept, s', s.hist[i].job, s.hist[i].when)
    {
      HeldCarries(swept, s, s', s.hist[i].job, s.hist[i].when);
    }
  }

  lemma DecisionKeepsAcceptSafe(cfg: Config, swept: bool, s: State, id: nat)
    requires Exclusive(s) && AcceptSafe(swept, s) && Enabled(s, CallServed(id, true))
    ensures AcceptSafe(swept, Apply(cfg, s, CallServed(id, true)))
  {
    var s' := Apply(cfg, s, CallServed(id, true));
    var job := s.accepts[id].job;
    assert AboutToMark(s', id, job);
    assert forall o :: o in s.accepts && o != id ==> Accepting(s)[o] != Accepting(s)[id];
    forall i | 0 <= i < |s.hist| && s.hist[i].Decided?
      ensures Held(swept, s', s.hist[i].job, s.hist[i].when)
    {
      HeldCarries(swept, s, s', s.hist[i].job, s.hist[i].when);
    }
  }

  lemma MarkKeepsAcceptSafe(cfg: Config, swept: bool, s: State, id: nat, now: int)
    requires Exclusive(s) && AcceptSafe(swept, s) && Enabled(s, CallResumed(id, now)) && s.accepts[id].at.ok
    ensures AcceptSafe(swept, Apply(cfg, s, CallResumed(id, now)))
  {
    var s' := Apply(cfg, s, CallResumed(id, now));
    var job := s.accepts[id].job;
    forall i | 0 <= i < |s.hist| && s.hist[i].Decided?
      ensures Held(swept, s', s.hist[i].job, s.hist[i].when)
    {
      if s.hist[i].job != job {
        HeldCarries(swept, s, s', s.hist[i].job, s.hist[i].when);
      }
    }
  }

  lemma ClockKeepsAcceptSafe(swept: bool, s: State, now: int)
    requires AcceptSafe(swept, s) && s.clock <= now
    ensures AcceptSafe(swept, s.(clock := now))
  {
    var s' := s.(clock := now);
    forall i | 0 <= i < |s.hist| && s.hist[i].Decided?
      ensures Held(swept, s', s.hist[i].job, s.hist[i].when)
    {
      HeldCarries(swept, s, s', s.hist[i].job, s.hist[i].when);
    }
  }

  predicate OnDeliveryPath(step: Step) {
    step.RemoteMoves? || step.FetchServed? || step.FetchResumed? || step.RequirementReady? || step.HandlerDone?
    || step.SubmitServed? || step.SubmitResumed? || step.DeliveryEnds?
  }

  /** The delivery path neither decides, nor marks, nor touches an accept attempt. */
  lemma DeliveryStepIsForeign(cfg: Config, s: State, step: Step) returns (more: seq<Event>)
    requires Enabled(s, step) && OnDeliveryPath(step)
    ensures Apply(cfg, s, step).accepts == s.accepts && Apply(cfg, s, step).claims.recent == s.claims.recent
    ensures s.clock <= Apply(cfg, s, step).clock
    ensures Apply(cfg, s, step).hist == s.hist + more && |more| <= 1
    ensures forall e :: e in more ==> e.SubmitCalled? || e.SubmitLanded?
  {
    more := Apply(cfg, s, step).hist[|s.hist|..];
  }

  lemma ForeignKeepsAcceptSafe(swept: bool, s: State, s': State, more: seq<Event>)
    requires AcceptSafe(swept, s) && s.clock <= s'.clock
    requires s'.accepts == s.accepts && s'.claims.recent == s.claims.recent
    requires s'.hist == s.hist + more && |more| <= 1
    requires forall e :: e in more ==> e.SubmitCalled? || e.SubmitLanded?
    ensures AcceptSafe(swept, s')
  {
    forall i | |s.hist| <= i < |s'.hist|
      ensures !s'.hist[i].Decided?
    {
      assert s'.hist[i] in more;
    }
    forall i | 0 <= i < |s.hist| && s.hist[i].Decided?
      ensures Held(swept, s', s.hist[i].job, s.hist[i].when)
    {
      HeldCarries(swept, s, s', s.hist[i].job, s.hist[i].when);
    }
  }

  lemma StepKeepsAcceptSafe(cfg: Config, swept: bool, s: State, step: Step)
    requires Exclusive(s) && AcceptSafe(swept, s) && Enabled(s, step) && (swept || !Sweeps(s, step))
    ensures AcceptSafe(swept, Apply(cfg, s, step))
  {
    var s' := Apply(cfg, s, step);
    if OnDeliveryPath(step) {
      var more := DeliveryStepIsForeign(cfg, s, step);
      ForeignKeepsAcceptSafe(swept, s, s', more);
    } else {
      match step
      case Elapse(now) => ClockKeepsAcceptSafe(swept, s, now);
      case Entry(id, job, event, stamp, sweepAt) =>
        EntryKeepsAcceptSafe(cfg, swept, s, id, job, event, stamp, sweepAt);
      case CallServed(id, ok) =>
        if ok {
          DecisionKeepsAcceptSafe(cfg, swept, s, id);
        } else {
          MoveKeepsAcceptSafe(swept, s, id, s'.accepts[id].at);
        }
      case CallResumed(id, now) =>
        if s.accepts[id].at.ok {
          MarkKeepsAcceptSafe(cfg, swept, s, id, now);
        } else {
          ClockKeepsAcceptSafe(swept, s, now);
          AttemptStep(swept, s.(clock := now), s', id);
        }
      case AcceptFetched(id, _, _) => AttemptStep(swept, s, s', id);
      case SubjectParsed(id, _) => AttemptStep(swept, s, s', id);
      case GateReplied(id, _) => AttemptStep(swept, s, s', id);
      case AcceptObserved(id) => AttemptStep(swept, s, s', id);
    }
  }

  lemma AttemptStep(swept: bool, s: State, s': State, id: nat)
    requires AcceptSafe(swept, s) && id in s.accepts && MayDecide(s.accepts[id].at)
    requires if id in s'.accepts then MayDecide(s'.accepts[id].at) && s' == AcceptMovesTo(s, id, s'.accepts[id].at)
             else s' == AcceptDone(s, id)
    ensures AcceptSafe(swept, s')
  {
    if id in s'.accepts {
      MoveKeepsAcceptSafe(swept, s, id, s'.accepts[id].at);
    } else {
      AbandonKeepsAcceptSafe(swept, s, id);
    }
  }

  /** In every run two decisions on one job are further apart than the dedup window; in a run in
      which the sweep never fires (`swept` false) there is at most one decision on a job. */
  lemma {:induction false} DecisionsStayApart(cfg: Config, swept: bool, states: seq<State>, steps: seq<Step>, n: nat)
    requires Run(cfg, states, steps) && n < |states|
    requires swept || forall i :: 0 <= i < |steps| ==> !Sweeps(states[i], steps[i])
    ensures AcceptSafe(swept, states[n]) && DecisionsApart(swept, states[n].hist)
  {
    if n > 0 {
      DecisionsStayApart(cfg, swept, states, steps, n - 1);
      RunIsExclusive(cfg, states, steps, n - 1);
      StepKeepsAcceptSafe(cfg, swept, states[n - 1], steps[n - 1]);
    }
  }
}
