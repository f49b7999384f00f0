/** What every run of the ACP adapter keeps: single delivery, and accept decisions that stay
    apart. */
module AcpSafety {
  import opened AcpClaims
  import opened AcpProtocol
  import opened Options
  import opened Jobs

  // ---------- delivery ----------

  /** The remote side answers a fetch with the truth, does not put a delivered job back to funded,
      and the SLA expiry of a delivered job can be printed. */
  predicate Reliable(s: State, step: Step)
    requires Enabled(s, step)
  {
    match step
    case FetchServed(id, reply) =>
      reply.Some? && reply.value.status == if s.deliveries[id].job in s.funded then IsFunded else NotFunded
    case SubmitResumed(id, now) =>
      s.deliveries[id].at.attempt.Deliverable? && s.deliveries[id].at.ok ==>
        Renderable(s.deliveries[id].at.view, now)
    case RemoteMoves(job, isFunded) => isFunded ==> SubmitLanded(job) !in s.hist
    case _ => true
  }

  /** After a successful submit of a job, the job is not submitted again, successfully or not. */
  ghost predicate SubmitsOnce(h: seq<Event>) {
    forall i, j :: 0 <= i < j < |h| && h[i].SubmitLanded? ==>
      h[j] != SubmitCalled(h[i].job) && h[j] != SubmitLanded(h[i].job)
  }

  predicate HeadsToSubmit(at: DeliveryAt) {
    match at
    case Fetched(reply) => reply.None? || !reply.value.status.NotFunded?
    case SubmitReplied(_, ok, _) => !ok
    case _ => at.Resolving? || at.Handling? || at.Submitting?
  }

  ghost predicate DeliverySafe(s: State) {
    && SubmitsOnce(s.hist)
    && (forall job :: job in s.funded ==> SubmitLanded(job) !in s.hist)
    && (forall id :: id in s.deliveries && SubmitLanded(s.deliveries[id].job) in s.hist ==>
          !HeadsToSubmit(s.deliveries[id].at))
    && (forall id :: id in s.deliveries && s.deliveries[id].at.Fetched? ==> s.deliveries[id].at.reply.Some?)
  }

  lemma MoveKeepsDeliverySafe(s: State, id: nat, at: DeliveryAt)
    requires DeliverySafe(s) && id in s.deliveries
    requires HeadsToSubmit(at) ==> SubmitLanded(s.deliveries[id].job) !in s.hist
    requires at.Fetched? ==> at.reply.Some?
    ensures DeliverySafe(DeliveryMovesTo(s, id, at))
  {
  }

  lemma DoneKeepsDeliverySafe(s: State, id: nat)
    requires DeliverySafe(s) && id in s.deliveries
    ensures DeliverySafe(DeliveryDone(s, id))
  {
  }

  /** What the accept path does is invisible to the delivery path. */
  lemma ForeignKeepsDeliverySafe(s: State, s': State, more: seq<Event>)
    requires DeliverySafe(s)
    requires s'.deliveries == s.deliveries && s'.funded == s.funded && s'.hist == s.hist + more
    requires |more| <= 1 && forall e :: e in more ==> !e.SubmitCalled? && !e.SubmitLanded?
    ensures DeliverySafe(s')
  {
    assert forall job :: SubmitLanded(job) in s'.hist ==> SubmitLanded(job) in s.hist;
  }

  lemma AcceptStepIsForeign(cfg: Config, s: State, step: Step) returns (more: seq<Event>)
    requires Enabled(s, step)
    requires step.Elapse? || step.AcceptFetched? || step.SubjectParsed? || step.GateReplied?
          || step.CallServed? || step.CallResumed? || step.AcceptObserved?
    ensures Apply(cfg, s, step).deliveries == s.deliveries && Apply(cfg, s, step).funded == s.funded
    ensures Apply(cfg, s, step).hist == s.hist + more && |more| <= 1
    ensures forall e :: e in more ==> !e.SubmitCalled? && !e.SubmitLanded?
  {
    var h' := Apply(cfg, s, step).hist;
    more := h'[|s.hist|..];
  }

  lemma EntryKeepsDeliverySafe(cfg: Config, s: State, id: nat, job: JobKey, event: EventType, stamp: int, sweepAt: int)
    requires DeliverySafe(s) && Enabled(s, Entry(id, job, event, stamp, sweepAt))
    ensures DeliverySafe(ApplyEntry(cfg, s, id, job, event, stamp, sweepAt))
  {
  }

  lemma LandingKeepsDeliverySafe(cfg: Config, s: State, id: nat)
    requires Exclusive(s) && DeliverySafe(s) && Enabled(s, SubmitServed(id, true))
    ensures DeliverySafe(Apply(cfg, s, SubmitServed(id, true)))
  {
    var s' := Apply(cfg, s, SubmitServed(id, true));
    var job := s.deliveries[id].job;
    forall k | k in s'.deliveries && SubmitLanded(s'.deliveries[k].job) in s'.hist
      ensures !HeadsToSubmit(s'.deliveries[k].at)
    {
      if k != id {
        assert Delivering(s)[k] != Delivering(s)[id];
      }
    }
  }

  lemma StepKeepsDeliverySafe(cfg: Config, s: State, step: Step)
    requires Exclusive(s) && DeliverySafe(s) && Enabled(s, step) && Reliable(s, step)
    ensures DeliverySafe(Apply(cfg, s, step))
  {
    var s' := Apply(cfg, s, step);
    match step
    case RemoteMoves(_, _) =>
    case Entry(id, job, event, stamp, sweepAt) => EntryKeepsDeliverySafe(cfg, s, id, job, event, stamp, sweepAt);
    case FetchServed(id, reply) => MoveKeepsDeliverySafe(s, id, Fetched(reply));
    case FetchResumed(id, cached) =>
      if id in s'.deliveries {
        MoveKeepsDeliverySafe(s, id, s'.deliveries[id].at);
      } else {
        DoneKeepsDeliverySafe(s, id);
      }
    case RequirementReady(id) => MoveKeepsDeliverySafe(s, id, s'.deliveries[id].at);
    case HandlerDone(id, _) => MoveKeepsDeliverySafe(s, id, s'.deliveries[id].at);
    case SubmitServed(id, ok) =>
      if ok {
        LandingKeepsDeliverySafe(cfg, s, id);
      } else {
        MoveKeepsDeliverySafe(s, id, s'.deliveries[id].at);
      }
    case SubmitResumed(id, now) =>
      var s1 := s.(clock := now);
      if id in s'.deliveries {
        MoveKeepsDeliverySafe(s1, id, s'.deliveries[id].at);
      } else {
        DoneKeepsDeliverySafe(s1, id);
      }
    case DeliveryEnds(id) => DoneKeepsDeliverySafe(s, id);
    case _ =>
      var more := AcceptStepIsForeign(cfg, s, step);
      ForeignKeepsDeliverySafe(s, s', more);
  }

  // A run that gets into trouble only through the remote side's answers is not a Reliable one.
  ghost predicate ReliableRun(cfg: Config, states: seq<State>, steps: seq<Step>) {
    Run(cfg, states, steps) && forall i :: 0 <= i < |steps| ==> Reliable(states[i], steps[i])
  }

  lemma {:induction false} RunIsExclusive(cfg: Config, states: seq<State>, steps: seq<Step>, n: nat)
    requires Run(cfg, states, steps) && n < |states|
    ensures Exclusive(states[n])
  {
    if n == 0 {
      assert Delivering(states[0]) == map[] && Accepting(states[0]) == map[];
    } else {
      RunIsExclusive(cfg, states, steps, n - 1);
      StepKeepsExclusive(cfg, states[n - 1], steps[n - 1]);
    }
  }

  /** Each job is submitted successfully at most once, and is never submitted again after that. */
  lemma {:induction false} ReliableRunSubmitsOnce(cfg: Config, states: seq<State>, steps: seq<Step>, n: nat)
    requires ReliableRun(cfg, states, steps) && n < |states|
    ensures DeliverySafe(states[n]) && SubmitsOnce(states[n].hist)
  {
    if n > 0 {
      ReliableRunSubmitsOnce(cfg, states, steps, n - 1);
      RunIsExclusive(cfg, states, steps, n - 1);
      StepKeepsDeliverySafe(cfg, states[n - 1], steps[n - 1]);
    }
  }
}
