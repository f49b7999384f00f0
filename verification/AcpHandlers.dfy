/** The two job handlers as they are written, for one job with nothing in between: early returns, nested
    try blocks and the release at the end, as runs of the protocol's steps. */
module AcpHandlers {
  import opened AcpClaims
  import opened AcpProtocol
  import opened Options
  import opened Jobs

  // How the outside answers one delivery: the fetched and the cached job, the handler, and the submits.
  datatype Funding = Funding(fetched: Option<JobView>, cached: Option<JobView>, handled: bool,
                             submits: bool, fallbackSubmits: bool, now: int)

  function Current(a: Funding): Option<JobView> {
    if a.fetched.Some? then a.fetched else a.cached
  }

  predicate Delivers(a: Funding) {
    Current(a).Some? && !Current(a).value.status.NotFunded? && Current(a).value.serviceable
  }

  predicate FallsBack(a: Funding)
    requires Delivers(a)
  {
    !(a.handled && a.submits && Renderable(Current(a).value, a.now))
  }

  function Submitted(job: JobKey, lands: bool): seq<Event> {
    [SubmitCalled(job)] + if lands then [SubmitLanded(job)] else []
  }

  /** What one delivery signs: the deliverable when the handler made one, and the fallback unless all
      went well. */
  function DeliveryEvents(job: JobKey, a: Funding): seq<Event> {
    if !Delivers(a) then []
    else
      (if a.handled then Submitted(job, a.submits) else [])
      + if FallsBack(a) then Submitted(job, a.fallbackSubmits) else []
  }

  /** A funded job that is not known to have moved on always gets a submit; it gets a landed one exactly
      when one of the submits tried went through. */
  lemma FundedIsAnswered(job: JobKey, a: Funding)
    ensures Delivers(a) <==> SubmitCalled(job) in DeliveryEvents(job, a)
    ensures SubmitLanded(job) in DeliveryEvents(job, a) <==>
      Delivers(a) && ((a.handled && a.submits) || (FallsBack(a) && a.fallbackSubmits))
    ensures forall e :: e in DeliveryEvents(job, a) ==> e == SubmitCalled(job) || e == SubmitLanded(job)
  {
    if Delivers(a) {
      var first := if a.handled then Submitted(job, a.submits) else [];
      var second := if FallsBack(a) then Submitted(job, a.fallbackSubmits) else [];
      assert DeliveryEvents(job, a) == first + second;
      assert first != [] ==> first[0] == SubmitCalled(job);
      assert second != [] ==> second[0] == SubmitCalled(job);
      assert a.handled && a.submits ==> first[1] == SubmitLanded(job);
      assert FallsBack(a) && a.fallbackSubmits ==> second[1] == SubmitLanded(job);
    }
  }

  /** The job says it is still waiting for a deliverable the adapter can make. */
  predicate Awaits(view: JobView) {
    !view.status.NotFunded? && view.serviceable
  }

  /** Without a deliverable sent for a job known to be past that, and the fetched job decides where there is one. */
  lemma FreshJobDecides(job: JobKey, a: Funding)
    ensures a.fetched.Some? ==> (DeliveryEvents(job, a) == [] <==> !Awaits(a.fetched.value))
    ensures a.fetched.None? ==> (DeliveryEvents(job, a) == [] <==> a.cached.None? || !Awaits(a.cached.value))
  {
    if Delivers(a) {
      FundedIsAnswered(job, a);
    }
  }

  // The last date that can be printed, in seconds since the epoch.
  const LAST_DATE_SEC: real := 8640000000000.0

  /** A landed deliverable stands alone when the expiry can be printed: an agreed one, in seconds, decides by
      itself, and otherwise the time of the reply and the SLA do. Past the last date the fallback goes out. */
  lemma LandedDeliverableStands(job: JobKey, a: Funding)
    requires Delivers(a) && a.handled && a.submits
    ensures var events, view := DeliveryEvents(job, a), Current(a).value;
      var landed := [SubmitCalled(job), SubmitLanded(job)];
      match view.expiredAt
      case Some(sec) =>
        && (0.0 < sec <= LAST_DATE_SEC ==> events == landed)
        && (sec > LAST_DATE_SEC ==> events == landed + Submitted(job, a.fallbackSubmits))
        && (sec <= 0.0 && (a.now + view.slaMs) as real <= LAST_DATE_SEC * 1000.0 ==> events == landed)
      case None =>
        if (a.now + view.slaMs) as real <= LAST_DATE_SEC * 1000.0 then events == landed
        else events == landed + Submitted(job, a.fallbackSubmits)
  {
    assert Submitted(job, true) == [SubmitCalled(job), SubmitLanded(job)];
  }

  // How the outside answers one accept attempt; offering and calls as in the protocol.
  datatype Proposal = Proposal(fetched: bool, offering: Offering, subject: bool, verdict: Verdict,
                               calls: map<Call, bool>)

  predicate Goes(a: Proposal, call: Call) {
    call in a.calls && a.calls[call]
  }

  function CallEvent(job: JobKey, call: Call): Event {
    if call.Budget? then BudgetCalled(job) else RejectCalled(job)
  }

  function FirstCall(cfg: Config, a: Proposal): Option<Call> {
    if !a.fetched || a.offering.Unnamed? then None
    else if a.offering.Unhandled? then Some(RejectUnknownOffering)
    else if !a.subject then Some(RejectNoSubject)
    else if cfg.gated && a.verdict.Deny? then Some(RejectByGate)
    else Some(Budget)
  }

  /** What is tried after a call that failed. */
  function NextCall(call: Call): Option<Call> {
    match call
    case RejectByGate => Some(Budget)
    case Budget => Some(RejectAfterBudget)
    case _ => None
  }

  function CallsLeft(call: Call): nat {
    match call
    case RejectByGate => 3
    case Budget => 2
    case _ => 1
  }

  /** What follows a call: its decision when it goes through, or the next call and what follows that. */
  function AfterCall(job: JobKey, a: Proposal, call: Call, at: int): seq<Event>
    decreases CallsLeft(call)
  {
    if Goes(a, call) then [Decided(job, at)]
    else if NextCall(call).None? then []
    else [CallEvent(job, NextCall(call).value)] + AfterCall(job, a, NextCall(call).value, at)
  }

  predicate DecidesFrom(a: Proposal, call: Call)
    decreases CallsLeft(call)
  {
    Goes(a, call) || (NextCall(call).Some? && DecidesFrom(a, NextCall(call).value))
  }

  function Freed(c: Claims, job: JobKey): Claims {
    c.(inFlight := c.inFlight - {job})
  }

  function Released(c: Claims, job: JobKey): Claims {
    c.(accepting := c.accepting - {job})
  }

  /** The claims when an attempt that had come to `call` is over. */
  function Settled(c: Claims, job: JobKey, a: Proposal, call: Call, at: int): Claims {
    Released(if DecidesFrom(a, call) then MarkedDecided(c, job, at) else c, job)
  }

  /** An attempt decides exactly when one of the calls it comes to goes through; it decides once and
      does nothing after that. */
  lemma {:induction false} DecidesAtMostOnce(job: JobKey, a: Proposal, call: Call, at: int)
    ensures var events := AfterCall(job, a, call, at);
      && (DecidesFrom(a, call) <==> Decided(job, at) in events)
      && forall i :: 0 <= i < |events| && events[i].Decided? ==> i == |events| - 1
    decreases CallsLeft(call)
  {
    if !Goes(a, call) && NextCall(call).Some? {
      var next := NextCall(call).value;
      DecidesAtMostOnce(job, a, next, at);
      var events := AfterCall(job, a, call, at);
      assert events == [CallEvent(job, next)] + AfterCall(job, a, next, at);
      assert events[1..] == AfterCall(job, a, next, at);
    }
  }

  /** What one attempt signs: its first call and what follows it. */
  function AttemptEvents(cfg: Config, job: JobKey, a: Proposal, at: int): seq<Event> {
    var call := FirstCall(cfg, a);
    if call.None? then [] else [CallEvent(job, call.value)] + AfterCall(job, a, call.value, at)
  }

  /** The offering is named, known and has a subject. */
  predicate Served(a: Proposal) {
    a.fetched && !a.offering.Unnamed? && !a.offering.Unhandled? && a.subject
  }

  /** A budget is proposed for a job that can be served unless the gate turns it down and the rejection goes
      through; a rejection is tried for one that cannot be served, is turned down, or gets no budget; nothing is
      signed when the job cannot be fetched or names no offering. */
  lemma AttemptCalls(cfg: Config, job: JobKey, a: Proposal, at: int)
    ensures var events := AttemptEvents(cfg, job, a, at);
      var denied := Served(a) && cfg.gated && a.verdict.Deny?;
      && (events == [] <==> !a.fetched || a.offering.Unnamed?)
      && (BudgetCalled(job) in events <==> Served(a) && (denied ==> !Goes(a, RejectByGate)))
      && (RejectCalled(job) in events <==>
            a.fetched && !a.offering.Unnamed? && (!Served(a) || denied || !Goes(a, Budget)))
  {
    var call := FirstCall(cfg, a);
    if call.Some? {
      CallsFollow(job, a, call.value, at);
    }
  }

  lemma CallsFollow(job: JobKey, a: Proposal, call: Call, at: int)
    ensures var events := AfterCall(job, a, call, at);
      && (BudgetCalled(job) in events <==> call.RejectByGate? && !Goes(a, call))
      && (RejectCalled(job) in events <==> (call.Budget? || call.RejectByGate?) && !Goes(a, call) && !Goes(a, Budget))
  {
    assert AfterCall(job, a, RejectAfterBudget, at) == if Goes(a, RejectAfterBudget) then [Decided(job, at)] else [];
    assert !Goes(a, Budget) ==>
      AfterCall(job, a, Budget, at) == [RejectCalled(job)] + AfterCall(job, a, RejectAfterBudget, at);
    assert !Goes(a, RejectByGate) ==>
      AfterCall(job, a, RejectByGate, at) == [BudgetCalled(job)] + AfterCall(job, a, Budget, at);
  }

  class AcpRun {
    const cfg: Config
    const adapter: AcpAdapter
    var clock: int
    var deliveries: map<nat, Delivery>
    var accepts: map<nat, Acceptance>
    var funded: set<JobKey>
    var hist: seq<Event>

    constructor (cfg: Config, now: int, funded: set<JobKey>)
      ensures this.cfg == cfg && fresh(adapter) && clock == now && this.funded == funded
      ensures Init(View())
    {
      this.cfg, this.funded, clock := cfg, funded, now;
      adapter := new AcpAdapter();
      deliveries, accepts, hist := map[], map[], [];
    }

    function Claimed(): Claims
      reads adapter
    {
      adapter.View()
    }

    function View(): State
      reads this, adapter
    {
      State(clock, Claimed(), deliveries, accepts, funded, hist)
    }

    /** An entry, up to the first await of the handler it starts. */
    method HandleEntry(id: nat, job: JobKey, event: EventType, stamp: int, sweepAt: int)
      requires Enabled(View(), Entry(id, job, event, stamp, sweepAt))
      modifies this, adapter
      ensures View() == Apply(cfg, old(View()), Entry(id, job, event, stamp, sweepAt))
    {
      var begins := adapter.HandleEntry(job, event, stamp, sweepAt);
      clock := sweepAt;
      match begins
      case Nothing =>
      case BeginsDelivery =>
        deliveries := deliveries[id := Delivery(job, if cfg.observeOnly then Observing else Fetching)];
      case BeginsAccept =>
        accepts := accepts[id := Acceptance(job, if cfg.observeOnly then Observing' else Fetching')];
    }

    method DeliveryAtStage(id: nat, at: DeliveryAt)
      requires id in deliveries
      modifies this`deliveries, this`hist
      ensures View() == DeliveryMovesTo(old(View()), id, at)
    {
      var d := deliveries[id];
      deliveries := deliveries[id := d.(at := at)];
      if at.Submitting? {
        hist := hist + [SubmitCalled(d.job)];
      }
    }

    method EndDelivery(id: nat)
      requires id in deliveries
      modifies this`deliveries, adapter
      ensures View() == DeliveryDone(old(View()), id)
    {
      adapter.ReleaseFlight(deliveries[id].job);
      deliveries := deliveries - {id};
    }

    /** One submit that was called, up to its reply. */
    method AwaitSubmit(id: nat, ok: bool)
      requires id in deliveries && deliveries[id].at.Submitting?
      modifies this`deliveries, this`hist, this`funded
      ensures View() == Apply(cfg, old(View()), SubmitServed(id, ok))
    {
      var d := deliveries[id];
      DeliveryAtStage(id, SubmitReplied(d.at.attempt, ok, d.at.view));
      if ok {
        funded := funded - {d.job};
        hist := hist + [SubmitLanded(d.job)];
      }
    }

    /** From the fetch to the handler: None when the delivery ends there. */
    method Recheck(id: nat, a: Funding) returns (view: Option<JobView>, ghost steps: seq<Step>)
      requires id in deliveries && deliveries[id].at.Fetching?
      modifies this`deliveries, adapter, this`hist
      ensures Reached(cfg, old(View()), steps, View())
      ensures view == if Delivers(a) then Current(a) else None
      ensures view.None? ==> View() == DeliveryDone(old(View()), id)
      ensures view.Some? ==> View() == DeliveryMovesTo(old(View()), id, Handling(view.value))
    {
      ghost var start := View();
      steps := [];
      DeliveryAtStage(id, Fetched(a.fetched));
      ReachedOneMore(cfg, start, steps, start, FetchServed(id, a.fetched));
      steps := steps + [FetchServed(id, a.fetched)];
      ghost var fetched := View();
      var job := if a.fetched.Some? then a.fetched else a.cached;
      ReachedOneMore(cfg, start, steps, fetched, FetchResumed(id, a.cached));
      steps := steps + [FetchResumed(id, a.cached)];
      if job.None? || job.value.status.NotFunded? || !job.value.serviceable {
        EndDelivery(id);
        SameDone(start, id, Fetched(a.fetched));
        return None, steps;
      }
      DeliveryAtStage(id, Resolving(job.value));
      ghost var resolving := View();
      DeliveryAtStage(id, Handling(job.value));
      ReachedOneMore(cfg, start, steps, resolving, RequirementReady(id));
      SameMoves(start, id, Fetched(a.fetched), Resolving(job.value), Handling(job.value));
      return job, steps + [RequirementReady(id)];
    }

    /** The fallback deliverable, submitted once whatever becomes of it. */
    method SubmitFallback(id: nat, ok: bool, now: int) returns (ghost steps: seq<Step>)
      requires id in deliveries && deliveries[id].at.Submitting? && deliveries[id].at.attempt.Fallback? && clock <= now
      modifies this, adapter
      ensures Reached(cfg, old(View()), steps, View())
      ensures id !in deliveries && Claimed() == Freed(old(Claimed()), old(deliveries)[id].job)
      ensures hist == old(hist) + if ok then [SubmitLanded(old(deliveries)[id].job)] else []
    {
      ghost var start := View();
      AwaitSubmit(id, ok);
      ReachedOneMore(cfg, start, [], start, SubmitServed(id, ok));
      ghost var replied := View();
      clock := now;
      EndDelivery(id);
      ReachedOneMore(cfg, start, [] + [SubmitServed(id, ok)], replied, SubmitResumed(id, now));
      return [] + [SubmitServed(id, ok)] + [SubmitResumed(id, now)];
    }

    /** The submit of the deliverable, up to its reply. */
    method TryDeliverable(id: nat, view: JobView, submits: bool) returns (ghost steps: seq<Step>)
      requires id in deliveries && deliveries[id].at == Handling(view)
      modifies this, adapter
      ensures Reached(cfg, old(View()), steps, View())
      ensures var job := old(deliveries)[id].job;
        && id in deliveries && deliveries[id] == Delivery(job, SubmitReplied(Deliverable, submits, view))
        && Claimed() == old(Claimed()) && clock == old(clock)
        && hist == old(hist) + Submitted(job, submits)
    {
      ghost var start := View();
      DeliveryAtStage(id, Submitting(Deliverable, view));
      ReachedOneMore(cfg, start, [], start, HandlerDone(id, true));
      ghost var submitting := View();
      AwaitSubmit(id, submits);
      ReachedOneMore(cfg, start, [] + [HandlerDone(id, true)], submitting, SubmitServed(id, submits));
      return [] + [HandlerDone(id, true)] + [SubmitServed(id, submits)];
    }

    /** What follows the reply: the nudge, which fails when the expiry cannot be printed, and then the end or
        the fallback. */
    method AfterReply(id: nat, now: int) returns (delivered: bool, ghost steps: seq<Step>)
      requires id in deliveries && deliveries[id].at.SubmitReplied? && deliveries[id].at.attempt.Deliverable?
      requires clock <= now
      modifies this, adapter
      ensures Reached(cfg, old(View()), steps, View())
      ensures delivered <==> old(deliveries)[id].at.ok && Renderable(old(deliveries)[id].at.view, now)
      ensures var d := old(deliveries)[id];
        && (delivered ==> id !in deliveries && Claimed() == Freed(old(Claimed()), d.job) && hist == old(hist))
        && (!delivered ==>
              && id in deliveries && deliveries[id] == Delivery(d.job, Submitting(Fallback, d.at.view))
              && Claimed() == old(Claimed()) && hist == old(hist) + [SubmitCalled(d.job)])
      ensures clock == now
    {
      ghost var start := View();
      var at := deliveries[id].at;
      clock := now;
      delivered := at.ok && Renderable(at.view, now);
      DeliveryAtStage(id, if delivered then AfterSubmit else Submitting(Fallback, at.view));
      ReachedOneMore(cfg, start, [], start, SubmitResumed(id, now));
      steps := [] + [SubmitResumed(id, now)];
      if delivered {
        ghost var after := View();
        EndDelivery(id);
        ReachedOneMore(cfg, start, steps, after, DeliveryEnds(id));
        steps := steps + [DeliveryEnds(id)];
      }
    }

    /** The deliverable, and the nudge after it; not delivered means the fallback is up next. */
    method SubmitDeliverable(id: nat, view: JobView, submits: bool, now: int)
        returns (delivered: bool, ghost steps: seq<Step>)
      requires id in deliveries && deliveries[id].at == Handling(view) && clock <= now
      modifies this, adapter
      ensures Reached(cfg, old(View()), steps, View())
      ensures delivered <==> submits && Renderable(view, now)
      ensures var job := old(deliveries)[id].job;
        && (delivered ==> id !in deliveries && Claimed() == Freed(old(Claimed()), job))
        && (!delivered ==>
              && id in deliveries && deliveries[id] == Delivery(job, Submitting(Fallback, view))
              && Claimed() == old(Claimed()))
        && hist == old(hist) + Submitted(job, submits) + if delivered then [] else [SubmitCalled(job)]
      ensures clock == now
    {
      ghost var start := View();
      steps := TryDeliverable(id, view, submits);
      ghost var replied := View();
      ghost var rest;
      delivered, rest := AfterReply(id, now);
      ReachedThrough(cfg, start, steps, replied, rest, View());
      steps := steps + rest;
    }

    /** Past the re-check: the deliverable if the handler makes one, and the fallback if it comes to it. */
    method Deliver(id: nat, view: JobView, a: Funding) returns (ghost steps: seq<Step>)
      requires id in deliveries && deliveries[id].at == Handling(view) && clock <= a.now
      requires Delivers(a) && Current(a).value == view
      modifies this, adapter
      ensures Reached(cfg, old(View()), steps, View())
      ensures id !in deliveries && Claimed() == Freed(old(Claimed()), old(deliveries)[id].job)
      ensures hist == old(hist) + DeliveryEvents(old(deliveries)[id].job, a)
    {
      ghost var start := View();
      if a.handled {
        var delivered;
        delivered, steps := SubmitDeliverable(id, view, a.submits, a.now);
        if delivered {
          return;
        }
      } else {
        DeliveryAtStage(id, Submitting(Fallback, view));
        ReachedOneMore(cfg, start, [], start, HandlerDone(id, false));
        steps := [] + [HandlerDone(id, false)];
      }
      ghost var falling := View();
      ghost var rest := SubmitFallback(id, a.fallbackSubmits, a.now);
      ReachedThrough(cfg, start, steps, falling, rest, View());
      return steps + rest;
    }

    /** The whole funded handler: on every path the flight claim is released, nothing is marked or
        rejected, and what is signed is exactly `DeliveryEvents`. */
    method HandleJobFunded(id: nat, a: Funding) returns (ghost steps: seq<Step>)
      requires id in deliveries && deliveries[id].at.Fetching? && clock <= a.now
      modifies this, adapter
      ensures Reached(cfg, old(View()), steps, View())
      ensures id !in deliveries && Claimed() == Freed(old(Claimed()), old(deliveries)[id].job)
      ensures hist == old(hist) + DeliveryEvents(old(deliveries)[id].job, a)
    {
      ghost var start := View();
      var view;
      view, steps := Recheck(id, a);
      if view.None? {
        return;
      }
      ghost var handling := View();
      ghost var rest := Deliver(id, view.value, a);
      ReachedThrough(cfg, start, steps, handling, rest, View());
      return steps + rest;
    }

    method AcceptAtStage(id: nat, at: AcceptAt)
      requires id in accepts
      modifies this`accepts, this`hist
      ensures View() == AcceptMovesTo(old(View()), id, at)
    {
      var a := accepts[id];
      accepts := accepts[id := a.(at := at)];
      if at.Calling? {
        hist := hist + [if at.call.Budget? then BudgetCalled(a.job) else RejectCalled(a.job)];
      }
    }

    method EndAccept(id: nat)
      requires id in accepts
      modifies this`accepts, adapter
      ensures View() == AcceptDone(old(View()), id)
    {
      adapter.ReleaseAccept(accepts[id].job);
      accepts := accepts - {id};
    }

    /** One signed call of an attempt: it ends the attempt with a mark when it goes through, and otherwise
        leads to the next call, or to the end. */
    method Sign(id: nat, call: Call, ok: bool) returns (ghost steps: seq<Step>)
      requires id in accepts && accepts[id].at == Calling(call)
      modifies this, adapter
      ensures Reached(cfg, old(View()), steps, View())
      ensures var job := old(accepts)[id].job;
        var next := if ok then None else NextCall(call);
        && clock == old(clock)
        && (next.None? ==>
              && id !in accepts
              && Claimed() == Released(if ok then MarkedDecided(old(Claimed()), job, clock) else old(Claimed()), job)
              && hist == old(hist) + if ok then [Decided(job, clock)] else [])
        && (next.Some? ==>
              && id in accepts && accepts[id] == Acceptance(job, Calling(next.value)) && Claimed() == old(Claimed())
              && hist == old(hist) + [CallEvent(job, next.value)])
    {
      ghost var start := View();
      var job := accepts[id].job;
      AcceptAtStage(id, Replied(call, ok));
      if ok {
        hist := hist + [Decided(job, clock)];
      }
      ReachedOneMore(cfg, start, [], start, CallServed(id, ok));
      ghost var replied := View();
      ReachedOneMore(cfg, start, [] + [CallServed(id, ok)], replied, CallResumed(id, clock));
      steps := [] + [CallServed(id, ok)] + [CallResumed(id, clock)];
      if ok {
        adapter.MarkDecided(job, clock);
        EndAccept(id);
      } else if NextCall(call).Some? {
        AcceptAtStage(id, Calling(NextCall(call).value));
      } else {
        EndAccept(id);
      }
    }

    /** From the fetch to the first call: None when the attempt ends without one. */
    method Assess(id: nat, a: Proposal) returns (call: Option<Call>, ghost steps: seq<Step>)
      requires id in accepts && accepts[id].at.Fetching'?
      modifies this, adapter
      ensures Reached(cfg, old(View()), steps, View())
      ensures call == FirstCall(cfg, a)
      ensures var job := old(accepts)[id].job;
        && clock == old(clock)
        && (call.None? ==> id !in accepts && Claimed() == Released(old(Claimed()), job) && hist == old(hist))
        && (call.Some? ==>
              && id in accepts && accepts[id] == Acceptance(job, Calling(call.value)) && Claimed() == old(Claimed())
              && hist == old(hist) + [CallEvent(job, call.value)])
    {
      ghost var start := View();
      var fetched := AcceptFetched(id, a.fetched, a.offering);
      ReachedOneMore(cfg, start, [], start, fetched);
      steps := [] + [fetched];
      if !a.fetched || a.offering.Unnamed? {
        EndAccept(id);
        return None, steps;
      }
      if a.offering.Unhandled? {
        AcceptAtStage(id, Calling(RejectUnknownOffering));
        return Some(RejectUnknownOffering), steps;
      }
      AcceptAtStage(id, Resolving');
      ghost var resolving := View();
      ReachedOneMore(cfg, start, steps, resolving, SubjectParsed(id, a.subject));
      steps := steps + [SubjectParsed(id, a.subject)];
      if !a.subject {
        AcceptAtStage(id, Calling(RejectNoSubject));
        return Some(RejectNoSubject), steps;
      }
      if cfg.gated {
        AcceptAtStage(id, Gating);
        ghost var gating := View();
        ReachedOneMore(cfg, start, steps, gating, GateReplied(id, a.verdict));
        steps := steps + [GateReplied(id, a.verdict)];
        if a.verdict.Deny? {
          AcceptAtStage(id, Calling(RejectByGate));
          return Some(RejectByGate), steps;
        }
      }
      AcceptAtStage(id, Calling(Budget));
      return Some(Budget), steps;
    }

    /** The accept itself: the budget, and a reject when it cannot be set. */
    method ProposeBudget(id: nat, a: Proposal) returns (ghost steps: seq<Step>)
      requires id in accepts && accepts[id].at == Calling(Budget)
      modifies this, adapter
      ensures Reached(cfg, old(View()), steps, View())
      ensures var job := old(accepts)[id].job;
        && id !in accepts && Claimed() == Settled(old(Claimed()), job, a, Budget, clock)
        && clock == old(clock) && hist == old(hist) + AfterCall(job, a, Budget, clock)
    {
      ghost var start, job := View(), accepts[id].job;
      var ok := Goes(a, Budget);
      steps := Sign(id, Budget, ok);
      if !ok {
        ghost var refused := View();
        ghost var more := Sign(id, RejectAfterBudget, Goes(a, RejectAfterBudget));
        ReachedThrough(cfg, start, steps, refused, more, View());
        steps := steps + more;
      }
    }

    /** From the first call on: the calls due one after the other, until one goes through. */
    method Decide(id: nat, call: Call, a: Proposal) returns (ghost steps: seq<Step>)
      requires id in accepts && accepts[id].at == Calling(call) && !call.RejectAfterBudget?
      modifies this, adapter
      ensures Reached(cfg, old(View()), steps, View())
      ensures var job := old(accepts)[id].job;
        && id !in accepts && Claimed() == Settled(old(Claimed()), job, a, call, clock)
        && clock == old(clock) && hist == old(hist) + AfterCall(job, a, call, clock)
    {
      ghost var start := View();
      if call.Budget? {
        steps := ProposeBudget(id, a);
        return;
      }
      var ok := Goes(a, call);
      steps := Sign(id, call, ok);
      if ok || !call.RejectByGate? {
        return;
      }
      ghost var proposing := View();
      ghost var rest := ProposeBudget(id, a);
      ReachedThrough(cfg, start, steps, proposing, rest, View());
      steps := steps + rest;
    }

    /** The whole accept handler: it makes the calls due one after the other until one goes through,
        releases the accept claim on every path, and marks the job decided exactly when one did. */
    method HandleJobCreated(id: nat, a: Proposal) returns (ghost steps: seq<Step>)
      requires id in accepts && accepts[id].at.Fetching'?
      modifies this, adapter
      ensures Reached(cfg, old(View()), steps, View())
      ensures id !in accepts
      ensures var job := old(accepts)[id].job;
        && hist == old(hist) + AttemptEvents(cfg, job, a, clock)
        && Claimed() == match FirstCall(cfg, a)
          case None => Released(old(Claimed()), job)
          case Some(call) => Settled(old(Claimed()), job, a, call, clock)
    {
      ghost var start := View();
      var call;
      call, steps := Assess(id, a);
      if call.None? {
        return;
      }
      ghost var assessed := View();
      ghost var rest := Decide(id, call.value, a);
      ReachedThrough(cfg, start, steps, assessed, rest, View());
      steps := steps + rest;
      Regroup(start.hist, [CallEvent(start.accepts[id].job, call.value)],
              AfterCall(start.accepts[id].job, a, call.value, clock));
    }
  }

  lemma Regroup<T>(a: seq<T>, b: seq<T>, c: seq<T>)
    ensures (a + b) + c == a + (b + c)
  {
  }

  lemma SameDone(s: State, id: nat, at: DeliveryAt)
    requires id in s.deliveries && !at.Submitting?
    ensures DeliveryDone(DeliveryMovesTo(s, id, at), id) == DeliveryDone(s, id)
  {
    assert s.deliveries[id := s.deliveries[id].(at := at)] - {id} == s.deliveries - {id};
  }

  lemma SameMoves(s: State, id: nat, a: DeliveryAt, b: DeliveryAt, c: DeliveryAt)
    requires id in s.deliveries && !a.Submitting? && !b.Submitting? && !c.Submitting?
    ensures DeliveryMovesTo(DeliveryMovesTo(DeliveryMovesTo(s, id, a), id, b), id, c) == DeliveryMovesTo(s, id, c)
  {
  }
}
