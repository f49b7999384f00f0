/** The accept and delivery paths of the ACP adapter as a state machine. A step is what runs
    between two awaits, or what the remote side does in between; steps interleave freely. */
module AcpProtocol {
  import opened AcpClaims
  import opened Options
  import opened Jobs

  // ---------- what the remote side can answer ----------

  // The status string of a fetched job, upper-cased: absent or empty, "FUNDED", or anything else.
  datatype Status = Blank | IsFunded | NotFunded

  // `expiredAt` is None when the field is no finite number; `slaMs` is the SLA of the job's offering,
  // which stands in for it.
  datatype JobView = JobView(status: Status, serviceable: bool, expiredAt: Option<real>, slaMs: nat)

  datatype Offering = Unnamed | Unhandled | Handled
  datatype Verdict = Threw | Allow | Deny

  // ---------- local progress of a handler ----------

  datatype Attempt = Deliverable | Fallback

  datatype DeliveryAt =
    | Observing
    | Fetching
    | Fetched(reply: Option<JobView>)
    | Resolving(view: JobView)
    | Handling(view: JobView)
    | Submitting(attempt: Attempt, view: JobView)
    | SubmitReplied(attempt: Attempt, ok: bool, view: JobView)
    | AfterSubmit

  datatype Delivery = Delivery(job: JobKey, at: DeliveryAt)

  datatype Call = RejectUnknownOffering | RejectNoSubject | RejectByGate | Budget | RejectAfterBudget

  datatype AcceptAt =
    | Observing'
    | Fetching'
    | Resolving'
    | Gating
    | Calling(call: Call)
    | Replied(call: Call, ok: bool)

  datatype Acceptance = Acceptance(job: JobKey, at: AcceptAt)

  datatype Event =
    | SubmitCalled(job: JobKey)
    | SubmitLanded(job: JobKey)
    | RejectCalled(job: JobKey)
    | BudgetCalled(job: JobKey)
    | Decided(job: JobKey, when: int)

  datatype Config = Config(observeOnly: bool, gated: bool)

  datatype State = State(
    clock: int,
    claims: Claims,
    deliveries: map<nat, Delivery>,
    accepts: map<nat, Acceptance>,
    funded: set<JobKey>,
    hist: seq<Event>)

  // ---------- expiry of a delivered job ----------

  const MAX_DATE_MS: real := 8640000000000000.0

  /** Whether the SLA expiry written into the nudge is a date that can be printed. */
  predicate Renderable(view: JobView, now: int) {
    if view.expiredAt.Some? && view.expiredAt.value > 0.0
    then view.expiredAt.value * 1000.0 <= MAX_DATE_MS
    else (now + view.slaMs) as real <= MAX_DATE_MS
  }

  // ---------- steps ----------

  datatype Step =
    | Elapse(now: int)
    | RemoteMoves(job: JobKey, isFunded: bool)
    | Entry(id: nat, job: JobKey, event: EventType, stamp: int, sweepAt: int)
    // delivery path
    | FetchServed(id: nat, reply: Option<JobView>)
    | FetchResumed(id: nat, cached: Option<JobView>)
    | RequirementReady(id: nat)
    | HandlerDone(id: nat, ok: bool)
    | SubmitServed(id: nat, ok: bool)
    | SubmitResumed(id: nat, now: int)
    | DeliveryEnds(id: nat)
    // accept path
    | AcceptFetched(id: nat, ok: bool, offering: Offering)
    | SubjectParsed(id: nat, found: bool)
    | GateReplied(id: nat, verdict: Verdict)
    | CallServed(id: nat, ok: bool)
    | CallResumed(id: nat, now: int)
    | AcceptObserved(id: nat)

  predicate Enabled(s: State, step: Step) {
    match step
    case Elapse(now) => s.clock <= now
    case RemoteMoves(_, _) => true
    case Entry(id, _, _, stamp, sweepAt) =>
      id !in s.deliveries && id !in s.accepts && s.clock <= stamp <= sweepAt
    case FetchServed(id, _) => id in s.deliveries && s.deliveries[id].at.Fetching?
    case FetchResumed(id, _) => id in s.deliveries && s.deliveries[id].at.Fetched?
    case RequirementReady(id) => id in s.deliveries && s.deliveries[id].at.Resolving?
    case HandlerDone(id, _) => id in s.deliveries && s.deliveries[id].at.Handling?
    case SubmitServed(id, _) => id in s.deliveries && s.deliveries[id].at.Submitting?
    case SubmitResumed(id, now) => id in s.deliveries && s.deliveries[id].at.SubmitReplied? && s.clock <= now
    case DeliveryEnds(id) => id in s.deliveries && (s.deliveries[id].at.AfterSubmit? || s.deliveries[id].at.Observing?)
    case AcceptFetched(id, _, _) => id in s.accepts && s.accepts[id].at.Fetching'?
    case SubjectParsed(id, _) => id in s.accepts && s.accepts[id].at.Resolving'?
    case GateReplied(id, _) => id in s.accepts && s.accepts[id].at.Gating?
    case CallServed(id, _) => id in s.accepts && s.accepts[id].at.Calling?
    case CallResumed(id, now) => id in s.accepts && s.accepts[id].at.Replied? && s.clock <= now
    case AcceptObserved(id) => id in s.accepts && s.accepts[id].at.Observing'?
  }

  function DeliveryMovesTo(s: State, id: nat, at: DeliveryAt): State
    requires id in s.deliveries
  {
    var d := s.deliveries[id];
    s.(deliveries := s.deliveries[id := d.(at := at)],
       hist := if at.Submitting? then s.hist + [SubmitCalled(d.job)] else s.hist)
  }

  /** The `finally` of the funded handler. */
  function DeliveryDone(s: State, id: nat): State
    requires id in s.deliveries
  {
    s.(claims := s.claims.(inFlight := s.claims.inFlight - {s.deliveries[id].job}),
       deliveries := s.deliveries - {id})
  }

  function AcceptMovesTo(s: State, id: nat, at: AcceptAt): State
    requires id in s.accepts
  {
    var a := s.accepts[id];
    s.(accepts := s.accepts[id := a.(at := at)],
       hist := if at.Calling? then
                 s.hist + [if at.call.Budget? then BudgetCalled(a.job) else RejectCalled(a.job)]
               else s.hist)
  }

  /** The `finally` around the accept attempt. */
  function AcceptDone(s: State, id: nat): State
    requires id in s.accepts
  {
    s.(claims := s.claims.(accepting := s.claims.accepting - {s.accepts[id].job}),
       accepts := s.accepts - {id})
  }

  function ApplyEntry(cfg: Config, s: State, id: nat, job: JobKey, event: EventType, stamp: int, sweepAt: int): State {
    var (claims, begins) := Entered(s.claims, job, event, stamp, sweepAt);
    var s1 := s.(clock := sweepAt, claims := claims);
    match begins
    case Nothing => s1
    case BeginsDelivery =>
      s1.(deliveries := s1.deliveries[id := Delivery(job, if cfg.observeOnly then Observing else Fetching)])
    case BeginsAccept =>
      s1.(accepts := s1.accepts[id := Acceptance(job, if cfg.observeOnly then Observing' else Fetching')])
  }

  function ApplyFetchResumed(s: State, id: nat, cached: Option<JobView>): State
    requires id in s.deliveries && s.deliveries[id].at.Fetched?
  {
    var reply := s.deliveries[id].at.reply;
    var job := if reply.Some? then reply else cached;
    if job.None? || job.value.status.NotFunded? || !job.value.serviceable
    then DeliveryDone(s, id)
    else DeliveryMovesTo(s, id, Resolving(job.value))
  }

  function ApplySubmitResumed(s: State, id: nat, now: int): State
    requires id in s.deliveries && s.deliveries[id].at.SubmitReplied?
  {
    var at := s.deliveries[id].at;
    var s1 := s.(clock := now);
    match at.attempt
    case Fallback => DeliveryDone(s1, id)
    case Deliverable =>
      if at.ok && Renderable(at.view, now) then DeliveryMovesTo(s1, id, AfterSubmit)
      else DeliveryMovesTo(s1, id, Submitting(Fallback, at.view))
  }

  function ApplyCallResumed(s: State, id: nat, now: int): State
    requires id in s.accepts && s.accepts[id].at.Replied?
  {
    var a := s.accepts[id];
    var s1 := s.(clock := now);
    if a.at.ok then AcceptDone(s1.(claims := MarkedDecided(s1.claims, a.job, now)), id)
    else match a.at.call
      case RejectByGate => AcceptMovesTo(s1, id, Calling(Budget))
      case Budget => AcceptMovesTo(s1, id, Calling(RejectAfterBudget))
      case _ => AcceptDone(s1, id)
  }

  function Apply(cfg: Config, s: State, step: Step): State
    requires Enabled(s, step)
  {
    match step
    case Elapse(now) => s.(clock := now)
    case RemoteMoves(job, isFunded) => s.(funded := if isFunded then s.funded + {job} else s.funded - {job})
    case Entry(id, job, event, stamp, sweepAt) => ApplyEntry(cfg, s, id, job, event, stamp, sweepAt)
    case FetchServed(id, reply) => DeliveryMovesTo(s, id, Fetched(reply))
    case FetchResumed(id, cached) => ApplyFetchResumed(s, id, cached)
    case RequirementReady(id) => DeliveryMovesTo(s, id, Handling(s.deliveries[id].at.view))
    case HandlerDone(id, ok) =>
      DeliveryMovesTo(s, id, Submitting(if ok then Deliverable else Fallback, s.deliveries[id].at.view))
    case SubmitServed(id, ok) =>
      var d := s.deliveries[id];
      var s1 := DeliveryMovesTo(s, id, SubmitReplied(d.at.attempt, ok, d.at.view));
      if ok then s1.(funded := s1.funded - {d.job}, hist := s1.hist + [SubmitLanded(d.job)]) else s1
    case SubmitResumed(id, now) => ApplySubmitResumed(s, id, now)
    case DeliveryEnds(id) => DeliveryDone(s, id)
    case AcceptFetched(id, ok, offering) =>
      if !ok || offering.Unnamed? then AcceptDone(s, id)
      else if offering.Unhandled? then AcceptMovesTo(s, id, Calling(RejectUnknownOffering))
      else AcceptMovesTo(s, id, Resolving')
    case SubjectParsed(id, found) =>
      AcceptMovesTo(s, id, if !found then Calling(RejectNoSubject) else if cfg.gated then Gating else Calling(Budget))
    case GateReplied(id, verdict) =>
      AcceptMovesTo(s, id, Calling(if verdict.Deny? then RejectByGate else Budget))
    case CallServed(id, ok) =>
      var a := s.accepts[id];
      var s1 := AcceptMovesTo(s, id, Replied(a.at.call, ok));
      if ok then s1.(hist := s1.hist + [Decided(a.job, s.clock)]) else s1
    case CallResumed(id, now) => ApplyCallResumed(s, id, now)
    case AcceptObserved(id) => AcceptDone(s, id)
  }

  // ---------- runs ----------

  predicate Init(s: State) {
    s.claims == Claims(map[], {}, {}) && s.deliveries == map[] && s.accepts == map[] && s.hist == []
  }

  ghost predicate Run(cfg: Config, states: seq<State>, steps: seq<Step>) {
    && |states| == |steps| + 1
    && Init(states[0])
    && forall i :: 0 <= i < |steps| ==>
         Enabled(states[i], steps[i]) && states[i + 1] == Apply(cfg, states[i], steps[i])
  }

  /** `after` is reached from `s` by the steps, one after the other. */
  ghost predicate Reached(cfg: Config, s: State, steps: seq<Step>, after: State)
    decreases |steps|
  {
    if steps == [] then s == after else Enabled(s, steps[0]) && Reached(cfg, Apply(cfg, s, steps[0]), steps[1..], after)
  }

  lemma {:induction false} ReachedOneMore(cfg: Config, s: State, steps: seq<Step>, mid: State, step: Step)
    requires Reached(cfg, s, steps, mid) && Enabled(mid, step)
    ensures Reached(cfg, s, steps + [step], Apply(cfg, mid, step))
    decreases |steps|
  {
    if steps == [] {
      assert (steps + [step])[1..] == [];
    } else {
      ReachedOneMore(cfg, Apply(cfg, s, steps[0]), steps[1..], mid, step);
      assert (steps + [step])[1..] == steps[1..] + [step];
    }
  }

  lemma {:induction false} ReachedThrough(cfg: Config, s: State, a: seq<Step>, mid: State, b: seq<Step>, after: State)
    requires Reached(cfg, s, a, mid) && Reached(cfg, mid, b, after)
    ensures Reached(cfg, s, a + b, after)
    decreases |a|
  {
    if a == [] {
      assert a + b == b;
    } else {
      ReachedThrough(cfg, Apply(cfg, s, a[0]), a[1..], mid, b, after);
      assert (a + b)[1..] == a[1..] + b;
    }
  }

  // ---------- claims are exactly the live handlers ----------

  function Delivering(s: State): map<nat, JobKey> {
    map id | id in s.deliveries :: s.deliveries[id].job
  }

  function Accepting(s: State): map<nat, JobKey> {
    map id | id in s.accepts :: s.accepts[id].job
  }

  ghost predicate Owns(owners: map<nat, JobKey>, id: nat, job: JobKey) {
    id in owners && owners[id] == job
  }

  /** `held` is the set of jobs that have an owner, and no job has two. */
  ghost predicate Owned(held: set<JobKey>, owners: map<nat, JobKey>) {
    && (forall id :: id in owners ==> owners[id] in held)
    && (forall job :: job in held ==> exists id :: Owns(owners, id, job))
    && (forall i, j :: i in owners && j in owners && owners[i] == owners[j] ==> i == j)
  }

  ghost predicate Exclusive(s: State) {
    Owned(s.claims.inFlight, Delivering(s)) && Owned(s.claims.accepting, Accepting(s))
  }

  lemma OwnerAdded(held: set<JobKey>, owners: map<nat, JobKey>, id: nat, job: JobKey)
    requires Owned(held, owners) && id !in owners && job !in held
    ensures Owned(held + {job}, owners[id := job])
  {
    var after := owners[id := job];
    forall j | j in held + {job}
      ensures exists k :: Owns(after, k, j)
    {
      if j == job {
        assert Owns(after, id, j);
      } else {
        var k :| Owns(owners, k, j);
        assert Owns(after, k, j);
      }
    }
  }

  lemma OwnerRemoved(held: set<JobKey>, owners: map<nat, JobKey>, id: nat)
    requires Owned(held, owners) && id in owners
    ensures Owned(held - {owners[id]}, owners - {id})
  {
    var after := owners - {id};
    forall j | j in held - {owners[id]}
      ensures exists k :: Owns(after, k, j)
    {
      var k :| Owns(owners, k, j);
      assert Owns(after, k, j);
    }
  }

  lemma DeliveryMovesKeepsOwners(s: State, id: nat, at: DeliveryAt)
    requires id in s.deliveries
    ensures Delivering(DeliveryMovesTo(s, id, at)) == Delivering(s)
    ensures Accepting(DeliveryMovesTo(s, id, at)) == Accepting(s)
  {
  }

  lemma AcceptMovesKeepsOwners(s: State, id: nat, at: AcceptAt)
    requires id in s.accepts
    ensures Delivering(AcceptMovesTo(s, id, at)) == Delivering(s)
    ensures Accepting(AcceptMovesTo(s, id, at)) == Accepting(s)
  {
  }

  lemma DeliveryDoneKeepsExclusive(s: State, id: nat)
    requires Exclusive(s) && id in s.deliveries
    ensures Exclusive(DeliveryDone(s, id))
  {
    OwnerRemoved(s.claims.inFlight, Delivering(s), id);
    assert Delivering(DeliveryDone(s, id)) == Delivering(s) - {id};
    assert Accepting(DeliveryDone(s, id)) == Accepting(s);
  }

  lemma AcceptDoneKeepsExclusive(s: State, id: nat)
    requires Exclusive(s) && id in s.accepts
    ensures Exclusive(AcceptDone(s, id))
  {
    OwnerRemoved(s.claims.accepting, Accepting(s), id);
    assert Accepting(AcceptDone(s, id)) == Accepting(s) - {id};
    assert Delivering(AcceptDone(s, id)) == Delivering(s);
  }

  lemma DeliveryBegins(s: State, s': State, id: nat, d: Delivery)
    requires Exclusive(s) && id !in s.deliveries && d.job !in s.claims.inFlight
    requires s'.deliveries == s.deliveries[id := d] && s'.accepts == s.accepts
    requires s'.claims.inFlight == s.claims.inFlight + {d.job} && s'.claims.accepting == s.claims.accepting
    ensures Exclusive(s')
  {
    OwnerAdded(s.claims.inFlight, Delivering(s), id, d.job);
    assert Delivering(s') == Delivering(s)[id := d.job];
    assert Accepting(s') == Accepting(s);
  }

  lemma AcceptBegins(s: State, s': State, id: nat, a: Acceptance)
    requires Exclusive(s) && id !in s.accepts && a.job !in s.claims.accepting
    requires s'.accepts == s.accepts[id := a] && s'.deliveries == s.deliveries
    requires s'.claims.accepting == s.claims.accepting + {a.job} && s'.claims.inFlight == s.claims.inFlight
    ensures Exclusive(s')
  {
    OwnerAdded(s.claims.accepting, Accepting(s), id, a.job);
    assert Accepting(s') == Accepting(s)[id := a.job];
    assert Delivering(s') == Delivering(s);
  }

  /** Of the two claim sets an entry takes at most one, for its own job, which was free. */
  lemma EntryClaims(c: Claims, job: JobKey, event: EventType, stamp: int, sweepAt: int)
    ensures var (c', begins) := Entered(c, job, event, stamp, sweepAt);
      && (begins.BeginsDelivery? ==> job !in c.inFlight)
      && (begins.BeginsAccept? ==> job !in c.accepting)
      && c'.inFlight == (if begins.BeginsDelivery? then c.inFlight + {job} else c.inFlight)
      && c'.accepting == (if begins.BeginsAccept? then c.accepting + {job} else c.accepting)
  {
  }

  lemma EntryKeepsExclusive(cfg: Config, s: State, id: nat, job: JobKey, event: EventType, stamp: int, sweepAt: int)
    requires Exclusive(s) && Enabled(s, Entry(id, job, event, stamp, sweepAt))
    ensures Exclusive(ApplyEntry(cfg, s, id, job, event, stamp, sweepAt))
  {
    var s' := ApplyEntry(cfg, s, id, job, event, stamp, sweepAt);
    EntryClaims(s.claims, job, event, stamp, sweepAt);
    match Entered(s.claims, job, event, stamp, sweepAt).1
    case Nothing => SameOwners(s, s');
    case BeginsDelivery => DeliveryBegins(s, s', id, s'.deliveries[id]);
    case BeginsAccept => AcceptBegins(s, s', id, s'.accepts[id]);
  }

  lemma SameOwners(s: State, s': State)
    requires Exclusive(s) && Delivering(s') == Delivering(s) && Accepting(s') == Accepting(s)
    requires s'.claims.inFlight == s.claims.inFlight && s'.claims.accepting == s.claims.accepting
    ensures Exclusive(s')
  {
  }

  lemma DeliveryStepKeepsExclusive(cfg: Config, s: State, step: Step)
    requires Exclusive(s) && Enabled(s, step)
    requires step.FetchServed? || step.FetchResumed? || step.RequirementReady? || step.HandlerDone?
          || step.SubmitServed? || step.SubmitResumed? || step.DeliveryEnds?
    ensures Exclusive(Apply(cfg, s, step))
  {
    var s' := Apply(cfg, s, step);
    var s1 := if step.SubmitResumed? then s.(clock := step.now) else s;
    SameOwners(s, s1);
    if step.id in s'.deliveries {
      DeliveryMovesKeepsOwners(s1, step.id, s'.deliveries[step.id].at);
      SameOwners(s1, s');
    } else {
      DeliveryDoneKeepsExclusive(s1, step.id);
    }
  }

  lemma CallResumedKeepsExclusive(cfg: Config, s: State, id: nat, now: int)
    requires Exclusive(s) && Enabled(s, CallResumed(id, now))
    ensures Exclusive(Apply(cfg, s, CallResumed(id, now)))
  {
    var a := s.accepts[id];
    var s' := Apply(cfg, s, CallResumed(id, now));
    var s1 := s.(clock := now, claims := if a.at.ok then MarkedDecided(s.claims, a.job, now) else s.claims);
    SameOwners(s, s1);
    if id in s'.accepts {
      AcceptMovesKeepsOwners(s1, id, s'.accepts[id].at);
      SameOwners(s1, s');
    } else {
      AcceptDoneKeepsExclusive(s1, id);
    }
  }

  lemma AcceptStepKeepsExclusive(cfg: Config, s: State, step: Step)
    requires Exclusive(s) && Enabled(s, step)
    requires step.AcceptFetched? || step.SubjectParsed? || step.GateReplied? || step.CallServed? || step.AcceptObserved?
    ensures Exclusive(Apply(cfg, s, step))
  {
    var s' := Apply(cfg, s, step);
    if step.id in s'.accepts {
      AcceptMovesKeepsOwners(s, step.id, s'.accepts[step.id].at);
      SameOwners(s, s');
    } else {
      AcceptDoneKeepsExclusive(s, step.id);
    }
  }

  /** In every run, whatever the remote side answers, the two claim sets are exactly the jobs with
      a live handler, and no job has two handlers of one kind - even after its dedup key is swept. */
  lemma StepKeepsExclusive(cfg: Config, s: State, step: Step)
    requires Exclusive(s) && Enabled(s, step)
    ensures Exclusive(Apply(cfg, s, step))
  {
    match step
    case Elapse(_) => SameOwners(s, Apply(cfg, s, step));
    case RemoteMoves(_, _) => SameOwners(s, Apply(cfg, s, step));
    case Entry(id, job, event, stamp, sweepAt) => EntryKeepsExclusive(cfg, s, id, job, event, stamp, sweepAt);
    case FetchServed(_, _) => DeliveryStepKeepsExclusive(cfg, s, step);
    case FetchResumed(_, _) => DeliveryStepKeepsExclusive(cfg, s, step);
    case RequirementReady(_) => DeliveryStepKeepsExclusive(cfg, s, step);
    case HandlerDone(_, _) => DeliveryStepKeepsExclusive(cfg, s, step);
    case SubmitServed(_, _) => DeliveryStepKeepsExclusive(cfg, s, step);
    case SubmitResumed(_, _) => DeliveryStepKeepsExclusive(cfg, s, step);
    case DeliveryEnds(_) => DeliveryStepKeepsExclusive(cfg, s, step);
    case CallResumed(id, now) => CallResumedKeepsExclusive(cfg, s, id, now);
    case _ => AcceptStepKeepsExclusive(cfg, s, step);
  }
}
