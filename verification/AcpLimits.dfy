/** What holds of the ACP adapter whatever the remote side does, and exactly where single
    delivery stops holding. */
module AcpLimits {
  import opened AcpClaims
  import opened AcpProtocol
  import opened AcpSafety
  import opened Options
  import opened Jobs

  /** The one event a step may add, if it adds any. */
  ghost predicate Adds(s: State, s': State, e: Event) {
    s'.hist == s.hist + [e]
  }

  /** Nothing is signed for a job outside its claim: submits need the in-flight claim, budgets and
      rejects the accept claim, so no step of a delivery ever rejects. */
  lemma SigningNeedsTheClaim(cfg: Config, s: State, step: Step, e: Event)
    requires Exclusive(s) && Enabled(s, step) && Adds(s, Apply(cfg, s, step), e)
    ensures e.SubmitCalled? || e.SubmitLanded? ==> e.job in s.claims.inFlight
    ensures e.RejectCalled? || e.BudgetCalled? || e.Decided? ==>
      && e.job in s.claims.accepting
      && (step.AcceptFetched? || step.SubjectParsed? || step.GateReplied? || step.CallServed? || step.CallResumed?)
  {
    var s' := Apply(cfg, s, step);
    assert e == s'.hist[|s.hist|];
    if s'.deliveries != s.deliveries && !step.Entry? {
      assert Delivering(s)[step.id] in s.claims.inFlight;
    } else if s'.accepts != s.accepts && !step.Entry? {
      assert Accepting(s)[step.id] in s.claims.accepting;
    }
  }

  ghost predicate OnlyObserves(s: State) {
    && s.hist == []
    && (forall id :: id in s.deliveries ==> s.deliveries[id].at.Observing?)
    && (forall id :: id in s.accepts ==> s.accepts[id].at.Observing'?)
  }

  /** With observe-only set, no run signs anything. */
  lemma {:induction false} ObserveOnlySignsNothing(cfg: Config, states: seq<State>, steps: seq<Step>, n: nat)
    requires cfg.observeOnly && Run(cfg, states, steps) && n < |states|
    ensures OnlyObserves(states[n])
  {
    if n > 0 {
      ObserveOnlySignsNothing(cfg, states, steps, n - 1);
      ObserveStep(cfg, states[n - 1], steps[n - 1]);
    }
  }

  lemma ObserveStep(cfg: Config, s: State, step: Step)
    requires cfg.observeOnly && OnlyObserves(s) && Enabled(s, step)
    ensures OnlyObserves(Apply(cfg, s, step))
  {
  }

  /** After a landed deliverable the handler submits once more exactly when the SLA expiry cannot be
      printed: printing it throws inside the block whose handler sends the fallback deliverable. */
  lemma ResubmitsIffUnrenderable(cfg: Config, s: State, id: nat, now: int)
    requires Enabled(s, SubmitResumed(id, now))
    requires s.deliveries[id].at.attempt.Deliverable? && s.deliveries[id].at.ok
    ensures Adds(s, Apply(cfg, s, SubmitResumed(id, now)), SubmitCalled(s.deliveries[id].job))
       <==> !Renderable(s.deliveries[id].at.view, now)
  {
    var s' := Apply(cfg, s, SubmitResumed(id, now));
    if Renderable(s.deliveries[id].at.view, now) {
      assert |s'.hist| == |s.hist|;
    }
  }

  /** The state in which the one funded job's delivery has come as far as `at`. */
  function DeliveringAlone(job: JobKey, now: int, funded: set<JobKey>, at: DeliveryAt, hist: seq<Event>): State {
    var claims := Claims(map[EventKey(job.jobId, Funded) := now], {job}, {});
    State(now, claims, map[0 := Delivery(job, at)], map[], funded, hist)
  }

  lemma MovesAlone(job: JobKey, now: int, funded: set<JobKey>, at: DeliveryAt, hist: seq<Event>, at': DeliveryAt)
    ensures DeliveryMovesTo(DeliveringAlone(job, now, funded, at, hist), 0, at')
         == DeliveringAlone(job, now, funded, at', if at'.Submitting? then hist + [SubmitCalled(job)] else hist)
  {
    assert map[0 := Delivery(job, at)][0 := Delivery(job, at')] == map[0 := Delivery(job, at')];
  }

  lemma StartsAlone(job: JobKey, now: int)
    ensures var s := State(now, Claims(map[], {}, {}), map[], map[], {job}, []);
      ApplyEntry(Config(false, false), s, 0, job, Funded, now, now) == DeliveringAlone(job, now, {job}, Fetching, [])
  {
    var key := EventKey(job.jobId, Funded);
    assert map[][key := now] == map[key := now];
    assert |map[key := now]| == 1;
    assert {} + {job} == {job};
    var d := Delivery(job, Fetching);
    assert map[][0 := d] == map[0 := d];
  }

  /** A run in which every step but `excused` is reliable. */
  ghost predicate ReliableBut(cfg: Config, states: seq<State>, steps: seq<Step>, excused: Step) {
    Run(cfg, states, steps)
    && forall i :: 0 <= i < |steps| ==> Reliable(states[i], steps[i]) || steps[i] == excused
  }

  lemma Extend(cfg: Config, states: seq<State>, steps: seq<Step>, excused: Step, step: Step, s': State)
    requires ReliableBut(cfg, states, steps, excused)
    requires var s := states[|steps|];
      Enabled(s, step) && s' == Apply(cfg, s, step) && (Reliable(s, step) || step == excused)
    ensures ReliableBut(cfg, states + [s'], steps + [step], excused)
    ensures (states + [s'])[|steps + [step]|] == s'
  {
    var states', steps' := states + [s'], steps + [step];
    forall i | 0 <= i < |steps'|
      ensures Enabled(states'[i], steps'[i]) && states'[i + 1] == Apply(cfg, states'[i], steps'[i])
      ensures Reliable(states'[i], steps'[i]) || steps'[i] == excused
    {
      if i < |steps| {
        assert states'[i] == states[i] && states'[i + 1] == states[i + 1] && steps'[i] == steps[i];
      }
    }
  }

  lemma DeliveryReachesHandler(job: JobKey, view: JobView, now: int, excused: Step)
      returns (states: seq<State>, steps: seq<Step>)
    requires view.status.IsFunded? && view.serviceable
    ensures ReliableBut(Config(false, false), states, steps, excused)
    ensures states[|steps|] == DeliveringAlone(job, now, {job}, Resolving(view), [])
  {
    var cfg := Config(false, false);
    states, steps := [State(now, Claims(map[], {}, {}), map[], map[], {job}, [])], [];
    StartsAlone(job, now);
    states, steps := Continue(cfg, states, steps, excused, Entry(0, job, Funded, now, now));
    assert states[|steps|] == DeliveringAlone(job, now, {job}, Fetching, []);
    MovesAlone(job, now, {job}, Fetching, [], Fetched(Some(view)));
    states, steps := Continue(cfg, states, steps, excused, FetchServed(0, Some(view)));
    assert states[|steps|] == DeliveringAlone(job, now, {job}, Fetched(Some(view)), []);
    MovesAlone(job, now, {job}, Fetched(Some(view)), [], Resolving(view));
    states, steps := Continue(cfg, states, steps, excused, FetchResumed(0, None));
  }

  /** A delivery of `job` from its dispatch to its landed deliverable. */
  lemma DeliveryLands(job: JobKey, view: JobView, now: int, excused: Step)
      returns (states: seq<State>, steps: seq<Step>)
    requires view.status.IsFunded? && view.serviceable
    ensures ReliableBut(Config(false, false), states, steps, excused)
    ensures states[|steps|] ==
      DeliveringAlone(job, now, {}, SubmitReplied(Deliverable, true, view), [SubmitCalled(job), SubmitLanded(job)])
  {
    var cfg := Config(false, false);
    states, steps := DeliveryReachesHandler(job, view, now, excused);
    MovesAlone(job, now, {job}, Resolving(view), [], Handling(view));
    states, steps := Continue(cfg, states, steps, excused, RequirementReady(0));
    assert states[|steps|] == DeliveringAlone(job, now, {job}, Handling(view), []);
    MovesAlone(job, now, {job}, Handling(view), [], Submitting(Deliverable, view));
    states, steps := Continue(cfg, states, steps, excused, HandlerDone(0, true));
    assert states[|steps|] == DeliveringAlone(job, now, {job}, Submitting(Deliverable, view), [SubmitCalled(job)]);
    var replied := SubmitReplied(Deliverable, true, view);
    MovesAlone(job, now, {job}, Submitting(Deliverable, view), [SubmitCalled(job)], replied);
    states, steps := Continue(cfg, states, steps, excused, SubmitServed(0, true));
    assert {job} - {job} == {};
  }

  lemma Continue(cfg: Config, states: seq<State>, steps: seq<Step>, excused: Step, step: Step)
    returns (states': seq<State>, steps': seq<Step>)
    requires ReliableBut(cfg, states, steps, excused)
    requires Enabled(states[|steps|], step) && (Reliable(states[|steps|], step) || step == excused)
    ensures ReliableBut(cfg, states', steps', excused)
    ensures states'[|steps'|] == Apply(cfg, states[|steps|], step)
  {
    var s' := Apply(cfg, states[|steps|], step);
    Extend(cfg, states, steps, excused, step, s');
    states', steps' := states + [s'], steps + [step];
  }

  /** For every expiry that cannot be printed there is a run, reliable but for that expiry, in which
      a delivered job is submitted again. */
  lemma UnrenderableExpiryResubmits(job: JobKey, view: JobView, now: int)
    returns (cfg: Config, states: seq<State>, steps: seq<Step>)
    requires view.status.IsFunded? && view.serviceable && !Renderable(view, now)
    ensures ReliableBut(cfg, states, steps, SubmitResumed(0, now))
    ensures !SubmitsOnce(states[|steps|].hist)
    ensures states[|steps|].hist == [SubmitCalled(job), SubmitLanded(job), SubmitCalled(job)]
  {
    cfg := Config(false, false);
    var resumed := SubmitResumed(0, now);
    states, steps := DeliveryLands(job, view, now, resumed);
    var replied, signed := SubmitReplied(Deliverable, true, view), [SubmitCalled(job), SubmitLanded(job)];
    MovesAlone(job, now, {}, replied, signed, Submitting(Fallback, view));
    states, steps := Continue(cfg, states, steps, resumed, resumed);
    var h := states[|steps|].hist;
    assert h[1].SubmitLanded? && h[2] == SubmitCalled(h[1].job);
  }

  /** An attempt that ends undecided leaves the job open: the next admitted accept event for it
      starts another attempt. */
  lemma UndecidedAttemptCanBeRetried(cfg: Config, s: State, step: Step, next: Step)
    requires Exclusive(s) && Enabled(s, step) && (step.AcceptFetched? || step.CallResumed? || step.AcceptObserved?)
    requires step.id !in Apply(cfg, s, step).accepts
    requires step.CallResumed? ==> !s.accepts[step.id].at.ok
    requires var s' := Apply(cfg, s, step);
      && Enabled(s', next) && next.Entry? && (next.event.Created? || next.event.Requirement?)
      && next.job == s.accepts[step.id].job && Admits(s'.claims, next.job, next.event)
      && !IsDecided(s.claims, next.job)
    ensures var s'' := Apply(cfg, Apply(cfg, s, step), next);
      && next.id in s''.accepts && s''.accepts[next.id].job == next.job && next.job in s''.claims.accepting
  {
    var s' := Apply(cfg, s, step);
    AttemptEnds(cfg, s, step);
    var c := Dispatched(s'.claims, next.job, next.event, next.stamp, next.sweepAt);
    assert !IsDecided(c, next.job) && next.job !in c.accepting;
  }

  lemma AttemptEnds(cfg: Config, s: State, step: Step)
    requires Enabled(s, step) && (step.AcceptFetched? || step.CallResumed? || step.AcceptObserved?)
    requires step.id !in Apply(cfg, s, step).accepts
    requires step.CallResumed? ==> !s.accepts[step.id].at.ok
    ensures Apply(cfg, s, step).claims == s.claims.(accepting := s.claims.accepting - {s.accepts[step.id].job})
  {
  }
}
