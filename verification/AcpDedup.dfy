/** What the dedup map does for entries over whole runs: an event that was let in shuts out its repetitions
    for the length of the window, and an event that is new is let in. */
module AcpDedup {
  import opened AcpClaims
  import opened AcpProtocol
  import opened Jobs

  /** The entry had no effect at all but for the time that passed. */
  predicate Ignored(s: State, step: Step, after: State)
    requires step.Entry?
  {
    after == s.(clock := step.sweepAt)
  }

  predicate SameEvent(a: Step, b: Step) {
    a.Entry? && b.Entry? && a.job.jobId == b.job.jobId && a.event == b.event
  }

  function KeyOf(step: Step): EventKey
    requires step.Entry?
  {
    EventKey(step.job.jobId, step.event)
  }

  // ---------- repetitions ----------

  /** The key is stamped at least as late as `stamp`, or the window after `stamp` is over. */
  predicate Guarded(s: State, key: EventKey, stamp: int) {
    && stamp <= s.clock
    && (s.clock - stamp > DEDUP_TTL_MS || (key in s.claims.recent && stamp <= s.claims.recent[key]))
  }

  lemma LetInIsGuarded(cfg: Config, s: State, step: Step)
    requires Enabled(s, step) && step.Entry? && !Ignored(s, step, Apply(cfg, s, step))
    ensures Guarded(Apply(cfg, s, step), KeyOf(step), step.stamp)
  {
  }

  lemma EntryKeepsGuarded(cfg: Config, s: State, step: Step, key: EventKey, stamp: int)
    requires Enabled(s, step) && step.Entry? && Guarded(s, key, stamp)
    ensures Guarded(Apply(cfg, s, step), key, stamp)
  {
    var after := Apply(cfg, s, step);
    assert after.clock == step.sweepAt;
    if key in s.claims.recent && step.sweepAt - stamp <= DEDUP_TTL_MS {
      assert step.sweepAt - s.claims.recent[key] <= DEDUP_TTL_MS;
    }
  }

  lemma StepKeepsGuarded(cfg: Config, s: State, step: Step, key: EventKey, stamp: int)
    requires Enabled(s, step) && Guarded(s, key, stamp)
    ensures Guarded(Apply(cfg, s, step), key, stamp)
  {
    if step.Entry? {
      EntryKeepsGuarded(cfg, s, step, key, stamp);
    } else {
      OtherKeepsGuarded(cfg, s, step, key, stamp);
    }
  }

  lemma OtherKeepsGuarded(cfg: Config, s: State, step: Step, key: EventKey, stamp: int)
    requires Enabled(s, step) && !step.Entry? && Guarded(s, key, stamp)
    ensures Guarded(Apply(cfg, s, step), key, stamp)
  {
    var after := Apply(cfg, s, step);
    assert s.clock <= after.clock;
    assert key in s.claims.recent ==>
      key in after.claims.recent
      && (after.claims.recent[key] == s.claims.recent[key] || after.claims.recent[key] == after.clock);
  }

  lemma {:induction false} RunKeepsGuarded(cfg: Config, states: seq<State>, steps: seq<Step>, i: nat, n: nat)
    requires Run(cfg, states, steps) && i < n < |states| && steps[i].Entry?
    requires !Ignored(states[i], steps[i], states[i + 1])
    ensures Guarded(states[n], KeyOf(steps[i]), steps[i].stamp)
  {
    if n == i + 1 {
      LetInIsGuarded(cfg, states[i], steps[i]);
    } else {
      RunKeepsGuarded(cfg, states, steps, i, n - 1);
      StepKeepsGuarded(cfg, states[n - 1], steps[n - 1], KeyOf(steps[i]), steps[i].stamp);
    }
  }

  /** In every run, once an entry had any effect, a later entry of the same job id and event within the
      window has none: it takes and releases no claim and starts no handler, whatever sweeps ran between. */
  lemma RepetitionsAreIgnored(cfg: Config, states: seq<State>, steps: seq<Step>, i: nat, j: nat)
    requires Run(cfg, states, steps) && i < j < |steps| && SameEvent(steps[i], steps[j])
    requires !Ignored(states[i], steps[i], states[i + 1])
    requires steps[j].stamp - steps[i].stamp <= DEDUP_TTL_MS
    ensures Ignored(states[j], steps[j], states[j + 1])
  {
    RunKeepsGuarded(cfg, states, steps, i, j);
  }

  // ---------- new events ----------

  /** An earlier entry, in this run, of the job id and event. */
  ghost predicate Seen(steps: seq<Step>, n: nat, key: EventKey)
    requires n <= |steps|
  {
    exists i :: 0 <= i < n && steps[i].Entry? && KeyOf(steps[i]) == key
  }

  lemma StepAddsOwnKey(cfg: Config, s: State, step: Step, key: EventKey)
    requires Enabled(s, step) && key in Apply(cfg, s, step).claims.recent && !key.event.DecidedMark?
    ensures key in s.claims.recent || (step.Entry? && KeyOf(step) == key)
  {
  }

  lemma {:induction false} KeysComeFromEntries(cfg: Config, states: seq<State>, steps: seq<Step>, n: nat, key: EventKey)
    requires Run(cfg, states, steps) && n < |states|
    requires key in states[n].claims.recent && !key.event.DecidedMark?
    ensures Seen(steps, n, key)
  {
    if n > 0 {
      StepAddsOwnKey(cfg, states[n - 1], steps[n - 1], key);
      if key in states[n - 1].claims.recent {
        KeysComeFromEntries(cfg, states, steps, n - 1, key);
      }
    }
  }

  /** What an entry that is let in does at once. */
  predicate LetIn(s: State, step: Step, after: State)
    requires step.Entry?
  {
    && (step.sweepAt - step.stamp <= DEDUP_TTL_MS ==>
          KeyOf(step) in after.claims.recent && after.claims.recent[KeyOf(step)] == step.stamp)
    && (step.event.Funded? ==>
          && step.job in after.claims.inFlight
          && step.id in after.deliveries && after.deliveries[step.id].job == step.job)
    && (step.event.Created? || step.event.Requirement? ==>
          (step.id in after.accepts && after.accepts[step.id].job == step.job <==>
             EventKey(step.job.jobId, DecidedMark) !in after.claims.recent && step.job !in s.claims.accepting))
  }

  /** In every run an event of which the run has no earlier entry is let in, and starts its handler, unless
      it is a funding of a job in flight - and then it has no effect. */
  lemma NewEventsAreLetIn(cfg: Config, states: seq<State>, steps: seq<Step>, n: nat)
    requires Run(cfg, states, steps) && n < |steps| && steps[n].Entry?
    requires !steps[n].event.DecidedMark? && !Seen(steps, n, KeyOf(steps[n]))
    ensures var s, step, after := states[n], steps[n], states[n + 1];
      if step.event.Funded? && step.job in s.claims.inFlight then Ignored(s, step, after) else LetIn(s, step, after)
  {
    if KeyOf(steps[n]) in states[n].claims.recent {
      KeysComeFromEntries(cfg, states, steps, n, KeyOf(steps[n]));
    }
    NewEventIsLetIn(cfg, states[n], steps[n]);
  }

  lemma NewEventIsLetIn(cfg: Config, s: State, step: Step)
    requires Enabled(s, step) && step.Entry? && !step.event.DecidedMark? && KeyOf(step) !in s.claims.recent
    ensures var after := Apply(cfg, s, step);
      if step.event.Funded? && step.job in s.claims.inFlight then Ignored(s, step, after) else LetIn(s, step, after)
  {
  }

  // ---------- sweeps ----------

  /** Of the keys before and the new one, exactly those whose stamp is still in the window are left. */
  ghost predicate OnlyRecentLeft(before: map<EventKey, int>, step: Step, after: map<EventKey, int>)
    requires step.Entry?
  {
    var stamped := before[KeyOf(step) := step.stamp];
    && (forall k :: k in after <==> k in stamped && step.sweepAt - stamped[k] <= 5 * 60 * 1000)
    && (forall k :: k in after ==> after[k] == stamped[k])
  }

  /** An entry that is let in with a hundred keys or more in the map leaves only those of the last five minutes;
      with fewer none is dropped. So an event is let in again when it comes later than the window after the
      first, and the map was swept in between. */
  lemma SweepForgetsTheOld(cfg: Config, s: State, step: Step)
    requires Enabled(s, step) && step.Entry? && KeyOf(step) !in s.claims.recent
    requires !(step.event.Funded? && step.job in s.claims.inFlight)
    ensures var after := Apply(cfg, s, step).claims.recent;
      if |s.claims.recent| >= 100 then OnlyRecentLeft(s.claims.recent, step, after)
      else after == s.claims.recent[KeyOf(step) := step.stamp]
  {
    OneMoreKey(s.claims.recent, KeyOf(step), step.stamp);
    LetInDispatches(cfg, s, step);
  }

  lemma OneMoreKey<K, V>(m: map<K, V>, key: K, value: V)
    requires key !in m
    ensures |m[key := value]| == |m| + 1
  {
    assert m[key := value].Keys == m.Keys + {key};
  }

  lemma LetInDispatches(cfg: Config, s: State, step: Step)
    requires Enabled(s, step) && step.Entry? && KeyOf(step) !in s.claims.recent
    requires !(step.event.Funded? && step.job in s.claims.inFlight)
    ensures Apply(cfg, s, step).claims.recent
         == Dispatched(s.claims, step.job, step.event, step.stamp, step.sweepAt).recent
  {
  }
}
