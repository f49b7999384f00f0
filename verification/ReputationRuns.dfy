/** Many observers of the same jobs at once: the guarded row update happens in one statement, but the
    strike that follows it is read and written apart, and either half may be lost. */
module ReputationRuns {
  import opened Reputation
  import opened Options
  import opened Jobs

  // An observer that won the row update of an expired job: still to read, or holding what it read.
  datatype Observer =
    | Owing(job: JobKey, buyer: Wallet)
    | Holding(job: JobKey, buyer: Wallet, rec: Option<BuyerRecord>, now: int)

  // `stiffs` remembers for which job each stiff was written, and to whom.
  datatype State = State(db: Db, observers: map<nat, Observer>, stiffs: map<JobKey, Wallet>)

  datatype Step =
    | Track(job: JobKey, row: TrackedJob)
    | Stub(wallet: Wallet)
    | Tally(wallet: Wallet, completes: int, creates: int, at: int)
    | Resolve(id: nat, job: JobKey, terminal: TrackedStatus)
    | Read(id: nat, now: int)
    | Write(id: nat)
    | Lost(id: nat)

  predicate Enabled(s: State, step: Step) {
    match step
    case Resolve(id, _, terminal) => id !in s.observers && !terminal.Submitted?
    case Read(id, _) => id in s.observers && s.observers[id].Owing?
    case Write(id) => id in s.observers && s.observers[id].Holding?
    case Lost(id) => id in s.observers
    case _ => true
  }

  function Apply(cfg: Gating, s: State, step: Step): State
    requires Enabled(s, step)
  {
    match step
    case Track(job, row) => s.(db := Tracking(s.db, job, row))
    case Stub(wallet) => s.(db := WithStub(s.db, wallet))
    case Tally(wallet, completes, creates, at) => s.(db := WithTallies(s.db, wallet, completes, creates, at))
    case Resolve(id, job, terminal) =>
      s.(db := Resolving(s.db, job, terminal),
         observers := if Resolvable(s.db, job) && terminal.Expired?
                      then s.observers[id := Owing(job, s.db.tracked[job].buyer)] else s.observers)
    case Read(id, now) =>
      var o := s.observers[id];
      s.(observers := s.observers[id := Holding(o.job, o.buyer, Lookup(s.db, o.buyer), now)])
    case Write(id) =>
      var o := s.observers[id];
      s.(db := WithStiff(s.db, o.buyer, Stiffed(cfg, o.rec, o.now)),
         observers := s.observers - {id},
         stiffs := s.stiffs[o.job := o.buyer])
    case Lost(id) => s.(observers := s.observers - {id})
  }

  predicate Init(s: State) {
    s == State(Db(map[], map[]), map[], map[])
  }

  ghost predicate Run(cfg: Gating, states: seq<State>, steps: seq<Step>) {
    && |states| == |steps| + 1 && Init(states[0])
    && forall i :: 0 <= i < |steps| ==>
         Enabled(states[i], steps[i]) && states[i + 1] == Apply(cfg, states[i], steps[i])
  }

  ghost function ExpiredJobs(db: Db, wallet: Wallet): set<JobKey> {
    set job | job in db.tracked && db.tracked[job].status.Expired? && db.tracked[job].buyer == wallet
  }

  ghost function JobsOf(stiffs: map<JobKey, Wallet>, wallet: Wallet): set<JobKey> {
    set job | job in stiffs && stiffs[job] == wallet
  }

  ghost function StiffedJobs(s: State, wallet: Wallet): set<JobKey> {
    JobsOf(s.stiffs, wallet)
  }

  ghost predicate Backed(db: Db, job: JobKey, wallet: Wallet) {
    job in db.tracked && db.tracked[job].status.Expired? && db.tracked[job].buyer == wallet
  }

  /** Every stiff, written or owed, has its own expired job. */
  ghost predicate StiffsBacked(s: State) {
    && (forall job :: job in s.stiffs ==> Backed(s.db, job, s.stiffs[job]))
    && (forall id :: id in s.observers ==>
          Backed(s.db, s.observers[id].job, s.observers[id].buyer) && s.observers[id].job !in s.stiffs)
    && (forall i, j :: i in s.observers && j in s.observers && s.observers[i].job == s.observers[j].job ==> i == j)
  }

  /** No record, stored or held by an observer, has more strikes than stiffs written to its buyer,
      and all of them are on the ladder. */
  ghost predicate StrikesBacked(s: State) {
    && (forall wallet :: wallet in s.db.buyers ==>
          OnLadder(s.db.buyers[wallet]) && s.db.buyers[wallet].strikes <= |StiffedJobs(s, wallet)|)
    && (forall id :: id in s.observers && s.observers[id].Holding? ==>
          && (s.observers[id].rec.Some? ==> OnLadder(s.observers[id].rec.value))
          && StrikesOf(s.observers[id].rec) <= |StiffedJobs(s, s.observers[id].buyer)|)
  }

  lemma StepKeepsBacked(cfg: Gating, s: State, step: Step, job: JobKey, wallet: Wallet)
    requires Enabled(s, step) && Backed(s.db, job, wallet)
    ensures Backed(Apply(cfg, s, step).db, job, wallet)
  {
  }

  lemma StepKeepsStiffsBacked(cfg: Gating, s: State, step: Step)
    requires StiffsBacked(s) && Enabled(s, step)
    ensures StiffsBacked(Apply(cfg, s, step))
  {
    forall job, wallet | Backed(s.db, job, wallet)
      ensures Backed(Apply(cfg, s, step).db, job, wallet)
    {
      StepKeepsBacked(cfg, s, step, job, wallet);
    }
  }

  lemma JobsOfGrows(stiffs: map<JobKey, Wallet>, job: JobKey, buyer: Wallet, wallet: Wallet)
    requires job !in stiffs
    ensures |JobsOf(stiffs[job := buyer], wallet)| == |JobsOf(stiffs, wallet)| + if wallet == buyer then 1 else 0
  {
    var before, after := JobsOf(stiffs, wallet), JobsOf(stiffs[job := buyer], wallet);
    if wallet == buyer {
      assert after == before + {job};
    } else {
      assert after == before;
    }
  }

  lemma StiffedAfterWrite(cfg: Gating, s: State, id: nat, wallet: Wallet)
    requires StiffsBacked(s) && Enabled(s, Write(id))
    ensures |StiffedJobs(Apply(cfg, s, Write(id)), wallet)|
         == |StiffedJobs(s, wallet)| + if wallet == s.observers[id].buyer then 1 else 0
  {
    JobsOfGrows(s.stiffs, s.observers[id].job, s.observers[id].buyer, wallet);
  }

  lemma WriteKeepsRecord(cfg: Gating, s: State, id: nat, wallet: Wallet)
    requires StiffsBacked(s) && StrikesBacked(s) && Enabled(s, Write(id))
    requires wallet in Apply(cfg, s, Write(id)).db.buyers
    ensures var after := Apply(cfg, s, Write(id));
      OnLadder(after.db.buyers[wallet]) && after.db.buyers[wallet].strikes <= |StiffedJobs(after, wallet)|
  {
    StiffedAfterWrite(cfg, s, id, wallet);
    StiffClimbsOne(cfg, s.observers[id].rec, s.observers[id].now);
  }

  lemma WriteKeepsStrikesBacked(cfg: Gating, s: State, id: nat)
    requires StiffsBacked(s) && StrikesBacked(s) && Enabled(s, Write(id))
    ensures StrikesBacked(Apply(cfg, s, Write(id)))
  {
    var after := Apply(cfg, s, Write(id));
    forall wallet | wallet in after.db.buyers
      ensures OnLadder(after.db.buyers[wallet]) && after.db.buyers[wallet].strikes <= |StiffedJobs(after, wallet)|
    {
      WriteKeepsRecord(cfg, s, id, wallet);
    }
    forall i | i in after.observers && after.observers[i].Holding?
      ensures after.observers[i] == s.observers[i]
      ensures StrikesOf(after.observers[i].rec) <= |StiffedJobs(after, after.observers[i].buyer)|
    {
      StiffedAfterWrite(cfg, s, id, s.observers[i].buyer);
    }
  }

  /** A step that writes no stiff leaves every stored record as good as it was. */
  lemma OtherKeepsRecord(cfg: Gating, s: State, step: Step, wallet: Wallet)
    requires StrikesBacked(s) && Enabled(s, step) && !step.Write? && wallet in Apply(cfg, s, step).db.buyers
    ensures var after := Apply(cfg, s, step);
      OnLadder(after.db.buyers[wallet]) && after.db.buyers[wallet].strikes <= |StiffedJobs(s, wallet)|
  {
  }

  lemma OtherKeepsHeld(cfg: Gating, s: State, step: Step, id: nat)
    requires StrikesBacked(s) && Enabled(s, step) && !step.Write?
    requires id in Apply(cfg, s, step).observers && Apply(cfg, s, step).observers[id].Holding?
    ensures var o := Apply(cfg, s, step).observers[id];
      (o.rec.Some? ==> OnLadder(o.rec.value)) && StrikesOf(o.rec) <= |StiffedJobs(s, o.buyer)|
  {
  }

  lemma StepKeepsStrikesBacked(cfg: Gating, s: State, step: Step)
    requires StiffsBacked(s) && StrikesBacked(s) && Enabled(s, step)
    ensures StrikesBacked(Apply(cfg, s, step))
  {
    if step.Write? {
      WriteKeepsStrikesBacked(cfg, s, step.id);
    } else {
      var after := Apply(cfg, s, step);
      assert after.stiffs == s.stiffs;
      forall wallet | wallet in after.db.buyers
        ensures OnLadder(after.db.buyers[wallet]) && after.db.buyers[wallet].strikes <= |StiffedJobs(after, wallet)|
      {
        OtherKeepsRecord(cfg, s, step, wallet);
      }
      forall id | id in after.observers && after.observers[id].Holding?
        ensures after.observers[id].rec.Some? ==> OnLadder(after.observers[id].rec.value)
        ensures StrikesOf(after.observers[id].rec) <= |StiffedJobs(after, after.observers[id].buyer)|
      {
        OtherKeepsHeld(cfg, s, step, id);
      }
    }
  }

  /** In every run, whatever races and whatever is lost: every record is on the ladder, and a buyer
      has at most as many strikes as tracked jobs that expired. */
  lemma {:induction false} StrikesNeverExceedExpiredJobs(cfg: Gating, states: seq<State>, steps: seq<Step>, n: nat)
    requires Run(cfg, states, steps) && n < |states|
    ensures StiffsBacked(states[n]) && StrikesBacked(states[n])
    ensures forall wallet :: wallet in states[n].db.buyers ==>
      OnLadder(states[n].db.buyers[wallet])
      && states[n].db.buyers[wallet].strikes <= |ExpiredJobs(states[n].db, wallet)|
  {
    var s := states[n];
    if n > 0 {
      StrikesNeverExceedExpiredJobs(cfg, states, steps, n - 1);
      StepKeepsStiffsBacked(cfg, states[n - 1], steps[n - 1]);
      StepKeepsStrikesBacked(cfg, states[n - 1], steps[n - 1]);
    }
    forall wallet | wallet in s.db.buyers
      ensures s.db.buyers[wallet].strikes <= |ExpiredJobs(s.db, wallet)|
    {
      assert StiffedJobs(s, wallet) <= ExpiredJobs(s.db, wallet);
      SubsetSize(StiffedJobs(s, wallet), ExpiredJobs(s.db, wallet));
    }
  }

  lemma {:induction false} SubsetSize<T>(a: set<T>, b: set<T>)
    requires a <= b
    ensures |a| <= |b|
  {
    assert b == a + (b - a);
  }

  /** A resolved row never changes again, and no job is stiffed a second time. */
  lemma ResolvedOnceStiffedOnce(cfg: Gating, s: State, step: Step, job: JobKey)
    requires StiffsBacked(s) && Enabled(s, step)
    ensures var s' := Apply(cfg, s, step);
      && (job in s.db.tracked ==> job in s'.db.tracked)
      && (job in s.db.tracked && !s.db.tracked[job].status.Submitted? ==> s'.db.tracked[job] == s.db.tracked[job])
      && (job in s.stiffs ==> !(step.Write? && s.observers[step.id].job == job))
  {
  }

  // ---------- one at a time ----------

  ghost predicate BuyerInStep(db: Db, wallet: Wallet) {
    && (wallet in db.buyers ==> OnLadder(db.buyers[wallet]))
    && StrikesOf(Lookup(db, wallet)) == |ExpiredJobs(db, wallet)|
  }

  ghost predicate InStep(db: Db) {
    forall wallet :: BuyerInStep(db, wallet)
  }

  /** Handling a terminal event to the end is resolving, and for the observer this makes reading and
      writing, with no step in between. */
  lemma TerminatedIsItsSteps(cfg: Gating, s: State, id: nat, job: JobKey, terminal: TrackedStatus, now: int)
    requires id !in s.observers && !terminal.Submitted?
    ensures var resolved := Apply(cfg, s, Resolve(id, job, terminal));
      if id in resolved.observers
      then Apply(cfg, Apply(cfg, resolved, Read(id, now)), Write(id)).db == Terminated(cfg, s.db, job, terminal, now)
      else resolved.db == Terminated(cfg, s.db, job, terminal, now)
  {
  }

  // ---------- one buyer's stiffs one at a time, in any run ----------

  function Outstanding(s: State, wallet: Wallet): set<nat> {
    set id | id in s.observers && s.observers[id].buyer == wallet
  }

  predicate Serial(s: State, wallet: Wallet) {
    forall i, j :: i in Outstanding(s, wallet) && j in Outstanding(s, wallet) ==> i == j
  }

  predicate Loses(s: State, step: Step, wallet: Wallet) {
    step.Lost? && step.id in Outstanding(s, wallet)
  }

  /** The buyer never has two stiffs under way and none is lost; everybody else's go as they may. */
  ghost predicate SerialRun(cfg: Gating, states: seq<State>, steps: seq<Step>, wallet: Wallet) {
    && Run(cfg, states, steps)
    && (forall i :: 0 <= i < |states| ==> Serial(states[i], wallet))
    && (forall i :: 0 <= i < |steps| ==> !Loses(states[i], steps[i], wallet))
  }

  /** What an observer holds agrees with the stored record in strikes and rank. */
  predicate Current(rec: Option<BuyerRecord>, stored: Option<BuyerRecord>) {
    (rec.Some? ==> OnLadder(rec.value)) && StrikesOf(rec) == StrikesOf(stored) && RankOf(rec) == RankOf(stored)
  }

  /** Strikes and the stiff under way account for every expired job. */
  ghost predicate Accounted(s: State, wallet: Wallet) {
    && (wallet in s.db.buyers ==> OnLadder(s.db.buyers[wallet]))
    && StrikesOf(Lookup(s.db, wallet)) + |Outstanding(s, wallet)| == |ExpiredJobs(s.db, wallet)|
    && (forall id :: id in Outstanding(s, wallet) && s.observers[id].Holding? ==>
          Current(s.observers[id].rec, Lookup(s.db, wallet)))
  }

  predicate Stiffs(db: Db, job: JobKey, terminal: TrackedStatus, wallet: Wallet) {
    Resolvable(db, job) && terminal.Expired? && db.tracked[job].buyer == wallet
  }

  lemma ExpiredAfterResolving(db: Db, job: JobKey, terminal: TrackedStatus, wallet: Wallet)
    ensures |ExpiredJobs(Resolving(db, job, terminal), wallet)|
         == |ExpiredJobs(db, wallet)| + if Stiffs(db, job, terminal, wallet) then 1 else 0
  {
    var before, after := ExpiredJobs(db, wallet), ExpiredJobs(Resolving(db, job, terminal), wallet);
    if Stiffs(db, job, terminal, wallet) {
      assert after == before + {job};
    } else {
      assert after == before;
    }
  }

  lemma OutstandingAfterResolve(cfg: Gating, s: State, id: nat, job: JobKey, terminal: TrackedStatus, wallet: Wallet)
    requires Enabled(s, Resolve(id, job, terminal))
    ensures var after := Apply(cfg, s, Resolve(id, job, terminal));
      var more := if Stiffs(s.db, job, terminal, wallet) then 1 else 0;
      && |Outstanding(after, wallet)| == |Outstanding(s, wallet)| + more
      && forall o :: o in Outstanding(after, wallet) ==> o in Outstanding(s, wallet) || after.observers[o].Owing?
  {
    var before, after := Outstanding(s, wallet), Outstanding(Apply(cfg, s, Resolve(id, job, terminal)), wallet);
    if Stiffs(s.db, job, terminal, wallet) {
      assert after == before + {id};
    } else {
      assert after == before;
    }
  }

  lemma ResolveKeepsAccounted(cfg: Gating, s: State, step: Step, wallet: Wallet)
    requires Accounted(s, wallet) && Enabled(s, step) && step.Resolve?
    ensures Accounted(Apply(cfg, s, step), wallet)
  {
    var after := Apply(cfg, s, step);
    ExpiredAfterResolving(s.db, step.job, step.terminal, wallet);
    OutstandingAfterResolve(cfg, s, step.id, step.job, step.terminal, wallet);
    assert after.db.buyers == s.db.buyers;
    forall id | id in Outstanding(after, wallet) && after.observers[id].Holding?
      ensures Current(after.observers[id].rec, Lookup(after.db, wallet))
    {
      assert id in Outstanding(s, wallet) && after.observers[id] == s.observers[id];
    }
  }

  lemma WriteKeepsAccounted(cfg: Gating, s: State, id: nat, wallet: Wallet)
    requires Accounted(s, wallet) && Serial(s, wallet) && Enabled(s, Write(id))
    ensures Accounted(Apply(cfg, s, Write(id)), wallet)
    ensures RankOf(Lookup(s.db, wallet)) <= RankOf(Lookup(Apply(cfg, s, Write(id)).db, wallet))
  {
    var after := Apply(cfg, s, Write(id));
    assert ExpiredJobs(after.db, wallet) == ExpiredJobs(s.db, wallet);
    if s.observers[id].buyer == wallet {
      assert id in Outstanding(s, wallet);
      assert Outstanding(s, wallet) == {id} && Outstanding(after, wallet) == {};
      StiffClimbsOne(cfg, s.observers[id].rec, s.observers[id].now);
    } else {
      assert Outstanding(after, wallet) == Outstanding(s, wallet);
    }
  }

  lemma StepKeepsAccounted(cfg: Gating, s: State, step: Step, wallet: Wallet)
    requires Accounted(s, wallet) && Serial(s, wallet) && Enabled(s, step) && !Loses(s, step, wallet)
    ensures Accounted(Apply(cfg, s, step), wallet)
    ensures RankOf(Lookup(s.db, wallet)) <= RankOf(Lookup(Apply(cfg, s, step).db, wallet))
  {
    if step.Resolve? {
      ResolveKeepsAccounted(cfg, s, step, wallet);
    } else if step.Write? {
      WriteKeepsAccounted(cfg, s, step.id, wallet);
    } else {
      var after := Apply(cfg, s, step);
      assert Outstanding(after, wallet) == Outstanding(s, wallet);
      assert ExpiredJobs(after.db, wallet) == ExpiredJobs(s.db, wallet);
    }
  }

  /** In every run in which one buyer's stiffs are applied one at a time and none fails, whatever races and
      is lost for other buyers: strikes and the stiff under way number the buyer's expired jobs, so between
      stiffs strikes equal expired jobs. */
  lemma {:induction false} SerialStiffsStayInStep(cfg: Gating, states: seq<State>, steps: seq<Step>, wallet: Wallet,
                                                  n: nat)
    requires SerialRun(cfg, states, steps, wallet) && n < |states|
    ensures Accounted(states[n], wallet)
    ensures Outstanding(states[n], wallet) == {} ==>
      StrikesOf(Lookup(states[n].db, wallet)) == |ExpiredJobs(states[n].db, wallet)|
  {
    if n == 0 {
      assert Outstanding(states[0], wallet) == {} && ExpiredJobs(states[0].db, wallet) == {};
    } else {
      SerialStiffsStayInStep(cfg, states, steps, wallet, n - 1);
      StepKeepsAccounted(cfg, states[n - 1], steps[n - 1], wallet);
    }
  }

  /** In such a run the buyer's status never moves down; a blocked one stays blocked. */
  lemma {:induction false} SerialStatusNeverDrops(cfg: Gating, states: seq<State>, steps: seq<Step>, wallet: Wallet,
                                                  i: nat, j: nat)
    requires SerialRun(cfg, states, steps, wallet) && i <= j < |states|
    ensures RankOf(Lookup(states[i].db, wallet)) <= RankOf(Lookup(states[j].db, wallet))
  {
    if i < j {
      SerialStatusNeverDrops(cfg, states, steps, wallet, i, j - 1);
      SerialStiffsStayInStep(cfg, states, steps, wallet, j - 1);
      StepKeepsAccounted(cfg, states[j - 1], steps[j - 1], wallet);
    }
  }

  predicate IsBlocked(rec: Option<BuyerRecord>) {
    rec.Some? && rec.value.status.Blocked?
  }

  lemma SerialBlockedIsFinal(cfg: Gating, states: seq<State>, steps: seq<Step>, wallet: Wallet, i: nat, j: nat)
    requires SerialRun(cfg, states, steps, wallet) && i <= j < |states|
    requires IsBlocked(Lookup(states[i].db, wallet))
    ensures IsBlocked(Lookup(states[j].db, wallet))
  {
    SerialStatusNeverDrops(cfg, states, steps, wallet, i, j);
  }

  // ---------- where stiffs of one buyer overlap ----------

  /** Where stiffs interleave, a write lowers the buyer's status exactly when the record it was
      computed from is at least two strikes behind the stored one, short of blocked. */
  lemma WriteLowersStatusIff(cfg: Gating, s: State, id: nat)
    requires StrikesBacked(s) && Enabled(s, Write(id))
    ensures var buyer := s.observers[id].buyer;
      var stored, held := StrikesOf(Lookup(s.db, buyer)), StrikesOf(s.observers[id].rec);
      RankOf(Lookup(Apply(cfg, s, Write(id)).db, buyer)) < RankOf(Lookup(s.db, buyer))
      <==> held + 1 < stored && held < 3
  {
    var o := s.observers[id];
    StiffClimbsOne(cfg, o.rec, o.now);
  }

  lemma OtherStatementsKeepInStep(db: Db, job: JobKey, row: TrackedJob, wallet: Wallet, completes: int, creates: int,
                                  at: int)
    requires InStep(db)
    ensures InStep(Tracking(db, job, row))
    ensures InStep(WithStub(db, wallet)) && InStep(WithTallies(db, wallet, completes, creates, at))
  {
    forall w
      ensures BuyerInStep(Tracking(db, job, row), w)
      ensures BuyerInStep(WithStub(db, wallet), w) && BuyerInStep(WithTallies(db, wallet, completes, creates, at), w)
    {
      assert BuyerInStep(db, w);
      assert ExpiredJobs(Tracking(db, job, row), w) == ExpiredJobs(db, w);
      assert ExpiredJobs(WithStub(db, wallet), w) == ExpiredJobs(db, w);
      assert ExpiredJobs(WithTallies(db, wallet, completes, creates, at), w) == ExpiredJobs(db, w);
    }
  }

  lemma Continue(cfg: Gating, states: seq<State>, steps: seq<Step>, step: Step) returns (more: seq<State>)
    requires Run(cfg, states, steps) && Enabled(states[|steps|], step)
    ensures Run(cfg, more, steps + [step])
    ensures |more| == |states| + 1 && more[..|states|] == states && more[|states|] == Apply(cfg, states[|steps|], step)
  {
    more := states + [Apply(cfg, states[|steps|], step)];
    forall i | 0 <= i < |steps + [step]|
      ensures Enabled(more[i], (steps + [step])[i]) && more[i + 1] == Apply(cfg, more[i], (steps + [step])[i])
    {
      if i < |steps| {
        assert more[i] == states[i] && more[i + 1] == states[i + 1] && (steps + [step])[i] == steps[i];
      }
    }
  }

  /** A tracked job of the buyer that expired, and observer `id` owing its stiff. */
  lemma Owes(cfg: Gating, states: seq<State>, steps: seq<Step>, id: nat, wallet: Wallet)
    returns (more: seq<State>, done: seq<Step>)
    requires Run(cfg, states, steps)
    requires var s := states[|steps|]; id !in s.observers && JobKey(id, "") !in s.db.tracked
    ensures Run(cfg, more, done)
    ensures var s, after := states[|steps|], more[|done|];
      && after.db.buyers == s.db.buyers
      && after.db.tracked.Keys == s.db.tracked.Keys + {JobKey(id, "")}
      && after.observers == s.observers[id := Owing(JobKey(id, ""), wallet)]
  {
    var job := JobKey(id, "");
    var row := TrackedJob(wallet, "", 0, 0, Submitted);
    more := Continue(cfg, states, steps, Track(job, row));
    done := steps + [Track(job, row)];
    more := Continue(cfg, more, done, Resolve(id, job, Expired));
    done := done + [Resolve(id, job, Expired)];
  }

  /** A stored status does drop in some runs: one stiff reads, two others of the same buyer are read and
      written, and then the first writes what it had computed. */
  lemma OverlappingStiffsLowerStatus(cfg: Gating, wallet: Wallet) returns (states: seq<State>, steps: seq<Step>)
    ensures Run(cfg, states, steps) && |steps| > 0
    ensures var before, after := states[|steps| - 1].db, states[|steps|].db;
      && Lookup(before, wallet).Some? && before.buyers[wallet].status.Timeout1h?
      && Lookup(after, wallet).Some? && after.buyers[wallet].status.Warned?
  {
    states, steps := [State(Db(map[], map[]), map[], map[])], [];
    states, steps := Owes(cfg, states, steps, 0, wallet);
    states, steps := Owes(cfg, states, steps, 1, wallet);
    states, steps := Owes(cfg, states, steps, 2, wallet);
    states := Continue(cfg, states, steps, Read(0, 0));
    steps := steps + [Read(0, 0)];
    states := Continue(cfg, states, steps, Read(1, 0));
    steps := steps + [Read(1, 0)];
    states := Continue(cfg, states, steps, Write(1));
    steps := steps + [Write(1)];
    states := Continue(cfg, states, steps, Read(2, 0));
    steps := steps + [Read(2, 0)];
    states := Continue(cfg, states, steps, Write(2));
    steps := steps + [Write(2)];
    states := Continue(cfg, states, steps, Write(0));
    steps := steps + [Write(0)];
  }
}
