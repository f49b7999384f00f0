/** One reconciliation sweep: a bounded list of past-SLA rows, each resolved to its authoritative
    status or left alone, whatever happens to the others. */
module ReputationSweep {
  import opened Reputation
  import opened ReputationRuns
  import opened Options
  import opened Jobs

  // An authoritative status string, lower-cased; Missing is an unavailable job.
  datatype RawStatus = SaysCompleted | SaysRejected | SaysExpired | SaysOther | Missing

  function ToTerminal(raw: RawStatus): Option<TrackedStatus> {
    match raw
    case SaysCompleted => Some(Completed)
    case SaysRejected => Some(Rejected)
    case SaysExpired => Some(Expired)
    case _ => None
  }

  datatype Fault = NoFault | AtFetch | AtResolve | AtRead | AtWrite

  // How one row of the sweep goes: what the status read says, where it fails, and the time of day.
  datatype RowRun = RowRun(raw: RawStatus, fault: Fault, now: int)

  /** The terminal a row is resolved to, if it gets that far. */
  function Outcome(run: RowRun): Option<TrackedStatus> {
    if run.fault.AtFetch? || run.fault.AtResolve? then None else ToTerminal(run.raw)
  }

  predicate StiffLands(run: RowRun) {
    run.raw.SaysExpired? && run.fault.NoFault?
  }

  function SweptRow(cfg: Gating, db: Db, job: JobKey, run: RowRun): Db {
    if Outcome(run).None? then db
    else if Outcome(run).value.Expired? && !StiffLands(run) then Resolving(db, job, Expired)
    else Terminated(cfg, db, job, Outcome(run).value, run.now)
  }

  function Swept(cfg: Gating, db: Db, rows: seq<JobKey>, runs: seq<RowRun>): Db
    requires |rows| == |runs|
  {
    if rows == [] then db
    else
      var n := |rows| - 1;
      SweptRow(cfg, Swept(cfg, db, rows[..n], runs[..n]), rows[n], runs[n])
  }

  class Reconciler {
    const store: ReputationStore

    constructor (store: ReputationStore)
      ensures this.store == store
    {
      this.store := store;
    }

    method Sweep(cfg: Gating, rows: seq<JobKey>, runs: seq<RowRun>)
      requires |rows| == |runs|
      modifies store
      ensures store.View() == Swept(cfg, old(store.View()), rows, runs)
    {
      for i := 0 to |rows|
        invariant store.View() == Swept(cfg, old(store.View()), rows[..i], runs[..i])
      {
        assert rows[..i + 1][..i] == rows[..i] && runs[..i + 1][..i] == runs[..i];
        var run := runs[i];
        if run.fault.AtFetch? {
          continue;
        }
        var terminal := ToTerminal(run.raw);
        if terminal.None? || run.fault.AtResolve? {
          continue;
        }
        if terminal.value.Expired? && !run.fault.NoFault? {
          var _ := store.ResolveIfSubmitted(rows[i], Expired);
        } else {
          store.OnJobTerminal(cfg, rows[i], terminal.value, run.now);
        }
      }
      assert rows[..|rows|] == rows && runs[..|runs|] == runs;
    }
  }

  // ---------- the rows a sweep takes up ----------

  predicate PastSla(db: Db, job: JobKey, now: int) {
    job in db.tracked && db.tracked[job].status.Submitted? && db.tracked[job].expiresAt < now
  }

  function AllPastSla(db: Db, now: int): set<JobKey> {
    set job | job in db.tracked && PastSla(db, job, now)
  }

  /** `rows` are the first `limit` past-SLA submitted rows in order of expiry; ties in any order. */
  ghost predicate Listed(db: Db, now: int, limit: nat, rows: seq<JobKey>) {
    && (forall i :: 0 <= i < |rows| ==> PastSla(db, rows[i], now))
    && (forall i, j :: 0 <= i < j < |rows| ==> rows[i] != rows[j])
    && (forall i, j :: 0 <= i < j < |rows| ==> db.tracked[rows[i]].expiresAt <= db.tracked[rows[j]].expiresAt)
    && |rows| == (if |AllPastSla(db, now)| < limit then |AllPastSla(db, now)| else limit)
    && (forall job, i :: PastSla(db, job, now) && job !in rows && 0 <= i < |rows| ==>
          db.tracked[rows[i]].expiresAt <= db.tracked[job].expiresAt)
  }

  // ---------- what a sweep does ----------

  /** The place of `job` among distinct `rows`. */
  function Place(rows: seq<JobKey>, job: JobKey): (i: nat)
    requires job in rows
    ensures i < |rows| && rows[i] == job
  {
    if rows[0] == job then 0 else 1 + Place(rows[1..], job)
  }

  lemma {:induction false} SweptTracked(cfg: Gating, db: Db, rows: seq<JobKey>, runs: seq<RowRun>, job: JobKey)
    requires |rows| == |runs| && forall i, j :: 0 <= i < j < |rows| ==> rows[i] != rows[j]
    ensures var db' := Swept(cfg, db, rows, runs);
      && db'.tracked.Keys == db.tracked.Keys
      && (job !in rows && job in db.tracked ==> db'.tracked[job] == db.tracked[job])
      && forall i :: 0 <= i < |rows| && rows[i] == job && Resolvable(db, job) ==>
           db'.tracked[job] == (if Outcome(runs[i]).None? then db.tracked[job]
                                else db.tracked[job].(status := Outcome(runs[i]).value))
  {
    if rows != [] {
      var n := |rows| - 1;
      SweptTracked(cfg, db, rows[..n], runs[..n], job);
      if job == rows[n] {
        assert job !in rows[..n];
      }
      assert forall i :: 0 <= i < n ==> rows[i] == rows[..n][i] && runs[i] == runs[..n][i];
    }
  }

  /** How many of the rows are expired jobs of this buyer whose stiff lands. */
  function StiffsFor(db: Db, rows: seq<JobKey>, runs: seq<RowRun>, wallet: Wallet): nat
    requires |rows| == |runs| && forall i :: 0 <= i < |rows| ==> rows[i] in db.tracked
  {
    if rows == [] then 0
    else
      var n := |rows| - 1;
      StiffsFor(db, rows[..n], runs[..n], wallet)
      + if db.tracked[rows[n]].buyer == wallet && runs[n].raw.SaysExpired? && runs[n].fault.NoFault? then 1 else 0
  }

  ghost predicate AllOnLadder(db: Db) {
    forall wallet :: wallet in db.buyers ==> OnLadder(db.buyers[wallet])
  }

  lemma RowStrikes(cfg: Gating, db: Db, job: JobKey, run: RowRun, wallet: Wallet)
    requires AllOnLadder(db) && Resolvable(db, job)
    ensures AllOnLadder(SweptRow(cfg, db, job, run))
    ensures StrikesOf(Lookup(SweptRow(cfg, db, job, run), wallet))
         == StrikesOf(Lookup(db, wallet)) + if db.tracked[job].buyer == wallet && StiffLands(run) then 1 else 0
    ensures StiffLands(run) && db.tracked[job].buyer == wallet ==>
      var after := SweptRow(cfg, db, job, run);
      wallet in after.buyers && after.buyers[wallet].lastStiffAt == Some(run.now)
  {
    StiffClimbsOne(cfg, Lookup(db, db.tracked[job].buyer), run.now);
  }

  lemma {:induction false} SweptStrikes(cfg: Gating, db: Db, rows: seq<JobKey>, runs: seq<RowRun>, wallet: Wallet)
    requires AllOnLadder(db) && |rows| == |runs|
    requires forall i :: 0 <= i < |rows| ==> rows[i] in db.tracked && db.tracked[rows[i]].status.Submitted?
    requires forall i, j :: 0 <= i < j < |rows| ==> rows[i] != rows[j]
    ensures AllOnLadder(Swept(cfg, db, rows, runs))
    ensures StrikesOf(Lookup(Swept(cfg, db, rows, runs), wallet))
         == StrikesOf(Lookup(db, wallet)) + StiffsFor(db, rows, runs, wallet)
  {
    if rows != [] {
      var n := |rows| - 1;
      SweptStrikes(cfg, db, rows[..n], runs[..n], wallet);
      assert rows[n] !in rows[..n];
      SweptTracked(cfg, db, rows[..n], runs[..n], rows[n]);
      RowStrikes(cfg, Swept(cfg, db, rows[..n], runs[..n]), rows[n], runs[n], wallet);
    }
  }

  /** What the status read said is what the row says afterwards, unless it said nothing terminal or the row
      failed before it was resolved; a stiff that fails later leaves the row expired. */
  lemma RowsSayWhatWasRead(cfg: Gating, db: Db, rows: seq<JobKey>, runs: seq<RowRun>, i: nat)
    requires |rows| == |runs| && forall i, j :: 0 <= i < j < |rows| ==> rows[i] != rows[j]
    requires i < |rows| && Resolvable(db, rows[i])
    ensures rows[i] in Swept(cfg, db, rows, runs).tracked
    ensures var status, run := Swept(cfg, db, rows, runs).tracked[rows[i]].status, runs[i];
      var reached := !run.fault.AtFetch? && !run.fault.AtResolve?;
      && (status.Completed? <==> reached && run.raw.SaysCompleted?)
      && (status.Rejected? <==> reached && run.raw.SaysRejected?)
      && (status.Expired? <==> reached && run.raw.SaysExpired?)
  {
    SweptTracked(cfg, db, rows, runs, rows[i]);
  }

  /** A sweep resolves exactly the listed rows whose status read is terminal, each to that status, and
      leaves every other row as it was - whatever fails for the others. Each buyer gains one strike
      per listed row of theirs that is read as expired and whose stiff does not fail; completed and
      rejected rows add none. */
  lemma SweepResolvesExactly(cfg: Gating, db: Db, now: int, limit: nat, rows: seq<JobKey>, runs: seq<RowRun>,
                             job: JobKey, wallet: Wallet)
    requires AllOnLadder(db) && Listed(db, now, limit, rows) && |rows| == |runs|
    requires job in db.tracked
    ensures var db' := Swept(cfg, db, rows, runs);
      && db'.tracked.Keys == db.tracked.Keys
      && db'.tracked[job] == (if job in rows && Outcome(runs[Place(rows, job)]).Some?
                              then db.tracked[job].(status := Outcome(runs[Place(rows, job)]).value)
                              else db.tracked[job])
      && StrikesOf(Lookup(db', wallet)) == StrikesOf(Lookup(db, wallet)) + StiffsFor(db, rows, runs, wallet)
  {
    SweptTracked(cfg, db, rows, runs, job);
    forall i | 0 <= i < |rows|
      ensures rows[i] in db.tracked && db.tracked[rows[i]].status.Submitted?
    {
      assert PastSla(db, rows[i], now);
    }
    SweptStrikes(cfg, db, rows, runs, wallet);
  }
}
