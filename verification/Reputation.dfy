/** The reputation tables and the strike ladder fed from them. */
module Reputation {
  import opened Options
  import opened Jobs

  // Wallets stand for their lower-cased form, as every statement on the tables takes them.
  type Wallet = string

  // Other is any status text outside the ladder.
  datatype BuyerStatus = Clean | Warned | Timeout1h | Timeout12h | Blocked | Other

  datatype BuyerRecord = BuyerRecord(
    status: BuyerStatus, strikes: nat, timeoutUntil: Option<int>, lastStiffAt: Option<int>,
    completes: int, creates: int, cachedAt: Option<int>)

  const STUB: BuyerRecord := BuyerRecord(Clean, 0, None, None, 0, 0, None)

  datatype TrackedStatus = Submitted | Completed | Rejected | Expired

  datatype TrackedJob = TrackedJob(buyer: Wallet, offering: string, submittedAt: int, expiresAt: int,
                                   status: TrackedStatus)

  datatype Db = Db(tracked: map<JobKey, TrackedJob>, buyers: map<Wallet, BuyerRecord>)

  datatype StiffWrite = StiffWrite(status: BuyerStatus, strikes: nat, timeoutUntil: Option<int>, at: int)

  // ---------- the statements, one row update each ----------

  function Lookup(db: Db, wallet: Wallet): Option<BuyerRecord> {
    if wallet in db.buyers then Some(db.buyers[wallet]) else None
  }

  /** The row an upsert starts from: the stored one, or the table's column defaults. */
  function RowOrDefaults(db: Db, wallet: Wallet): BuyerRecord {
    if wallet in db.buyers then db.buyers[wallet] else STUB
  }

  function Tracking(db: Db, job: JobKey, row: TrackedJob): Db {
    if job in db.tracked then db else db.(tracked := db.tracked[job := row.(status := Submitted)])
  }

  predicate Resolvable(db: Db, job: JobKey) {
    job in db.tracked && db.tracked[job].status == Submitted
  }

  function Resolving(db: Db, job: JobKey, terminal: TrackedStatus): Db {
    if Resolvable(db, job) then db.(tracked := db.tracked[job := db.tracked[job].(status := terminal)]) else db
  }

  function WithStub(db: Db, wallet: Wallet): Db {
    db.(buyers := db.buyers[wallet := RowOrDefaults(db, wallet)])
  }

  function WithStiff(db: Db, wallet: Wallet, w: StiffWrite): Db {
    var row := RowOrDefaults(db, wallet);
    db.(buyers := db.buyers[wallet :=
      row.(status := w.status, strikes := w.strikes, timeoutUntil := w.timeoutUntil, lastStiffAt := Some(w.at))])
  }

  function WithTallies(db: Db, wallet: Wallet, completes: int, creates: int, at: int): Db {
    var row := RowOrDefaults(db, wallet);
    db.(buyers := db.buyers[wallet := row.(completes := completes, creates := creates, cachedAt := Some(at))])
  }

  // ---------- the ladder ----------

  datatype Gating = Gating(blockEnabled: bool, timeout1hSec: int, timeout12hSec: int)

  function Stiffed(cfg: Gating, rec: Option<BuyerRecord>, now: int): StiffWrite {
    var cur := if rec.Some? then rec.value.status else Clean;
    match cur
    case Clean => StiffWrite(Warned, 1, None, now)
    case Warned => StiffWrite(Timeout1h, 2, Some(now + cfg.timeout1hSec * 1000), now)
    case Timeout1h => StiffWrite(Timeout12h, 3, Some(now + cfg.timeout12hSec * 1000), now)
    case Timeout12h => StiffWrite(Blocked, 4, None, now)
    case Blocked => StiffWrite(Blocked, rec.value.strikes + 1, rec.value.timeoutUntil, now)
    case Other => StiffWrite(Warned, 1, None, now)
  }

  function Rank(status: BuyerStatus): nat {
    match status
    case Clean => 0
    case Warned => 1
    case Timeout1h => 2
    case Timeout12h => 3
    case Blocked => 4
    case Other => 0
  }

  predicate InTimeout(status: BuyerStatus) {
    status.Timeout1h? || status.Timeout12h?
  }

  /** Status, strikes and timeout of a record agree. */
  predicate OnLadder(rec: BuyerRecord) {
    && !rec.status.Other?
    && Rank(rec.status) == (if rec.strikes < 4 then rec.strikes else 4)
    && (rec.timeoutUntil.Some? <==> InTimeout(rec.status))
  }

  function StrikesOf(rec: Option<BuyerRecord>): nat {
    if rec.Some? then rec.value.strikes else 0
  }

  function RankOf(rec: Option<BuyerRecord>): nat {
    if rec.Some? then Rank(rec.value.status) else 0
  }

  /** One stiff on a record that is on the ladder adds one strike, moves the status up by one until
      it is blocked, and stays on the ladder. */
  lemma StiffClimbsOne(cfg: Gating, rec: Option<BuyerRecord>, now: int)
    requires rec.Some? ==> OnLadder(rec.value)
    ensures var w := Stiffed(cfg, rec, now);
      && w.strikes == StrikesOf(rec) + 1
      && Rank(w.status) == (if RankOf(rec) < 4 then RankOf(rec) + 1 else 4)
      && forall row: BuyerRecord ::
           OnLadder(row.(status := w.status, strikes := w.strikes, timeoutUntil := w.timeoutUntil))
  {
  }

  // ---------- acceptance ----------

  datatype Answer = Found(rec: Option<BuyerRecord>) | LookupFailed

  predicate InActiveTimeout(rec: BuyerRecord, now: int) {
    InTimeout(rec.status) && rec.timeoutUntil.Some? && rec.timeoutUntil.value > now
  }

  predicate WouldAccept(rec: Option<BuyerRecord>, now: int) {
    rec.None? ||
    match rec.value.status
    case Clean | Warned | Other => true
    case Timeout1h | Timeout12h => !InActiveTimeout(rec.value, now)
    case Blocked => false
  }

  predicate Accepts(cfg: Gating, answer: Answer, now: int) {
    answer.LookupFailed? || !cfg.blockEnabled || WouldAccept(answer.rec, now)
  }

  /** An enforcing gate turns away exactly the buyers with four strikes or more, and those with two
      or three whose timeout is still running; a gate in shadow, or one that cannot look the buyer
      up, turns nobody away. */
  lemma RejectsByStrikes(cfg: Gating, answer: Answer, now: int)
    requires answer.Found? && answer.rec.Some? ==> OnLadder(answer.rec.value)
    ensures !Accepts(cfg, answer, now) <==>
      && cfg.blockEnabled && answer.Found?
      && (StrikesOf(answer.rec) >= 4
          || (2 <= StrikesOf(answer.rec) <= 3 && answer.rec.value.timeoutUntil.value > now))
  {
  }

  // ---------- a terminal event handled to the end ----------

  function Terminated(cfg: Gating, db: Db, job: JobKey, terminal: TrackedStatus, now: int): Db {
    var db1 := Resolving(db, job, terminal);
    if Resolvable(db, job) && terminal.Expired? then
      var buyer := db.tracked[job].buyer;
      WithStiff(db1, buyer, Stiffed(cfg, Lookup(db1, buyer), now))
    else db1
  }

  /** How long an expired job shuts its buyer out: not at all at the first, for the short and the long
      timeout at the second and the third, for good from the fourth on. An enforcing gate that is asked
      afterwards turns the buyer away exactly while that lasts; nobody else is answered differently. */
  lemma ExpiryShutsOut(cfg: Gating, db: Db, job: JobKey, now: int, t: int, other: Wallet)
    requires cfg.blockEnabled && Resolvable(db, job)
    requires var rec := Lookup(db, db.tracked[job].buyer); rec.Some? ==> OnLadder(rec.value)
    ensures var buyer := db.tracked[job].buyer;
      var after := Terminated(cfg, db, job, Expired, now);
      var k := StrikesOf(Lookup(db, buyer));
      && (!Accepts(cfg, Found(Lookup(after, buyer)), t) <==>
            || (k == 1 && t < now + cfg.timeout1hSec * 1000)
            || (k == 2 && t < now + cfg.timeout12hSec * 1000)
            || k >= 3)
      && StrikesOf(Lookup(after, buyer)) == k + 1
      && buyer in after.buyers && after.buyers[buyer].lastStiffAt == Some(now)
      && (other != buyer ==> Lookup(after, other) == Lookup(db, other))
      && after.tracked == db.tracked[job := db.tracked[job].(status := Expired)]
  {
  }

  /** A status outside the ladder turns nobody away, and the next stiff starts over at the first rung. */
  lemma UnknownStatusStartsOver(cfg: Gating, rec: BuyerRecord, now: int)
    requires rec.status.Other?
    ensures Accepts(cfg, Found(Some(rec)), now)
    ensures Stiffed(cfg, Some(rec), now) == Stiffed(cfg, None, now)
  {
  }

  /** A job that completed or was rejected, or that was resolved before, leaves every buyer as they were; only
      the row of a job not resolved before takes the new status. */
  lemma OnlyExpiryStiffs(cfg: Gating, db: Db, job: JobKey, terminal: TrackedStatus, now: int)
    requires !terminal.Expired? || !Resolvable(db, job)
    ensures var after := Terminated(cfg, db, job, terminal, now);
      && after.buyers == db.buyers
      && (Resolvable(db, job) ==> after.tracked == db.tracked[job := db.tracked[job].(status := terminal)])
      && (!Resolvable(db, job) ==> after.tracked == db.tracked)
  {
  }

  predicate SameLadder(a: BuyerRecord, b: BuyerRecord) {
    a.status == b.status && a.strikes == b.strikes && a.timeoutUntil == b.timeoutUntil && a.lastStiffAt == b.lastStiffAt
  }

  predicate SameTallies(a: BuyerRecord, b: BuyerRecord) {
    a.completes == b.completes && a.creates == b.creates && a.cachedAt == b.cachedAt
  }

  predicate Tallied(rec: BuyerRecord, completes: int, creates: int, at: int) {
    rec.completes == completes && rec.creates == creates && rec.cachedAt == Some(at)
  }

  // A buyer's history with other providers, when it could be fetched.
  datatype History = History(completes: int, creates: int)

  /** The two tables, updated in place. */
  class ReputationStore {
    var tracked: map<JobKey, TrackedJob>
    var buyers: map<Wallet, BuyerRecord>

    constructor ()
      ensures View() == Db(map[], map[])
    {
      tracked, buyers := map[], map[];
    }

    function View(): Db
      reads this
    {
      Db(tracked, buyers)
    }

    method TrackSubmitted(job: JobKey, row: TrackedJob)
      modifies this
      ensures View() == Tracking(old(View()), job, row)
      ensures job in tracked && buyers == old(buyers)
      ensures job in old(tracked) ==> tracked == old(tracked)
      ensures job !in old(tracked) ==> tracked[job].status.Submitted? && tracked == old(tracked)[job := tracked[job]]
    {
      if job !in tracked {
        tracked := tracked[job := row.(status := Submitted)];
      }
    }

    method ResolveIfSubmitted(job: JobKey, terminal: TrackedStatus) returns (buyer: Option<Wallet>)
      modifies this
      ensures View() == Resolving(old(View()), job, terminal)
      ensures buyer == if Resolvable(old(View()), job) then Some(old(tracked)[job].buyer) else None
    {
      if job in tracked && tracked[job].status == Submitted {
        tracked := tracked[job := tracked[job].(status := terminal)];
        return Some(tracked[job].buyer);
      }
      return None;
    }

    method InsertStubIfAbsent(wallet: Wallet)
      modifies this
      ensures View() == WithStub(old(View()), wallet)
      ensures wallet in buyers && tracked == old(tracked)
      ensures wallet in old(buyers) ==> buyers == old(buyers)
      ensures wallet !in old(buyers) ==> buyers[wallet] == STUB && buyers - {wallet} == old(buyers)
    {
      if wallet !in buyers {
        buyers := buyers[wallet := STUB];
      } else {
        assert buyers == buyers[wallet := buyers[wallet]];
      }
    }

    method Get(wallet: Wallet) returns (rec: Option<BuyerRecord>)
      ensures rec == Lookup(View(), wallet)
    {
      rec := if wallet in buyers then Some(buyers[wallet]) else None;
    }

    method WriteStiff(wallet: Wallet, w: StiffWrite)
      modifies this
      ensures View() == WithStiff(old(View()), wallet, w)
      ensures tracked == old(tracked) && buyers - {wallet} == old(buyers) - {wallet}
      ensures wallet in old(buyers) ==> SameTallies(buyers[wallet], old(buyers)[wallet])
    {
      var row := if wallet in buyers then buyers[wallet] else STUB;
      buyers := buyers[wallet :=
        row.(status := w.status, strikes := w.strikes, timeoutUntil := w.timeoutUntil, lastStiffAt := Some(w.at))];
    }

    method WriteCrossProvider(wallet: Wallet, completes: int, creates: int, at: int)
      modifies this
      ensures View() == WithTallies(old(View()), wallet, completes, creates, at)
      ensures tracked == old(tracked) && buyers - {wallet} == old(buyers) - {wallet}
      ensures wallet in old(buyers) ==>
        SameLadder(buyers[wallet], old(buyers)[wallet])
      ensures wallet in buyers && Tallied(buyers[wallet], completes, creates, at)
    {
      var row := if wallet in buyers then buyers[wallet] else STUB;
      buyers := buyers[wallet := row.(completes := completes, creates := creates, cachedAt := Some(at))];
    }

    /** Handling one terminal event with nothing else in between. */
    method OnJobTerminal(cfg: Gating, job: JobKey, terminal: TrackedStatus, now: int)
      modifies this
      ensures View() == Terminated(cfg, old(View()), job, terminal, now)
    {
      var buyer := ResolveIfSubmitted(job, terminal);
      if buyer.None? || !terminal.Expired? {
        return;
      }
      ApplyStiffTransition(cfg, buyer.value, now);
    }

    method ApplyStiffTransition(cfg: Gating, wallet: Wallet, now: int)
      modifies this
      ensures View() == WithStiff(old(View()), wallet, Stiffed(cfg, Lookup(old(View()), wallet), now))
    {
      var rec := Get(wallet);
      WriteStiff(wallet, Stiffed(cfg, rec, now));
    }
  }

  /** The gate: acceptance, and the life of a tracked job. */
  class BuyerReputationGate {
    const store: ReputationStore
    const cfg: Gating

    constructor (store: ReputationStore, cfg: Gating)
      ensures this.store == store && this.cfg == cfg
    {
      this.store, this.cfg := store, cfg;
    }

    /** Decides on a buyer; one never seen before is accepted and gets a record with no strikes. Neither
        decision nor history changes anybody's place on the ladder. */
    method EvaluateAcceptance(wallet: Wallet, lookupFails: bool, history: Option<History>, now: int)
        returns (accepted: bool)
      modifies store
      ensures accepted ==
        Accepts(cfg, if lookupFails then LookupFailed else Found(Lookup(old(store.View()), wallet)), now)
      ensures store.tracked == old(store.tracked) && store.buyers - {wallet} == old(store.buyers) - {wallet}
      ensures lookupFails || wallet in old(store.buyers) ==> store.buyers == old(store.buyers)
      ensures !lookupFails && wallet !in old(store.buyers) ==>
        && wallet in store.buyers && SameLadder(store.buyers[wallet], STUB)
        && match history
           case Some(h) => Tallied(store.buyers[wallet], h.completes, h.creates, now)
           case None => store.buyers[wallet] == STUB
    {
      if lookupFails {
        return true;
      }
      var rec := store.Get(wallet);
      if rec.None? {
        store.InsertStubIfAbsent(wallet);
        if history.Some? {
          store.WriteCrossProvider(wallet, history.value.completes, history.value.creates, now);
        }
      }
      return !cfg.blockEnabled || WouldAccept(rec, now);
    }

    /** The first report of a submitted job is kept; a later one changes nothing. */
    method OnJobSubmitted(job: JobKey, buyer: Wallet, offering: string, submittedAt: int, expiresAt: int)
      modifies store
      ensures store.buyers == old(store.buyers)
      ensures job in old(store.tracked) ==> store.tracked == old(store.tracked)
      ensures job !in old(store.tracked) ==>
        store.tracked == old(store.tracked)[job := TrackedJob(buyer, offering, submittedAt, expiresAt, Submitted)]
    {
      store.TrackSubmitted(job, TrackedJob(buyer, offering, submittedAt, expiresAt, Submitted));
    }
  }
}
