/** Runs of the pipeline over the three tables: what holds wherever one is cut short, and how
    repeating one request settles. */
module UpsertRuns {
  import opened Upsert
  import opened Options

  // ---------- a whole run ----------

  // What the database answers a run with: finder results, and the id of a row it may create.
  datatype Try = Try(finds: Finds, newId: Id)

  ghost predicate Answers(t: Tables, req: Request, y: Try) {
    Found(t, req, y.finds) && y.newId !in t.papers
    && forall id :: id in y.finds.byName || id in y.finds.byAddress ==> id in t.papers
  }

  /** The statements of a run on the three tables: the upsert, then, for the run variants that keep
      one, the verification - unless the row was never saved. */
  function RunOps(names: Names, t: Tables, req: Request, y: Try, verifies: bool): seq<Op>
    requires forall id :: id in y.finds.byName || id in y.finds.byAddress ==> id in t.papers
  {
    var saved := Returned(names, t, req, y.finds, y.newId);
    Plan(names, t, req, y.finds, y.newId)
    + if verifies && saved.Some? then [DropVerifications(saved.value), AddVerification(saved.value)] else []
  }

  lemma CandidatesAreOld(names: Names, t: Tables, req: Request, y: Try)
    requires Answers(t, req, y)
    ensures forall id :: id in Candidates(names, t, req, y.finds) ==> id in t.papers && id != y.newId
  {
  }

  lemma PlanEffect(names: Names, t: Tables, req: Request, y: Try)
    requires Integrity(t) && Answers(t, req, y)
    ensures var ids := Candidates(names, t, req, y.finds);
      var t' := ExecAll(t, Plan(names, t, req, y.finds, y.newId));
      && AllSafe(t, Plan(names, t, req, y.finds, y.newId))
      && (names.violates(req.name) ==> t' == t)
      && (!names.violates(req.name) ==>
            match Choose(t, ids, req)
            case Reuse(id) => t' == t && id in ids
            case Create(name, drop) => Created(t, drop, y.newId, StoredPaper(req, name), req.claims, t'))
  {
    CandidatesAreOld(names, t, req, y);
    if !names.violates(req.name) {
      match Choose(t, Candidates(names, t, req, y.finds), req)
      case Reuse(_) =>
      case Create(name, drop) => CreateOpsEffect(t, drop, y.newId, StoredPaper(req, name), req.claims);
    }
  }

  lemma RunOpsSafe(names: Names, t: Tables, req: Request, y: Try, verifies: bool)
    requires Integrity(t) && Answers(t, req, y)
    ensures AllSafe(t, RunOps(names, t, req, y, verifies))
  {
    PlanEffect(names, t, req, y);
    CandidatesAreOld(names, t, req, y);
    var plan := Plan(names, t, req, y.finds, y.newId);
    var saved := Returned(names, t, req, y.finds, y.newId);
    if verifies && saved.Some? {
      var t1 := ExecAll(t, plan);
      assert saved.value in t1.papers;
      OneOp(t1, DropVerifications(saved.value));
      var t2 := Exec(t1, DropVerifications(saved.value));
      OneOp(t2, AddVerification(saved.value));
      SafeAppend(t1, [DropVerifications(saved.value)], [AddVerification(saved.value)]);
      assert [DropVerifications(saved.value)] + [AddVerification(saved.value)]
          == [DropVerifications(saved.value), AddVerification(saved.value)];
      SafeAppend(t, plan, [DropVerifications(saved.value), AddVerification(saved.value)]);
    } else {
      assert plan + [] == plan;
    }
  }

  /** A run that is not cut short leaves the row it hands back with just one verification if it keeps one, and
      touches no paper, claim or verification beyond what the upsert did. */
  lemma RunKeepsOneVerification(names: Names, t: Tables, req: Request, y: Try, verifies: bool)
    requires Integrity(t) && Answers(t, req, y)
    ensures var t' := ExecAll(t, Plan(names, t, req, y.finds, y.newId));
      var after := ExecAll(t, RunOps(names, t, req, y, verifies));
      var saved := Returned(names, t, req, y.finds, y.newId);
      && after.papers == t'.papers && after.claims == t'.claims
      && (verifies && saved.Some? ==> after.verifications == t'.verifications[saved.value := 1])
      && (!verifies || saved.None? ==> after.verifications == t'.verifications)
  {
    var plan := Plan(names, t, req, y.finds, y.newId);
    var saved := Returned(names, t, req, y.finds, y.newId);
    if verifies && saved.Some? {
      var drop, add := DropVerifications(saved.value), AddVerification(saved.value);
      var t' := ExecAll(t, plan);
      ExecAppend(t, plan, [drop, add]);
      assert [drop, add] == [drop] + [add];
      ExecAppend(t', [drop], [add]);
      OneOp(t', drop);
      OneOp(Exec(t', drop), add);
    } else {
      assert plan + [] == plan;
    }
  }

  // A run that stops after `done` statements; a run that is not cut short does them all.
  datatype Attempt = Attempt(req: Request, answers: Try, verifies: bool, done: nat)

  ghost predicate Follows(names: Names, t: Tables, a: Attempt, t': Tables) {
    Answers(t, a.req, a.answers)
    && var ops := RunOps(names, t, a.req, a.answers, a.verifies);
       a.done <= |ops| && t' == ExecAll(t, ops[..a.done])
  }

  lemma AttemptKeepsIntegrity(names: Names, t: Tables, a: Attempt, after: Tables)
    requires Integrity(t) && Follows(names, t, a, after)
    ensures Integrity(after)
  {
    RunOpsSafe(names, t, a.req, a.answers, a.verifies);
    SafePrefixKeepsIntegrity(t, RunOps(names, t, a.req, a.answers, a.verifies), a.done);
  }

  ghost predicate Crashing(names: Names, states: seq<Tables>, attempts: seq<Attempt>) {
    && |states| == |attempts| + 1 && Integrity(states[0])
    && forall i :: 0 <= i < |attempts| ==> Follows(names, states[i], attempts[i], states[i + 1])
  }

  lemma NextKeepsIntegrity(names: Names, states: seq<Tables>, attempts: seq<Attempt>, k: nat)
    requires Crashing(names, states, attempts) && k < |attempts| && Integrity(states[k])
    ensures Integrity(states[k + 1])
  {
    AttemptKeepsIntegrity(names, states[k], attempts[k], states[k + 1]);
  }

  /** Through any sequence of runs, each cut short anywhere or not at all, no claim or verification
      points to a missing paper and no paper has two verifications. */
  lemma {:induction false} CrashingRunsKeepIntegrity(names: Names, states: seq<Tables>, attempts: seq<Attempt>, k: nat)
    requires Crashing(names, states, attempts) && k < |states|
    ensures Integrity(states[k])
  {
    if k > 0 {
      CrashingRunsKeepIntegrity(names, states, attempts, k - 1);
      NextKeepsIntegrity(names, states, attempts, k - 1);
    }
  }

  /** A name with violation keywords writes nothing at all to the three tables. */
  lemma ViolatingNamesWriteNothing(names: Names, t: Tables, req: Request, y: Try, verifies: bool)
    requires Answers(t, req, y)
    ensures names.violates(req.name) ==> RunOps(names, t, req, y, verifies) == []
  {
  }

  /** The row handed back has at least the claims of the request and of the first candidate that had
      any; a row that is dropped matched by name or is of the requested version family. */
  lemma ReturnedRowIsRichest(names: Names, t: Tables, req: Request, y: Try)
    requires Integrity(t) && Answers(t, req, y) && !names.violates(req.name)
    ensures var t' := ExecAll(t, Plan(names, t, req, y.finds, y.newId));
      var back := Returned(names, t, req, y.finds, y.newId).value;
      var first := FirstWithClaims(t.claims, Candidates(names, t, req, y.finds));
      && back in t'.papers
      && t'.claims[back] >= req.claims
      && (first.Some? ==> t'.claims[back] >= t.claims[first.value])
      && forall id :: id in t.papers && id !in t'.papers ==> NameMatches(t, req, id) || SameFamily(names, t, req, id)
  {
    PlanEffect(names, t, req, y);
    CandidatesAreOld(names, t, req, y);
    CandidatesMatch(names, t, req, y.finds);
  }

  // ---------- repeating one request ----------

  predicate Creates(names: Names, t: Tables, req: Request, y: Try)
    requires forall id :: id in y.finds.byName || id in y.finds.byAddress ==> id in t.papers
  {
    !names.violates(req.name) && Choose(t, Candidates(names, t, req, y.finds), req).Create?
  }

  /** Matching rows that have claims, but fewer than the request brings. */
  ghost function Poor(names: Names, t: Tables, req: Request): set<Id> {
    set id | id in t.papers && Matches(names, t, req, id) && 1 <= t.claims[id] < req.claims
  }

  ghost predicate AnyWithClaims(names: Names, t: Tables, req: Request) {
    exists id :: Matches(names, t, req, id) && t.claims[id] > 0
  }

  /** How many more rows this request can still create. */
  ghost function Potential(names: Names, t: Tables, req: Request): nat {
    if AnyWithClaims(names, t, req) then |Poor(names, t, req)| else 1
  }

  /** The row that replaces a matching row, or that bears the requested name, matches again. */
  lemma NewRowMatches(names: Names, t: Tables, req: Request, y: Try, t': Tables)
    requires Answers(t, req, y) && Creates(names, t, req, y)
    requires y.newId in t'.papers
    requires t'.papers[y.newId] == StoredPaper(req, Choose(t, Candidates(names, t, req, y.finds), req).name)
    ensures Matches(names, t', req, y.newId)
  {
    CandidatesMatch(names, t, req, y.finds);
    if req.address.Some? {
      StoredAddressIsFound(req.address.value);
    }
  }

  lemma OtherRowsMatchAsBefore(names: Names, t: Tables, req: Request, drop: seq<Id>, newId: Id, paper: Paper,
                               t': Tables, id: Id)
    requires Created(t, drop, newId, paper, req.claims, t') && id != newId
    ensures Matches(names, t', req, id) <==> Matches(names, t, req, id) && id !in drop
  {
  }

  lemma PoorAfterCreate(names: Names, t: Tables, req: Request, drop: seq<Id>, newId: Id, paper: Paper, t': Tables)
    requires Created(t, drop, newId, paper, req.claims, t') && newId !in t.papers
    ensures Poor(names, t', req) == Poor(names, t, req) - (set id | id in drop)
  {
    forall id | id != newId
      ensures id in Poor(names, t', req) <==> id in Poor(names, t, req) && id !in drop
    {
      OtherRowsMatchAsBefore(names, t, req, drop, newId, paper, t', id);
    }
  }

  /** The tables after an upsert. */
  function Upserted(names: Names, t: Tables, req: Request, y: Try): Tables
    requires forall id :: id in y.finds.byName || id in y.finds.byAddress ==> id in t.papers
  {
    ExecAll(t, Plan(names, t, req, y.finds, y.newId))
  }

  /** `first` comes before every other candidate with claims, name matches coming first. */
  predicate LeadsWithClaims(t: Tables, ids: seq<Id>, first: Id) {
    exists k :: 0 <= k < |ids| && ids[k] == first && t.claims[first] > 0
      && forall j :: 0 <= j < k ==> t.claims[ids[j]] == 0
  }

  lemma CreatedMatches(names: Names, t: Tables, req: Request, y: Try, drop: seq<Id>, paper: Paper, t': Tables)
    requires Answers(t, req, y) && Creates(names, t, req, y)
    requires Choose(t, Candidates(names, t, req, y.finds), req) == Create(paper.name, drop)
    requires paper == StoredPaper(req, paper.name) && Created(t, drop, y.newId, paper, req.claims, t')
    ensures forall id :: Matches(names, t', req, id) <==> id == y.newId || (Matches(names, t, req, id) && id !in drop)
  {
    NewRowMatches(names, t, req, y, t');
    forall id | id != y.newId
      ensures Matches(names, t', req, id) <==> Matches(names, t, req, id) && id !in drop
    {
      OtherRowsMatchAsBefore(names, t, req, drop, y.newId, paper, t', id);
    }
  }

  /** When no matching row has claims, the upsert clears them all away: the one row it creates, under the
      requested name and with all its claims, is the only one that matches afterwards. */
  lemma ClaimlessRowsAreCleared(names: Names, t: Tables, req: Request, y: Try)
    requires Integrity(t) && Answers(t, req, y) && !names.violates(req.name) && !AnyWithClaims(names, t, req)
    ensures var t' := Upserted(names, t, req, y);
      && (forall id :: Matches(names, t', req, id) <==> id == y.newId)
      && y.newId in t'.papers && Stores(t'.papers[y.newId], req, req.name) && t'.claims[y.newId] == req.claims
      && Returned(names, t, req, y.finds, y.newId) == Some(y.newId)
      && forall id :: id in t.papers && !Matches(names, t, req, id) ==>
           id in t'.papers && t'.papers[id] == t.papers[id] && t'.claims[id] == t.claims[id]
  {
    var ids := Candidates(names, t, req, y.finds);
    CandidatesMatch(names, t, req, y.finds);
    PlanEffect(names, t, req, y);
    forall id | id in ids
      ensures t.claims[id] == 0
    {
      assert Matches(names, t, req, id);
    }
    CreatedMatches(names, t, req, y, ids, StoredPaper(req, req.name), Upserted(names, t, req, y));
    StoredPaperStores(req, req.name);
  }

  /** When some have, the first of them decides. It is handed back, and nothing changes, when it has claims
      enough; otherwise exactly it is replaced, by a row that keeps its name. */
  lemma FirstWithClaimsDecides(names: Names, t: Tables, req: Request, y: Try, first: Id)
    requires Integrity(t) && Answers(t, req, y) && !names.violates(req.name)
    requires LeadsWithClaims(t, Candidates(names, t, req, y.finds), first)
    ensures first in t.papers
    ensures var t', back := Upserted(names, t, req, y), Returned(names, t, req, y.finds, y.newId);
      if t.claims[first] >= req.claims then t' == t && back == Some(first)
      else
        && back == Some(y.newId) && y.newId in t'.papers
        && Stores(t'.papers[y.newId], req, t.papers[first].name) && t'.claims[y.newId] == req.claims
        && (forall id :: Matches(names, t', req, id) <==> id == y.newId || (Matches(names, t, req, id) && id != first))
        && forall id :: id in t.papers && id != first ==>
             id in t'.papers && t'.papers[id] == t.papers[id] && t'.claims[id] == t.claims[id]
  {
    var ids := Candidates(names, t, req, y.finds);
    CandidatesMatch(names, t, req, y.finds);
    PlanEffect(names, t, req, y);
    FirstIsUnique(t, ids, first);
    assert Matches(names, t, req, first);
    if t.claims[first] < req.claims {
      CreatedMatches(names, t, req, y, [first], StoredPaper(req, t.papers[first].name), Upserted(names, t, req, y));
      StoredPaperStores(req, t.papers[first].name);
    }
  }

  lemma FirstIsUnique(t: Tables, ids: seq<Id>, first: Id)
    requires LeadsWithClaims(t, ids, first)
    ensures FirstWithClaims(t.claims, ids) == Some(first)
  {
    var k :| 0 <= k < |ids| && ids[k] == first && t.claims[first] > 0
      && forall j :: 0 <= j < k ==> t.claims[ids[j]] == 0;
    var r := FirstWithClaims(t.claims, ids);
    assert first in ids;
    var m :| 0 <= m < |ids| && ids[m] == r.value && forall j :: 0 <= j < m ==> t.claims[ids[j]] == 0;
  }

  lemma CreatedLowersPotential(names: Names, t: Tables, req: Request, y: Try, t': Tables)
    requires Answers(t, req, y) && req.claims > 0 && Creates(names, t, req, y)
    requires var Create(name, drop) := Choose(t, Candidates(names, t, req, y.finds), req);
      Created(t, drop, y.newId, StoredPaper(req, name), req.claims, t')
    ensures Potential(names, t', req) + 1 == Potential(names, t, req)
  {
    var Create(name, drop) := Choose(t, Candidates(names, t, req, y.finds), req);
    NewRowMatches(names, t, req, y, t');
    assert t'.claims[y.newId] > 0;
    assert AnyWithClaims(names, t', req);
    PoorAfterCreate(names, t, req, drop, y.newId, StoredPaper(req, name), t');
    DroppedRows(names, t, req, y);
    PotentialDrops(names, t, req, drop, t');
  }

  lemma PotentialDrops(names: Names, t: Tables, req: Request, drop: seq<Id>, t': Tables)
    requires AnyWithClaims(names, t', req) && Poor(names, t', req) == Poor(names, t, req) - (set id | id in drop)
    requires if AnyWithClaims(names, t, req)
             then exists id :: id in Poor(names, t, req) && drop == [id]
             else Poor(names, t, req) - (set id | id in drop) == {}
    ensures Potential(names, t', req) + 1 == Potential(names, t, req)
  {
    if AnyWithClaims(names, t, req) {
      var id :| id in Poor(names, t, req) && drop == [id];
      RemoveOne(Poor(names, t, req), Poor(names, t', req), id);
    }
  }

  lemma RemoveOne<T>(before: set<T>, after: set<T>, gone: T)
    requires gone in before && after == before - {gone}
    ensures |after| + 1 == |before|
  {
    assert before == after + {gone};
  }

  lemma CreateLowersPotential(names: Names, t: Tables, req: Request, y: Try)
    requires Integrity(t) && Answers(t, req, y) && req.claims > 0 && Creates(names, t, req, y)
    ensures Potential(names, ExecAll(t, Plan(names, t, req, y.finds, y.newId)), req) + 1 == Potential(names, t, req)
  {
    PlanEffect(names, t, req, y);
    CreatedLowersPotential(names, t, req, y, ExecAll(t, Plan(names, t, req, y.finds, y.newId)));
  }

  /** Either one poor row is dropped, or there was no matching row with claims to begin with. */
  lemma DroppedRows(names: Names, t: Tables, req: Request, y: Try)
    requires Answers(t, req, y) && Creates(names, t, req, y)
    ensures var drop := Choose(t, Candidates(names, t, req, y.finds), req).drop;
      if AnyWithClaims(names, t, req)
      then exists id :: id in Poor(names, t, req) && drop == [id]
      else Poor(names, t, req) - (set id | id in drop) == {}
  {
    var ids := Candidates(names, t, req, y.finds);
    CandidatesMatch(names, t, req, y.finds);
    var first := FirstWithClaims(t.claims, ids);
    if first.Some? {
      assert Matches(names, t, req, first.value) && first.value in Poor(names, t, req);
    }
  }

  ghost predicate Repeats(names: Names, req: Request, states: seq<Tables>, tries: seq<Try>) {
    && |states| == |tries| + 1 && Integrity(states[0])
    && forall i :: 0 <= i < |tries| ==>
         Answers(states[i], req, tries[i])
         && states[i + 1] == ExecAll(states[i], Plan(names, states[i], req, tries[i].finds, tries[i].newId))
  }

  lemma TryKeepsIntegrity(names: Names, t: Tables, req: Request, y: Try)
    requires Integrity(t) && Answers(t, req, y)
    ensures Integrity(ExecAll(t, Plan(names, t, req, y.finds, y.newId)))
  {
    var ops := Plan(names, t, req, y.finds, y.newId);
    PlanEffect(names, t, req, y);
    SafePrefixKeepsIntegrity(t, ops, |ops|);
    assert ops[..|ops|] == ops;
  }

  lemma {:induction false} RepeatsKeepIntegrity(names: Names, req: Request, states: seq<Tables>, tries: seq<Try>,
                                                k: nat)
    requires Repeats(names, req, states, tries) && k < |states|
    ensures Integrity(states[k])
  {
    if k > 0 {
      RepeatsKeepIntegrity(names, req, states, tries, k - 1);
      TryKeepsIntegrity(names, states[k - 1], req, tries[k - 1]);
    }
  }

  /** The number of the first `k` tries that create a row. */
  ghost function CreateCount(names: Names, req: Request, states: seq<Tables>, tries: seq<Try>, k: nat): nat
    requires Repeats(names, req, states, tries) && k <= |tries|
  {
    if k == 0 then 0
    else
      CreateCount(names, req, states, tries, k - 1)
      + if Creates(names, states[k - 1], req, tries[k - 1]) then 1 else 0
  }

  lemma ReuseChangesNothing(names: Names, req: Request, states: seq<Tables>, tries: seq<Try>, k: nat)
    requires Repeats(names, req, states, tries) && k < |tries|
    ensures !Creates(names, states[k], req, tries[k]) ==> states[k + 1] == states[k]
  {
    RepeatsKeepIntegrity(names, req, states, tries, k);
    PlanEffect(names, states[k], req, tries[k]);
  }

  lemma TryMovesPotential(names: Names, req: Request, states: seq<Tables>, tries: seq<Try>, k: nat)
    requires Repeats(names, req, states, tries) && k < |tries| && req.claims > 0
    ensures Potential(names, states[k], req)
         == Potential(names, states[k + 1], req) + if Creates(names, states[k], req, tries[k]) then 1 else 0
  {
    if Creates(names, states[k], req, tries[k]) {
      RepeatsKeepIntegrity(names, req, states, tries, k);
      CreateLowersPotential(names, states[k], req, tries[k]);
    } else {
      ReuseChangesNothing(names, req, states, tries, k);
    }
  }

  /** However often one request with claims is repeated, and in whatever order the finders return
      rows, the number of rows ever created is bounded by the potential of the first tables; every
      other try leaves the tables as they are. */
  lemma {:induction false} CreatesAreBounded(names: Names, req: Request, states: seq<Tables>, tries: seq<Try>, k: nat)
    requires Repeats(names, req, states, tries) && k <= |tries| && req.claims > 0
    ensures CreateCount(names, req, states, tries, k) + Potential(names, states[k], req) ==
            Potential(names, states[0], req)
    ensures k < |tries| && !Creates(names, states[k], req, tries[k]) ==> states[k + 1] == states[k]
  {
    if k < |tries| {
      ReuseChangesNothing(names, req, states, tries, k);
    }
    if k > 0 {
      CreatesAreBounded(names, req, states, tries, k - 1);
      TryMovesPotential(names, req, states, tries, k - 1);
    }
  }

  /** The finders answer by the tables alone. */
  ghost predicate StableFinders(states: seq<Tables>, tries: seq<Try>)
    requires |states| == |tries| + 1
  {
    forall i, j :: 0 <= i < |tries| && 0 <= j < |tries| && states[i] == states[j] ==> tries[i].finds == tries[j].finds
  }

  lemma {:induction false} SettledStays(names: Names, req: Request, states: seq<Tables>, tries: seq<Try>, k: nat,
                                        j: nat)
    requires Repeats(names, req, states, tries) && StableFinders(states, tries) && req.claims > 0
    requires k <= j <= |tries| && k < |tries| && !Creates(names, states[k], req, tries[k])
    ensures states[j] == states[k]
  {
    if j > k {
      SettledStays(names, req, states, tries, k, j - 1);
      CreatesAreBounded(names, req, states, tries, j - 1);
    }
  }

  lemma {:induction false} SomeTryReuses(names: Names, req: Request, states: seq<Tables>, tries: seq<Try>, n: nat)
    returns (k: nat)
    requires Repeats(names, req, states, tries) && n <= |tries|
    requires CreateCount(names, req, states, tries, n) < n
    ensures k < n && !Creates(names, states[k], req, tries[k])
  {
    if Creates(names, states[n - 1], req, tries[n - 1]) {
      k := SomeTryReuses(names, req, states, tries, n - 1);
    } else {
      k := n - 1;
    }
  }

  /** With finders that answer by the tables alone, repeating a request with claims settles on reuse:
      from some try on, no later than the potential of the first tables, nothing changes any more. */
  lemma RepeatsSettle(names: Names, req: Request, states: seq<Tables>, tries: seq<Try>) returns (k: nat)
    requires Repeats(names, req, states, tries) && StableFinders(states, tries) && req.claims > 0
    requires |tries| > Potential(names, states[0], req)
    ensures k <= Potential(names, states[0], req) && !Creates(names, states[k], req, tries[k])
    ensures forall j :: k <= j <= |tries| ==> states[j] == states[k]
  {
    var n := Potential(names, states[0], req) + 1;
    CreatesAreBounded(names, req, states, tries, n);
    k := SomeTryReuses(names, req, states, tries, n);
    forall j | k <= j <= |tries|
      ensures states[j] == states[k]
    {
      SettledStays(names, req, states, tries, k, j);
    }
  }
}
