/** The upsert as it runs: loops over finder results, candidates, rows to drop and claims to add,
    updating the tables in place. */
module UpsertTables {
  import opened Upsert
  import opened Options

  class WhitepaperTables {
    var papers: map<Id, Paper>
    var claims: multiset<Id>
    var verifications: multiset<Id>

    constructor ()
      ensures View() == Tables(map[], multiset{}, multiset{})
    {
      papers, claims, verifications := map[], multiset{}, multiset{};
    }

    function View(): Tables
      reads this
    {
      Tables(papers, claims, verifications)
    }

    method Issue(op: Op)
      modifies this
      ensures View() == Exec(old(View()), op)
    {
      match op
      case DropClaims(id) => claims := claims[id := 0];
      case DropVerifications(id) => verifications := verifications[id := 0];
      case DropPaper(id) => papers := papers - {id};
      case AddPaper(id, paper) => papers := papers[id := paper];
      case AddClaim(id) => claims := claims + multiset{id};
      case AddVerification(id) => verifications := verifications + multiset{id};
    }

    method Merge(names: Names, req: Request, f: Finds) returns (existing: seq<Id>)
      requires forall id :: id in f.byName || id in f.byAddress ==> id in papers
      ensures existing == Candidates(names, View(), req, f)
      ensures Distinct(f.byName) ==> f.byName <= existing && Distinct(existing)
    {
      if Distinct(f.byName) {
        MergedInOrder(names, View(), req, f.byName, f.byAddress);
      }
      existing := f.byName;
      for i := 0 to |f.byAddress|
        invariant forall id :: id in existing ==> id in papers
        invariant Merged(names, View(), req, existing, f.byAddress[i..]) == Candidates(names, View(), req, f)
      {
        var id := f.byAddress[i];
        assert f.byAddress[i..][0] == id && f.byAddress[i..][1..] == f.byAddress[i + 1..];
        if SameFamily(names, View(), req, id) && id !in existing {
          existing := existing + [id];
        }
      }
    }

    method DropRows(ids: seq<Id>)
      modifies this
      ensures View() == ExecAll(old(View()), DropOps(ids))
    {
      ghost var before := View();
      for i := 0 to |ids|
        invariant View() == ExecAll(before, DropOps(ids[..i]))
      {
        assert ids[..i + 1][..i] == ids[..i];
        ghost var at := View();
        Issue(DropClaims(ids[i]));
        Issue(DropVerifications(ids[i]));
        Issue(DropPaper(ids[i]));
        ExecAppend(before, DropOps(ids[..i]), [DropClaims(ids[i]), DropVerifications(ids[i]), DropPaper(ids[i])]);
        ThreeOps(at, DropClaims(ids[i]), DropVerifications(ids[i]), DropPaper(ids[i]));
      }
      assert ids[..|ids|] == ids;
    }

    method AddClaims(id: Id, n: nat)
      modifies this
      ensures View() == ExecAll(old(View()), AddOps(id, n))
    {
      ghost var before := View();
      for i := 0 to n
        invariant View() == ExecAll(before, AddOps(id, i))
      {
        Issue(AddClaim(id));
        assert AddOps(id, i + 1)[..|AddOps(id, i + 1)| - 1] == AddOps(id, i);
      }
    }

    /** The statements issued are exactly the planned ones, and the row handed back is the planned one. */
    method UpsertWhitepaperWithClaims(names: Names, req: Request, f: Finds, newId: Id) returns (saved: Option<Id>)
      requires forall id :: id in f.byName || id in f.byAddress ==> id in papers
      modifies this
      ensures View() == ExecAll(old(View()), Plan(names, old(View()), req, f, newId))
      ensures saved == Returned(names, old(View()), req, f, newId)
    {
      if names.violates(req.name) {
        return None;
      }
      ghost var before := View();
      var existing := Merge(names, req, f);
      match Choose(View(), existing, req)
      case Reuse(id) =>
        return Some(id);
      case Create(name, drop) =>
        DropRows(drop);
        ghost var dropped := View();
        var paper := StoredPaper(req, name);
        Issue(AddPaper(newId, paper));
        OneOp(dropped, AddPaper(newId, paper));
        ExecAppend(before, DropOps(drop), [AddPaper(newId, paper)]);
        AddClaims(newId, req.claims);
        ExecAppend(before, DropOps(drop) + [AddPaper(newId, paper)], AddOps(newId, req.claims));
        return Some(newId);
    }
  }
}
