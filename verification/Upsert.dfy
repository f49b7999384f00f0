/** The whitepaper upsert: reuse the first matching row that already has claims enough, or replace
    it; the three related tables are written one statement at a time. */
module Upsert {
  import opened Options

  type Id = nat

  // ---------- names and addresses ----------

  function LowerChar(c: char): char {
    if 'A' <= c <= 'Z' then (c as int + 32) as char else c
  }

  function Lower(s: string): string {
    seq(|s|, i requires 0 <= i < |s| => LowerChar(s[i]))
  }

  predicate LooksEvm(address: string) {
    "0x" <= address
  }

  function Normalized(address: string): string {
    if LooksEvm(address) then Lower(address) else address
  }

  predicate SameAddress(stored: string, requested: string) {
    if LooksEvm(requested) then Lower(stored) == Lower(requested) else stored == requested
  }

  lemma StoredAddressIsFound(address: string)
    ensures SameAddress(Normalized(address), address)
  {
    assert Lower(Lower(address)) == Lower(address);
  }

  /** The same letter, or one in capitals and the other not. */
  predicate SameLetter(a: char, b: char) {
    || a == b
    || ('A' <= a <= 'Z' && b as int == a as int + 32)
    || ('A' <= b <= 'Z' && a as int == b as int + 32)
  }

  predicate SameText(a: string, b: string) {
    |a| == |b| && forall i :: 0 <= i < |a| ==> SameLetter(a[i], b[i])
  }

  lemma LowerIffSameLetter(a: char, b: char)
    ensures LowerChar(a) == LowerChar(b) <==> SameLetter(a, b)
  {
  }

  lemma LowerIffSameText(a: string, b: string)
    ensures Lower(a) == Lower(b) <==> SameText(a, b)
  {
    if |a| == |b| {
      forall i | 0 <= i < |a|
        ensures Lower(a)[i] == Lower(b)[i] <==> SameLetter(a[i], b[i])
      {
        LowerIffSameLetter(a[i], b[i]);
      }
    }
    assert |Lower(a)| == |a| && |Lower(b)| == |b|;
  }

  predicate NoCapitals(s: string) {
    forall i :: 0 <= i < |s| ==> !('A' <= s[i] <= 'Z')
  }

  /** The paper bears the name and the requested address: without capitals if that starts with 0x, and as it is
      if not. */
  predicate Stores(paper: Paper, req: Request, name: string) {
    && paper.name == name
    && match req.address
       case None => paper.address.None?
       case Some(address) =>
         && paper.address.Some?
         && if "0x" <= address then NoCapitals(paper.address.value) && SameText(paper.address.value, address)
            else paper.address.value == address
  }

  lemma StoredPaperStores(req: Request, name: string)
    ensures Stores(StoredPaper(req, name), req, name)
  {
    if req.address.Some? {
      StoredForm(req.address.value, req.address.value);
    }
  }

  /** An address that starts with 0x is stored without capitals, in one form for all its spellings; any other
      address is kept as it is. */
  lemma StoredForm(address: string, other: string)
    ensures LooksEvm(address) ==> NoCapitals(Normalized(address)) && SameText(Normalized(address), address)
    ensures LooksEvm(address) && LooksEvm(other) && SameText(address, other) ==>
      Normalized(address) == Normalized(other)
    ensures !LooksEvm(address) ==> Normalized(address) == address
  {
    LowerIffSameText(address, other);
    forall i | 0 <= i < |address|
      ensures SameLetter(LowerChar(address[i]), address[i]) && !('A' <= LowerChar(address[i]) <= 'Z')
    {
      LowerIffSameLetter(LowerChar(address[i]), address[i]);
    }
  }

  // What is read off a project name: its version token ("" when it has none), and whether it
  // contains a violation keyword.
  datatype Names = Names(version: string -> string, violates: string -> bool)

  // ---------- tables ----------

  datatype Paper = Paper(name: string, address: Option<string>)

  // Claims and verifications are known here by the paper they point to.
  datatype Tables = Tables(papers: map<Id, Paper>, claims: multiset<Id>, verifications: multiset<Id>)

  datatype Op =
    | DropClaims(id: Id)
    | DropVerifications(id: Id)
    | DropPaper(id: Id)
    | AddPaper(id: Id, paper: Paper)
    | AddClaim(id: Id)
    | AddVerification(id: Id)

  function Exec(t: Tables, op: Op): Tables {
    match op
    case DropClaims(id) => t.(claims := t.claims[id := 0])
    case DropVerifications(id) => t.(verifications := t.verifications[id := 0])
    case DropPaper(id) => t.(papers := t.papers - {id})
    case AddPaper(id, paper) => t.(papers := t.papers[id := paper])
    case AddClaim(id) => t.(claims := t.claims + multiset{id})
    case AddVerification(id) => t.(verifications := t.verifications + multiset{id})
  }

  function ExecAll(t: Tables, ops: seq<Op>): Tables {
    if ops == [] then t else Exec(ExecAll(t, ops[..|ops| - 1]), ops[|ops| - 1])
  }

  lemma {:induction false} ExecAppend(t: Tables, a: seq<Op>, b: seq<Op>)
    ensures ExecAll(t, a + b) == ExecAll(ExecAll(t, a), b)
  {
    if b == [] {
      assert a + b == a;
    } else {
      var n := |b| - 1;
      assert (a + b)[..|a + b| - 1] == a + b[..n];
      ExecAppend(t, a, b[..n]);
    }
  }

  // ---------- the request and the rows it matches ----------

  datatype Request = Request(name: string, address: Option<string>, claims: nat)

  predicate NameMatches(t: Tables, req: Request, id: Id) {
    id in t.papers && Lower(t.papers[id].name) == Lower(req.name)
  }

  predicate AddressMatches(t: Tables, req: Request, id: Id) {
    id in t.papers && req.address.Some? && req.address.value != ""
    && t.papers[id].address.Some? && SameAddress(t.papers[id].address.value, req.address.value)
  }

  predicate SameFamily(names: Names, t: Tables, req: Request, id: Id)
    requires id in t.papers
  {
    names.version(t.papers[id].name) == names.version(req.name)
  }

  predicate Matches(names: Names, t: Tables, req: Request, id: Id) {
    NameMatches(t, req, id) || (AddressMatches(t, req, id) && SameFamily(names, t, req, id))
  }

  predicate Distinct(ids: seq<Id>) {
    forall i, j :: 0 <= i < j < |ids| ==> ids[i] != ids[j]
  }

  /** The rows the two finders return, each once, in whatever order the database has them. */
  datatype Finds = Finds(byName: seq<Id>, byAddress: seq<Id>)

  ghost predicate Found(t: Tables, req: Request, f: Finds) {
    && (forall id :: id in f.byName <==> NameMatches(t, req, id))
    && (forall id :: id in f.byAddress <==> AddressMatches(t, req, id))
    && Distinct(f.byName) && Distinct(f.byAddress)
  }

  function Merged(names: Names, t: Tables, req: Request, found: seq<Id>, more: seq<Id>): (r: seq<Id>)
    requires forall id :: id in more ==> id in t.papers
    ensures forall id :: id in r ==> id in found || id in more
    decreases |more|
  {
    if more == [] then found
    else if more[0] in found || !SameFamily(names, t, req, more[0]) then Merged(names, t, req, found, more[1..])
    else Merged(names, t, req, found + [more[0]], more[1..])
  }

  function Candidates(names: Names, t: Tables, req: Request, f: Finds): seq<Id>
    requires forall id :: id in f.byAddress ==> id in t.papers
  {
    Merged(names, t, req, f.byName, f.byAddress)
  }

  lemma {:induction false} MergedIds(names: Names, t: Tables, req: Request, found: seq<Id>, more: seq<Id>, id: Id)
    requires forall i :: i in more ==> i in t.papers
    ensures id in Merged(names, t, req, found, more) <==> id in found || (id in more && SameFamily(names, t, req, id))
    decreases |more|
  {
    if more != [] {
      assert id in more <==> id == more[0] || id in more[1..];
      MergedIds(names, t, req, found, more[1..], id);
      MergedIds(names, t, req, found + [more[0]], more[1..], id);
    }
  }

  /** The candidates are exactly the rows that match by name, or by address within the family. */
  lemma CandidatesMatch(names: Names, t: Tables, req: Request, f: Finds)
    requires Found(t, req, f)
    ensures forall id :: id in Candidates(names, t, req, f) <==> Matches(names, t, req, id)
  {
    forall id
      ensures id in Candidates(names, t, req, f) <==> Matches(names, t, req, id)
    {
      MergedIds(names, t, req, f.byName, f.byAddress, id);
    }
  }

  /** In terms of the texts: names match whatever their capitals; addresses do so only when the one asked for
      starts with 0x, and count only where the version read off the name is the one asked for. */
  lemma CandidatesByText(names: Names, t: Tables, req: Request, f: Finds, id: Id)
    requires Found(t, req, f) && id in t.papers
    ensures var paper := t.papers[id];
      id in Candidates(names, t, req, f) <==>
        || SameText(paper.name, req.name)
        || (&& names.version(paper.name) == names.version(req.name)
            && req.address.Some? && req.address.value != "" && paper.address.Some?
            && if "0x" <= req.address.value then SameText(paper.address.value, req.address.value)
               else paper.address.value == req.address.value)
  {
    CandidatesMatch(names, t, req, f);
    LowerIffSameText(t.papers[id].name, req.name);
    if req.address.Some? && t.papers[id].address.Some? {
      LowerIffSameText(t.papers[id].address.value, req.address.value);
    }
  }

  /** Merging appends: what was found first comes first, and no row comes twice. */
  lemma {:induction false} MergedInOrder(names: Names, t: Tables, req: Request, found: seq<Id>, more: seq<Id>)
    requires Distinct(found) && forall id :: id in more ==> id in t.papers
    ensures found <= Merged(names, t, req, found, more) && Distinct(Merged(names, t, req, found, more))
    decreases |more|
  {
    if more != [] {
      if more[0] in found || !SameFamily(names, t, req, more[0]) {
        MergedInOrder(names, t, req, found, more[1..]);
      } else {
        MergedInOrder(names, t, req, found + [more[0]], more[1..]);
      }
    }
  }

  // ---------- the decision ----------

  datatype Decision = Reuse(id: Id) | Create(name: string, drop: seq<Id>)

  /** The first of `ids` that has claims. */
  function FirstWithClaims(claims: multiset<Id>, ids: seq<Id>): (r: Option<Id>)
    ensures r.None? ==> forall id :: id in ids ==> claims[id] == 0
    ensures r.Some? ==> r.value in ids && claims[r.value] > 0
    ensures r.Some? ==>
      exists k :: 0 <= k < |ids| && ids[k] == r.value && forall j :: 0 <= j < k ==> claims[ids[j]] == 0
  {
    if ids == [] then None
    else if claims[ids[0]] > 0 then Some(ids[0])
    else
      var rest := FirstWithClaims(claims, ids[1..]);
      assert forall j :: 0 < j < |ids| ==> ids[1..][j - 1] == ids[j];
      assert rest.Some? ==> forall k :: 0 <= k < |ids[1..]| ==> ids[1..][k] == ids[k + 1];
      rest
  }

  function Choose(t: Tables, ids: seq<Id>, req: Request): Decision
    requires forall id :: id in ids ==> id in t.papers
  {
    var first := FirstWithClaims(t.claims, ids);
    if first.Some? && t.claims[first.value] >= req.claims then Reuse(first.value)
    else if first.Some? then Create(t.papers[first.value].name, [first.value])
    else Create(req.name, ids)
  }

  function DropOps(ids: seq<Id>): seq<Op> {
    if ids == [] then []
    else
      var n := |ids| - 1;
      DropOps(ids[..n]) + [DropClaims(ids[n]), DropVerifications(ids[n]), DropPaper(ids[n])]
  }

  function AddOps(id: Id, n: nat): seq<Op> {
    if n == 0 then [] else AddOps(id, n - 1) + [AddClaim(id)]
  }

  function StoredPaper(req: Request, name: string): Paper {
    Paper(name, if req.address.Some? then Some(Normalized(req.address.value)) else None)
  }

  /** The statements an upsert issues, in order, when the new row would get the id `fresh`. */
  function Plan(names: Names, t: Tables, req: Request, f: Finds, newId: Id): seq<Op>
    requires forall id :: id in f.byName || id in f.byAddress ==> id in t.papers
  {
    if names.violates(req.name) then []
    else
      match Choose(t, Candidates(names, t, req, f), req)
      case Reuse(_) => []
      case Create(name, drop) => DropOps(drop) + [AddPaper(newId, StoredPaper(req, name))] + AddOps(newId, req.claims)
  }

  /** The row an upsert hands back; None is the unsaved record for a name with violation keywords. */
  function Returned(names: Names, t: Tables, req: Request, f: Finds, newId: Id): Option<Id>
    requires forall id :: id in f.byName || id in f.byAddress ==> id in t.papers
  {
    if names.violates(req.name) then None
    else
      match Choose(t, Candidates(names, t, req, f), req)
      case Reuse(id) => Some(id)
      case Create(_, _) => Some(newId)
  }

  // ---------- what each statement needs ----------

  /** No claim or verification points to a missing paper, and no paper has two verifications. */
  ghost predicate Integrity(t: Tables) {
    && (forall id :: id in t.claims ==> id in t.papers)
    && (forall id :: id in t.verifications ==> id in t.papers)
    && (forall id :: t.verifications[id] <= 1)
  }

  predicate Safe(t: Tables, op: Op) {
    match op
    case DropPaper(id) => t.claims[id] == 0 && t.verifications[id] == 0
    case AddClaim(id) => id in t.papers
    case AddVerification(id) => id in t.papers && t.verifications[id] == 0
    case _ => true
  }

  predicate AllSafe(t: Tables, ops: seq<Op>) {
    ops == [] || (AllSafe(t, ops[..|ops| - 1]) && Safe(ExecAll(t, ops[..|ops| - 1]), ops[|ops| - 1]))
  }

  lemma {:induction false} SafeAppend(t: Tables, a: seq<Op>, b: seq<Op>)
    requires AllSafe(t, a) && AllSafe(ExecAll(t, a), b)
    ensures AllSafe(t, a + b)
  {
    if b == [] {
      assert a + b == a;
    } else {
      var n := |b| - 1;
      assert (a + b)[..|a + b| - 1] == a + b[..n];
      SafeAppend(t, a, b[..n]);
      ExecAppend(t, a, b[..n]);
    }
  }

  lemma SafeKeepsIntegrity(t: Tables, op: Op)
    requires Integrity(t) && Safe(t, op)
    ensures Integrity(Exec(t, op))
  {
  }

  /** A list of safe statements may be cut short anywhere. */
  lemma {:induction false} SafePrefixKeepsIntegrity(t: Tables, ops: seq<Op>, k: nat)
    requires Integrity(t) && AllSafe(t, ops) && k <= |ops|
    ensures Integrity(ExecAll(t, ops[..k]))
  {
    if ops != [] {
      var rest := ops[..|ops| - 1];
      if k < |ops| {
        assert rest[..k] == ops[..k];
        SafePrefixKeepsIntegrity(t, rest, k);
      } else {
        assert ops[..k] == ops && rest[..|rest|] == rest;
        SafePrefixKeepsIntegrity(t, rest, |rest|);
        SafeKeepsIntegrity(ExecAll(t, rest), ops[|ops| - 1]);
      }
    }
  }

  // ---------- effect of the statement lists ----------

  ghost predicate Dropped(t: Tables, ids: seq<Id>, t': Tables) {
    && t'.papers == t.papers - (set id | id in ids)
    && (forall id :: t'.claims[id] == if id in ids then 0 else t.claims[id])
    && (forall id :: t'.verifications[id] == if id in ids then 0 else t.verifications[id])
  }

  lemma {:induction false} DropOpsEffect(t: Tables, ids: seq<Id>)
    ensures Dropped(t, ids, ExecAll(t, DropOps(ids))) && AllSafe(t, DropOps(ids))
  {
    if ids != [] {
      var n := |ids| - 1;
      DropOpsEffect(t, ids[..n]);
      var t1 := ExecAll(t, DropOps(ids[..n]));
      var ops := [DropClaims(ids[n]), DropVerifications(ids[n]), DropPaper(ids[n])];
      ThreeOps(t1, ops[0], ops[1], ops[2]);
      ExecAppend(t, DropOps(ids[..n]), ops);
      SafeAppend(t, DropOps(ids[..n]), ops);
      assert forall id :: id in ids <==> id in ids[..n] || id == ids[n];
    }
  }

  lemma ThreeOps(t: Tables, a: Op, b: Op, c: Op)
    ensures ExecAll(t, [a, b, c]) == Exec(Exec(Exec(t, a), b), c)
    ensures AllSafe(t, [a, b, c]) <==> Safe(t, a) && Safe(Exec(t, a), b) && Safe(Exec(Exec(t, a), b), c)
  {
    assert [a, b, c][..2] == [a, b] && [a, b][..1] == [a] && [a][..0] == [];
    assert ExecAll(t, [a]) == Exec(t, a);
    assert ExecAll(t, [a, b]) == Exec(Exec(t, a), b);
    assert AllSafe(t, [a]) <==> Safe(t, a);
    assert AllSafe(t, [a, b]) <==> Safe(t, a) && Safe(Exec(t, a), b);
  }

  lemma {:induction false} AddOpsEffect(t: Tables, id: Id, n: nat)
    requires id in t.papers
    ensures var t' := ExecAll(t, AddOps(id, n));
      && t'.papers == t.papers && t'.verifications == t.verifications
      && forall x :: t'.claims[x] == t.claims[x] + if x == id then n else 0
    ensures AllSafe(t, AddOps(id, n))
  {
    if n > 0 {
      AddOpsEffect(t, id, n - 1);
      assert AddOps(id, n)[..|AddOps(id, n)| - 1] == AddOps(id, n - 1);
    }
  }

  ghost predicate Created(t: Tables, drop: seq<Id>, newId: Id, paper: Paper, n: nat, t': Tables) {
    && t'.papers == (t.papers - (set id | id in drop))[newId := paper]
    && (forall id :: t'.claims[id] == if id == newId then n else if id in drop then 0 else t.claims[id])
    && (forall id :: t'.verifications[id] == if id in drop then 0 else t.verifications[id])
  }

  lemma OneOp(t: Tables, op: Op)
    ensures ExecAll(t, [op]) == Exec(t, op) && (AllSafe(t, [op]) <==> Safe(t, op))
  {
    assert [op][..0] == [];
  }

  lemma CreateOpsEffect(t: Tables, drop: seq<Id>, newId: Id, paper: Paper, n: nat)
    requires newId !in drop && t.claims[newId] == 0
    ensures var ops := DropOps(drop) + [AddPaper(newId, paper)] + AddOps(newId, n);
      Created(t, drop, newId, paper, n, ExecAll(t, ops)) && AllSafe(t, ops)
  {
    DropOpsEffect(t, drop);
    var t1 := ExecAll(t, DropOps(drop));
    OneOp(t1, AddPaper(newId, paper));
    var t2 := Exec(t1, AddPaper(newId, paper));
    AddOpsEffect(t2, newId, n);
    var head := DropOps(drop) + [AddPaper(newId, paper)];
    ExecAppend(t, DropOps(drop), [AddPaper(newId, paper)]);
    ExecAppend(t, head, AddOps(newId, n));
    SafeAppend(t, DropOps(drop), [AddPaper(newId, paper)]);
    SafeAppend(t, head, AddOps(newId, n));
    CreatedFromParts(t, drop, newId, paper, n, t1, ExecAll(t2, AddOps(newId, n)));
  }

  lemma CreatedFromParts(t: Tables, drop: seq<Id>, newId: Id, paper: Paper, n: nat, t1: Tables, t': Tables)
    requires newId !in drop && t.claims[newId] == 0 && Dropped(t, drop, t1)
    requires t'.papers == t1.papers[newId := paper] && t'.verifications == t1.verifications
    requires forall x :: t'.claims[x] == t1.claims[x] + if x == newId then n else 0
    ensures Created(t, drop, newId, paper, n, t')
  {
  }
}
