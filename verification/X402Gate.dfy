/** Many requests at once through verify, simulate, broadcast and receipt, over one ledger on which
    each authorization can be consumed once. */
module X402Gate {
  import opened X402Verify
  import opened Options

  type RequestId = nat
  type Hash = nat  // a transaction is named by its place in `txs`, so every broadcast has a fresh one

  datatype TxStatus = Pending | Succeeded | Reverted

  // How the wallet's broadcast call ends: a throw may come although the transaction got out, and
  // `authState` says that its text blames the authorization.
  datatype Sent = Returned | Thrown(authState: bool, leaked: bool)

  // Here is a transaction one of the gate's requests broadcast, whether or not it was handed the hash.
  datatype Origin = Elsewhere | Here(id: RequestId, sent: Sent)

  datatype Tx = Tx(auth: Authorization, origin: Origin, status: TxStatus)

  datatype Stage =
    | Verifying
    | Simulating(auth: Authorization)
    | Broadcasting(auth: Authorization)
    | Waiting(auth: Authorization, txHash: Hash)
    | Served(txHash: Hash)
    | PaymentRequired          // 402
    | SettlementFailed         // 502

  // `payment` is what the request brought, decoded; None when it brought none that decodes.
  datatype Request = Request(price: nat, payment: Option<Payment>, stage: Stage)

  datatype State = State(
    txs: seq<Tx>,
    used: set<(Address, string)>,
    credit: int,
    requests: map<RequestId, Request>)

  datatype Step =
    | Arrives(id: RequestId, price: nat, payment: Option<Payment>)
    | Verified(id: RequestId, now: int, signer: Option<Address>, used: Option<bool>)
    | Simulated(id: RequestId, ok: bool)
    | Broadcast(id: RequestId, sent: Sent)
    | Receipt(id: RequestId, ok: bool)
    | ForeignBroadcast(auth: Authorization)
    | Mined(txHash: Hash, valid: bool)

  predicate Enabled(s: State, step: Step) {
    match step
    case Arrives(id, _, _) => id !in s.requests
    case Verified(id, _, _, _) =>
      id in s.requests && s.requests[id].stage.Verifying? && s.requests[id].payment.Some?
    case Simulated(id, _) => id in s.requests && s.requests[id].stage.Simulating?
    case Broadcast(id, _) => id in s.requests && s.requests[id].stage.Broadcasting?
    case Receipt(id, ok) =>
      id in s.requests && s.requests[id].stage.Waiting?
      && (ok ==> s.requests[id].stage.txHash < |s.txs| && s.txs[s.requests[id].stage.txHash].status.Succeeded?)
    case ForeignBroadcast(_) => true
    case Mined(txHash, _) => txHash < |s.txs| && s.txs[txHash].status.Pending?
  }

  function Key(auth: Authorization): (Address, string) {
    (auth.sender, auth.nonce)
  }

  function MovesTo(s: State, id: RequestId, stage: Stage): State
    requires id in s.requests
  {
    s.(requests := s.requests[id := s.requests[id].(stage := stage)])
  }

  function Apply(gate: Gate, s: State, step: Step): State
    requires Enabled(s, step)
  {
    match step
    case Arrives(id, price, payment) =>
      var stage := if payment.None? then PaymentRequired else Verifying;
      s.(requests := s.requests[id := Request(price, payment, stage)])
    case Verified(id, now, signer, used) =>
      var r := s.requests[id];
      var verdict := VerifyPayment(gate, r.payment.value, r.price, now, signer, used);
      MovesTo(s, id, if verdict.Ok? then Simulating(verdict.value) else PaymentRequired)
    case Simulated(id, ok) =>
      MovesTo(s, id, if ok then Broadcasting(s.requests[id].stage.auth) else PaymentRequired)
    case Broadcast(id, sent) =>
      var auth := s.requests[id].stage.auth;
      if sent.Returned? then
        MovesTo(s, id, Waiting(auth, |s.txs|)).(txs := s.txs + [Tx(auth, Here(id, sent), Pending)])
      else
        MovesTo(s, id, if sent.authState then PaymentRequired else SettlementFailed)
          .(txs := if sent.leaked then s.txs + [Tx(auth, Here(id, sent), Pending)] else s.txs)
    case Receipt(id, ok) =>
      MovesTo(s, id, if ok then Served(s.requests[id].stage.txHash) else SettlementFailed)
    case ForeignBroadcast(auth) =>
      s.(txs := s.txs + [Tx(auth, Elsewhere, Pending)])
    case Mined(txHash, valid) =>
      var tx := s.txs[txHash];
      if valid && Key(tx.auth) !in s.used then
        s.(txs := s.txs[txHash := tx.(status := Succeeded)],
           used := s.used + {Key(tx.auth)},
           credit := s.credit + if tx.auth.to == gate.payTo then tx.auth.value else 0)
      else s.(txs := s.txs[txHash := tx.(status := Reverted)])
  }

  predicate Init(s: State) {
    s == State([], {}, 0, map[])
  }

  ghost predicate Run(gate: Gate, states: seq<State>, steps: seq<Step>) {
    && |states| == |steps| + 1 && Init(states[0])
    && forall i :: 0 <= i < |steps| ==>
         Enabled(states[i], steps[i]) && states[i + 1] == Apply(gate, states[i], steps[i])
  }

  /** `after` is reached from `s` by the steps, one after the other. */
  ghost predicate Reached(gate: Gate, s: State, steps: seq<Step>, after: State)
    decreases |steps|
  {
    if steps == [] then s == after
    else Enabled(s, steps[0]) && Reached(gate, Apply(gate, s, steps[0]), steps[1..], after)
  }

  lemma {:induction false} ReachedThrough(gate: Gate, s: State, a: seq<Step>, mid: State, b: seq<Step>, after: State)
    requires Reached(gate, s, a, mid) && Reached(gate, mid, b, after)
    ensures Reached(gate, s, a + b, after)
    decreases |a|
  {
    if a == [] {
      assert a + b == b;
    } else {
      ReachedThrough(gate, Apply(gate, s, a[0]), a[1..], mid, b, after);
      assert (a + b)[1..] == a[1..] + b;
    }
  }

  lemma {:induction false} RunReaches(gate: Gate, states: seq<State>, steps: seq<Step>, n: nat)
    requires Run(gate, states, steps) && n < |states|
    ensures Reached(gate, states[0], steps[..n], states[n])
  {
    if n > 0 {
      RunReaches(gate, states, steps, n - 1);
      var last := [steps[n - 1]];
      assert last[1..] == [] && steps[..n - 1] + last == steps[..n];
      ReachedThrough(gate, states[0], steps[..n - 1], states[n - 1], last, states[n]);
    }
  }

  // ---------- ledger ----------

  /** What the authorizations among `txs` have paid to `payTo`. */
  function Paid(payTo: Address, txs: seq<Tx>): int {
    if txs == [] then 0
    else
      var last := txs[|txs| - 1];
      Paid(payTo, txs[..|txs| - 1])
      + if last.status.Succeeded? && last.auth.to == payTo then last.auth.value else 0
  }

  lemma {:induction false} PaidAfterUpdate(payTo: Address, txs: seq<Tx>, txHash: Hash, tx: Tx)
    requires txHash < |txs| && !txs[txHash].status.Succeeded?
    ensures Paid(payTo, txs[txHash := tx]) ==
            Paid(payTo, txs) + if tx.status.Succeeded? && tx.auth.to == payTo then tx.auth.value else 0
  {
    var n := |txs| - 1;
    if txHash == n {
      assert txs[txHash := tx][..n] == txs[..n];
    } else {
      assert txs[txHash := tx][..n] == txs[..n][txHash := tx];
      PaidAfterUpdate(payTo, txs[..n], txHash, tx);
    }
  }

  lemma PaidAfterAppend(payTo: Address, txs: seq<Tx>, tx: Tx)
    requires tx.status.Pending?
    ensures Paid(payTo, txs + [tx]) == Paid(payTo, txs)
  {
    assert (txs + [tx])[..|txs|] == txs;
  }

  /** No authorization is consumed twice, and the credit is what the consumed ones carried. */
  ghost predicate LedgerSound(gate: Gate, s: State) {
    && (forall i :: 0 <= i < |s.txs| && s.txs[i].status.Succeeded? ==> Key(s.txs[i].auth) in s.used)
    && (forall i, j :: 0 <= i < j < |s.txs| && s.txs[i].status.Succeeded? && s.txs[j].status.Succeeded? ==>
          Key(s.txs[i].auth) != Key(s.txs[j].auth))
    && s.credit == Paid(gate.payTo, s.txs)
  }

  lemma AppendKeepsLedger(gate: Gate, s: State, after: State, tx: Tx)
    requires LedgerSound(gate, s) && tx.status.Pending?
    requires after.txs == s.txs + [tx] && after.used == s.used && after.credit == s.credit
    ensures LedgerSound(gate, after)
  {
    PaidAfterAppend(gate.payTo, s.txs, tx);
  }

  lemma MiningKeepsLedger(gate: Gate, s: State, txHash: Hash, valid: bool)
    requires LedgerSound(gate, s) && Enabled(s, Mined(txHash, valid))
    ensures LedgerSound(gate, Apply(gate, s, Mined(txHash, valid)))
  {
    var after := Apply(gate, s, Mined(txHash, valid));
    PaidAfterUpdate(gate.payTo, s.txs, txHash, after.txs[txHash]);
  }

  lemma StepKeepsLedger(gate: Gate, s: State, step: Step)
    requires LedgerSound(gate, s) && Enabled(s, step)
    ensures LedgerSound(gate, Apply(gate, s, step))
  {
    var after := Apply(gate, s, step);
    if step.Mined? {
      MiningKeepsLedger(gate, s, step.txHash, step.valid);
    } else if after.txs != s.txs {
      AppendKeepsLedger(gate, s, after, after.txs[|s.txs|]);
    }
  }

  // ---------- requests ----------

  /** The authorization is the one the request's payment signed, to the gate's address, for its price. */
  predicate Covers(gate: Gate, auth: Authorization, r: Request) {
    && r.payment.Some? && Signed(r.payment.value, auth)
    && auth.to == gate.payTo && r.price <= auth.value
  }

  predicate OwnsTx(s: State, id: RequestId, txHash: Hash) {
    txHash < |s.txs| && s.txs[txHash].origin == Here(id, Returned)
  }

  predicate RequestSound(gate: Gate, s: State, id: RequestId)
    requires id in s.requests
  {
    var r := s.requests[id];
    match s.requests[id].stage
    case Simulating(auth) => Covers(gate, auth, r)
    case Broadcasting(auth) => Covers(gate, auth, r)
    case Waiting(auth, txHash) => OwnsTx(s, id, txHash) && s.txs[txHash].auth == auth && Covers(gate, auth, r)
    case Served(txHash) =>
      OwnsTx(s, id, txHash) && s.txs[txHash].status.Succeeded? && Covers(gate, s.txs[txHash].auth, r)
    case _ => true
  }

  predicate Of(s: State, h: Hash, id: RequestId) {
    h < |s.txs| && s.txs[h].origin.Here? && s.txs[h].origin.id == id
  }

  /** Where a request stands that broadcast transaction `h`, by how its broadcast call ended. */
  predicate StandsAt(stage: Stage, sent: Sent, h: Hash) {
    match sent
    case Returned => stage == Served(h) || stage.SettlementFailed? || (stage.Waiting? && stage.txHash == h)
    case Thrown(authState, leaked) => leaked && stage == if authState then PaymentRequired else SettlementFailed
  }

  predicate OriginSound(gate: Gate, s: State, h: Hash)
    requires h < |s.txs|
  {
    s.txs[h].origin.Here? ==>
      var id := s.txs[h].origin.id;
      && id in s.requests && StandsAt(s.requests[id].stage, s.txs[h].origin.sent, h)
      && Covers(gate, s.txs[h].auth, s.requests[id])
  }

  ghost predicate RequestsSound(gate: Gate, s: State) {
    && (forall id :: id in s.requests ==> RequestSound(gate, s, id))
    && (forall h :: 0 <= h < |s.txs| ==> OriginSound(gate, s, h))
    && (forall h: Hash, k: Hash, id :: Of(s, h, id) && Of(s, k, id) ==> h == k)
  }

  lemma StepKeepsOrigin(gate: Gate, s: State, step: Step, h: Hash)
    requires RequestsSound(gate, s) && Enabled(s, step) && h < |Apply(gate, s, step).txs|
    ensures OriginSound(gate, Apply(gate, s, step), h)
  {
    if h < |s.txs| {
      assert OriginSound(gate, s, h);
    } else if step.Broadcast? {
      assert RequestSound(gate, s, step.id);
    }
  }

  /** A request broadcasts once: while it still can, no transaction is its own. */
  lemma StepKeepsOneEach(gate: Gate, s: State, step: Step, h: Hash, k: Hash, id: RequestId)
    requires RequestsSound(gate, s) && Enabled(s, step)
    requires h < k && Of(Apply(gate, s, step), h, id)
    ensures !Of(Apply(gate, s, step), k, id)
  {
    if h < |s.txs| {
      assert Of(s, h, id) && OriginSound(gate, s, h);
      assert k < |s.txs| ==> !Of(s, k, id);
    }
  }

  /** A transaction keeps its authorization and its origin, and a consumed one stays consumed. */
  predicate Extends(s: State, after: State) {
    && |s.txs| <= |after.txs|
    && forall h :: 0 <= h < |s.txs| ==>
         && after.txs[h].auth == s.txs[h].auth && after.txs[h].origin == s.txs[h].origin
         && (s.txs[h].status.Succeeded? ==> after.txs[h].status.Succeeded?)
  }

  lemma StepExtends(gate: Gate, s: State, step: Step)
    requires Enabled(s, step)
    ensures Extends(s, Apply(gate, s, step))
  {
  }

  lemma RequestCarries(gate: Gate, s: State, after: State, id: RequestId)
    requires id in s.requests && RequestSound(gate, s, id) && Extends(s, after)
    requires id in after.requests && after.requests[id] == s.requests[id]
    ensures RequestSound(gate, after, id)
  {
  }

  lemma BroadcastKeepsRequest(gate: Gate, s: State, id: RequestId, sent: Sent)
    requires Enabled(s, Broadcast(id, sent)) && RequestSound(gate, s, id)
    ensures RequestSound(gate, Apply(gate, s, Broadcast(id, sent)), id)
  {
  }

  lemma OwnStepKeepsRequest(gate: Gate, s: State, step: Step, id: RequestId)
    requires Enabled(s, step) && !step.Broadcast? && id in s.requests && RequestSound(gate, s, id)
    requires Apply(gate, s, step).requests[id] != s.requests[id]
    ensures RequestSound(gate, Apply(gate, s, step), id)
  {
  }

  lemma StepKeepsRequest(gate: Gate, s: State, step: Step, id: RequestId)
    requires RequestsSound(gate, s) && Enabled(s, step) && id in Apply(gate, s, step).requests
    ensures RequestSound(gate, Apply(gate, s, step), id)
  {
    if id in s.requests {
      assert RequestSound(gate, s, id);
      StepExtends(gate, s, step);
      if Apply(gate, s, step).requests[id] == s.requests[id] {
        RequestCarries(gate, s, Apply(gate, s, step), id);
      } else if step.Broadcast? {
        BroadcastKeepsRequest(gate, s, id, step.sent);
      } else {
        OwnStepKeepsRequest(gate, s, step, id);
      }
    }
  }

  lemma StepKeepsRequests(gate: Gate, s: State, step: Step)
    requires RequestsSound(gate, s) && Enabled(s, step)
    ensures RequestsSound(gate, Apply(gate, s, step))
  {
    var after := Apply(gate, s, step);
    forall h | 0 <= h < |after.txs|
      ensures OriginSound(gate, after, h)
    {
      StepKeepsOrigin(gate, s, step, h);
    }
    forall id | id in after.requests
      ensures RequestSound(gate, after, id)
    {
      StepKeepsRequest(gate, s, step, id);
    }
    forall h: Hash, k: Hash, id | Of(after, h, id) && Of(after, k, id)
      ensures h == k
    {
      if h < k {
        StepKeepsOneEach(gate, s, step, h, k, id);
      } else if k < h {
        StepKeepsOneEach(gate, s, step, k, h, id);
      }
    }
  }

  /** The ledger and the requests stay sound along any steps. */
  lemma {:induction false} ReachedIsSound(gate: Gate, s: State, steps: seq<Step>, after: State)
    requires LedgerSound(gate, s) && RequestsSound(gate, s) && Reached(gate, s, steps, after)
    ensures LedgerSound(gate, after) && RequestsSound(gate, after)
    decreases |steps|
  {
    if steps != [] {
      StepKeepsLedger(gate, s, steps[0]);
      StepKeepsRequests(gate, s, steps[0]);
      ReachedIsSound(gate, Apply(gate, s, steps[0]), steps[1..], after);
    }
  }

  lemma RunIsSound(gate: Gate, states: seq<State>, steps: seq<Step>, n: nat)
    requires Run(gate, states, steps) && n < |states|
    ensures LedgerSound(gate, states[n]) && RequestsSound(gate, states[n])
  {
    RunReaches(gate, states, steps, n);
    ReachedIsSound(gate, states[0], steps[..n], states[n]);
  }

  // ---------- what the gate guarantees ----------

  /** Any two served requests are backed by different consumed authorizations, each paid to the
      gate's address with at least the request's price. */
  lemma ServedRequestsHaveTheirOwnPayments(gate: Gate, s: State, a: RequestId, b: RequestId)
    requires LedgerSound(gate, s) && RequestsSound(gate, s)
    requires a in s.requests && s.requests[a].stage.Served?
    requires b in s.requests && s.requests[b].stage.Served?
    ensures var auth := s.txs[s.requests[a].stage.txHash].auth;
      && Key(auth) in s.used && auth.to == gate.payTo && s.requests[a].price <= auth.value
      && (a != b ==> Key(auth) != Key(s.txs[s.requests[b].stage.txHash].auth))
  {
    assert RequestSound(gate, s, a) && RequestSound(gate, s, b);
    var i, j := s.requests[a].stage.txHash, s.requests[b].stage.txHash;
    if a != b {
      assert i < j || j < i;
    }
  }

  // The sum over a finite set of requests, taken in any order.
  ghost function PriceSum(requests: map<RequestId, Request>, ids: set<RequestId>): int
    requires ids <= requests.Keys
  {
    if ids == {} then 0
    else
      var id :| id in ids;
      requests[id].price + PriceSum(requests, ids - {id})
  }

  lemma {:induction false} PriceSumRemove(requests: map<RequestId, Request>, ids: set<RequestId>, id: RequestId)
    requires ids <= requests.Keys && id in ids
    ensures PriceSum(requests, ids) == requests[id].price + PriceSum(requests, ids - {id})
    decreases ids
  {
    var first :| first in ids && PriceSum(requests, ids) == requests[first].price + PriceSum(requests, ids - {first});
    if first != id {
      PriceSumRemove(requests, ids - {first}, id);
      PriceSumRemove(requests, ids - {id}, first);
      assert ids - {first} - {id} == ids - {id} - {first};
    }
  }

  function ServedBefore(s: State, n: nat): set<RequestId> {
    set id | id in s.requests && s.requests[id].stage.Served? && s.requests[id].stage.txHash < n
  }

  /** A request served with a transaction is the only one, and the transaction covers its price. */
  lemma NextServed(gate: Gate, s: State, n: nat, id: RequestId)
    requires LedgerSound(gate, s) && RequestsSound(gate, s) && n < |s.txs|
    requires id in ServedBefore(s, n + 1) && id !in ServedBefore(s, n)
    ensures ServedBefore(s, n + 1) - {id} == ServedBefore(s, n)
    ensures s.txs[n].status.Succeeded? && Covers(gate, s.txs[n].auth, s.requests[id])
  {
    assert RequestSound(gate, s, id);
    forall other | other in ServedBefore(s, n + 1) && other !in ServedBefore(s, n)
      ensures other == id
    {
      assert RequestSound(gate, s, other);
    }
  }

  lemma PaidGrows(payTo: Address, txs: seq<Tx>, n: nat)
    requires n < |txs|
    ensures Paid(payTo, txs[..n + 1]) ==
            Paid(payTo, txs[..n]) + if txs[n].status.Succeeded? && txs[n].auth.to == payTo then txs[n].auth.value else 0
  {
    assert txs[..n + 1][..n] == txs[..n];
  }

  lemma {:induction false} PrefixCoversPrices(gate: Gate, s: State, n: nat)
    requires LedgerSound(gate, s) && RequestsSound(gate, s) && n <= |s.txs|
    ensures PriceSum(s.requests, ServedBefore(s, n)) <= Paid(gate.payTo, s.txs[..n])
  {
    if n == 0 {
      assert ServedBefore(s, 0) == {};
    } else {
      PrefixCoversPrices(gate, s, n - 1);
      PaidGrows(gate.payTo, s.txs, n - 1);
      var now, before := ServedBefore(s, n), ServedBefore(s, n - 1);
      if id :| id in now && id !in before {
        NextServed(gate, s, n - 1, id);
        PriceSumRemove(s.requests, now, id);
      } else {
        assert now == before;
      }
    }
  }

  ghost function ServedIds(s: State): set<RequestId> {
    set id | id in s.requests && s.requests[id].stage.Served?
  }

  /** In every run the gate's address has been credited at least the prices of all requests served. */
  lemma CreditCoversPricesServed(gate: Gate, states: seq<State>, steps: seq<Step>, n: nat)
    requires Run(gate, states, steps) && n < |states|
    ensures PriceSum(states[n].requests, ServedIds(states[n])) <= states[n].credit
  {
    var s := states[n];
    RunIsSound(gate, states, steps, n);
    PrefixCoversPrices(gate, s, |s.txs|);
    assert s.txs[..|s.txs|] == s.txs;
    assert ServedBefore(s, |s.txs|) == ServedIds(s) by {
      forall id | id in ServedIds(s)
        ensures id in ServedBefore(s, |s.txs|)
      {
        assert RequestSound(gate, s, id);
      }
    }
  }
}
