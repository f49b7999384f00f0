/** The gate's hook and its settlement as they are written, for one request with nothing in between:
    effects on the ledger and the reply, with their early returns. */
module X402Hook {
  import opened X402Verify
  import opened X402Gate
  import opened X402Charges
  import opened Options

  // What became of a broadcast transaction by the end of the wait: not mined yet, mined when its
  // signature or time window no longer held, or mined while they did.
  datatype Mining = NotYet | TooLate | InTime

  // How the node answers during one settlement; a mined transaction's receipt may still not be shown.
  datatype Node = Node(simulates: bool, sent: Sent, mined: Mining, receiptShown: bool)

  datatype Outcome = Settled(txHash: Hash) | Rejected | Threw

  // What the request meets before settlement: its decoded payment, if it has one, and the lookups.
  datatype Arrival = Arrival(price: nat, payment: Option<Payment>, now: int, signer: Option<Address>,
                             used: Option<bool>)

  // status is None while nothing was sent: then the route handler runs.
  class Reply {
    var status: Option<nat>
    var paymentResponse: Option<Hash>

    constructor ()
      ensures status == None && paymentResponse == None
    {
      status, paymentResponse := None, None;
    }
  }

  function StatusAfter(n: Node, consumed: bool): TxStatus {
    if n.mined.NotYet? then Pending else if consumed then Succeeded else Reverted
  }

  /** The authorization is consumed by the time of the answer. */
  predicate Consumes(s: State, auth: Authorization, n: Node) {
    n.simulates && n.sent.Returned? && n.mined.InTime? && Key(auth) !in s.used
  }

  /** The authorization is consumed by then, or a transaction that can consume it is on its way. */
  predicate CanConsume(s: State, auth: Authorization, n: Node) {
    n.simulates && Key(auth) !in s.used && if n.sent.Returned? then !n.mined.TooLate? else n.sent.leaked
  }

  class X402Gateway {
    const gate: Gate
    var txs: seq<Tx>
    var used: set<(Address, string)>
    var credit: int
    var requests: map<RequestId, Request>

    constructor (gate: Gate)
      ensures this.gate == gate && Init(View())
    {
      this.gate := gate;
      txs, used, credit, requests := [], {}, 0, map[];
    }

    function View(): State
      reads this
    {
      State(txs, used, credit, requests)
    }

    method MoveTo(id: RequestId, stage: Stage)
      requires id in requests
      modifies this`requests
      ensures View() == MovesTo(old(View()), id, stage)
    {
      requests := requests[id := requests[id].(stage := stage)];
    }

    /** The chain takes up the transaction broadcast last. */
    method Mine(valid: bool)
      requires txs != [] && txs[|txs| - 1].status.Pending?
      modifies this`txs, this`used, this`credit
      ensures View() == Apply(gate, old(View()), Mined(|old(txs)| - 1, valid))
    {
      var tx := txs[|txs| - 1];
      if valid && Key(tx.auth) !in used {
        txs := txs[|txs| - 1 := tx.(status := Succeeded)];
        used := used + {Key(tx.auth)};
        if tx.auth.to == gate.payTo {
          credit := credit + tx.auth.value;
        }
      } else {
        txs := txs[|txs| - 1 := tx.(status := Reverted)];
      }
    }

    /** A broadcast that was handed its hash, and the wait for its receipt. */
    method BroadcastAndWait(id: RequestId, n: Node) returns (txHash: Hash, ok: bool, ghost steps: seq<Step>)
      requires id in requests && requests[id].stage.Broadcasting?
      modifies this
      ensures Reached(gate, old(View()), steps, View())
      ensures var auth := old(requests)[id].stage.auth;
        var consumed := n.mined.InTime? && Key(auth) !in old(used);
        && txHash == |old(txs)|
        && ok == (consumed && n.receiptShown)
        && credit == old(credit) + (if consumed && auth.to == gate.payTo then auth.value else 0)
        && used == old(used) + (if consumed then {Key(auth)} else {})
        && txs == old(txs) + [Tx(auth, Here(id, Returned), StatusAfter(n, consumed))]
        && requests == old(requests)[id := old(requests)[id].(stage := if ok then Served(txHash) else SettlementFailed)]
    {
      ghost var start := View();
      var auth := requests[id].stage.auth;
      txHash := |txs|;
      txs := txs + [Tx(auth, Here(id, Returned), Pending)];
      MoveTo(id, Waiting(auth, txHash));
      ghost var waiting := View();
      if n.mined.NotYet? {
        MoveTo(id, SettlementFailed);
        TwoSteps(gate, start, Broadcast(id, Returned), waiting, Receipt(id, false), View());
        return txHash, false, [Broadcast(id, Returned), Receipt(id, false)];
      }
      Mine(n.mined.InTime?);
      ghost var mined := View();
      ok := n.receiptShown && txs[txHash].status.Succeeded?;
      MoveTo(id, if ok then Served(txHash) else SettlementFailed);
      steps := [Broadcast(id, Returned), Mined(txHash, n.mined.InTime?), Receipt(id, ok)];
      ThreeSteps(gate, start, steps[0], waiting, steps[1], mined, steps[2], View());
    }

    /** Simulate, broadcast, wait: the three-way outcome, as steps of the state machine, and whether a
        transaction that took the authorization or still can is left behind. */
    method Settle(id: RequestId, n: Node) returns (outcome: Outcome, ghost steps: seq<Step>)
      requires id in requests && requests[id].stage.Simulating?
      requires forall h: Hash :: !Of(View(), h, id)
      modifies this
      ensures Reached(gate, old(View()), steps, View())
      ensures var auth := old(requests)[id].stage.auth;
        && (outcome.Settled? <==> Consumes(old(View()), auth, n) && n.receiptShown)
        && (outcome.Rejected? <==> !n.simulates || (n.sent.Thrown? && n.sent.authState))
        && credit == old(credit) + (if Consumes(old(View()), auth, n) && auth.to == gate.payTo then auth.value else 0)
        && used == old(used) + (if Consumes(old(View()), auth, n) then {Key(auth)} else {})
        && (Chargeable(View(), id) <==> CanConsume(old(View()), auth, n))
      ensures id in requests && requests[id].stage == match outcome
        case Settled(h) => Served(h)
        case Rejected => PaymentRequired
        case Threw => SettlementFailed
    {
      ghost var start := View();
      var auth := requests[id].stage.auth;
      if !n.simulates {
        MoveTo(id, PaymentRequired);
        NoneChargeable(start, View(), id);
        return Rejected, [Simulated(id, false)];
      }
      MoveTo(id, Broadcasting(auth));
      steps := [Simulated(id, true)];
      ghost var simulated := View();
      if n.sent.Thrown? {
        if n.sent.leaked {
          txs := txs + [Tx(auth, Here(id, n.sent), Pending)];
        }
        MoveTo(id, if n.sent.authState then PaymentRequired else SettlementFailed);
        if n.sent.leaked {
          OneChargeable(start, View(), id);
        } else {
          NoneChargeable(start, View(), id);
        }
        steps := steps + [Broadcast(id, n.sent)];
        return if n.sent.authState then Rejected else Threw, steps;
      }
      var txHash, ok;
      ghost var rest;
      txHash, ok, rest := BroadcastAndWait(id, n);
      OneChargeable(start, View(), id);
      ReachedThrough(gate, start, steps, simulated, rest, View());
      return if ok then Settled(txHash) else Threw, steps + rest;
    }

    /** The whole hook. The handler runs exactly for a payment that verifies and settles; every other
        request is answered 402 or 502, and such an answer leaves the payer charged, or open to a charge,
        exactly when a transaction got out on an unused authorization and was not mined in vain. */
    method PreHandler(id: RequestId, a: Arrival, n: Node, reply: Reply) returns (ghost steps: seq<Step>)
      requires id !in requests && LedgerSound(gate, View()) && RequestsSound(gate, View())
      requires reply.status == None && reply.paymentResponse == None
      modifies this, reply
      ensures Reached(gate, old(View()), steps, View())
      ensures LedgerSound(gate, View()) && RequestsSound(gate, View())
      ensures var auth := Brought(gate, a);
        var consumes := auth.Some? && Consumes(old(View()), auth.value, n);
        && (reply.status == None <==> consumes && n.receiptShown)
        && (reply.status == Some(402) <==> auth.None? || !n.simulates || (n.sent.Thrown? && n.sent.authState))
        && (reply.status.None? || reply.status == Some(402) || reply.status == Some(502))
        && credit == old(credit) + (if consumes then auth.value.value else 0)
        && (reply.status.Some? ==>
              (MayBeCharged(gate, View(), id) <==> auth.Some? && CanConsume(old(View()), auth.value, n)))
      ensures reply.paymentResponse.Some? <==> reply.status == None
      ensures id in requests && (reply.status == None ==> requests[id].stage == Served(reply.paymentResponse.value))
    {
      ghost var start := View();
      UnknownHasNone(gate, start, id);
      if a.payment.None? {
        requests := requests[id := Request(a.price, None, PaymentRequired)];
        reply.status := Some(402);
        steps := [Arrives(id, a.price, None)];
        NoneChargeable(start, View(), id);
        AnsweredIsChargedIff(gate, View(), id);
        ReachedIsSound(gate, start, steps, View());
        return;
      }
      requests := requests[id := Request(a.price, a.payment, Verifying)];
      steps := [Arrives(id, a.price, a.payment)];
      ghost var arrived := View();
      var verdict := VerifyPayment(gate, a.payment.value, a.price, a.now, a.signer, a.used);
      ghost var verified := Verified(id, a.now, a.signer, a.used);
      MoveTo(id, if verdict.Ok? then Simulating(verdict.value) else PaymentRequired);
      TwoSteps(gate, start, steps[0], arrived, verified, View());
      steps := [steps[0], verified];
      if verdict.Err? {
        reply.status := Some(402);
        NoneChargeable(start, View(), id);
        AnsweredIsChargedIff(gate, View(), id);
        ReachedIsSound(gate, start, steps, View());
        return;
      }
      ghost var before := View();
      assert forall h: Hash :: Of(before, h, id) ==> Of(start, h, id);
      var outcome;
      ghost var rest;
      outcome, rest := Settle(id, n);
      ReachedThrough(gate, start, steps, before, rest, View());
      steps := steps + rest;
      ReachedIsSound(gate, start, steps, View());
      if !outcome.Settled? {
        AnsweredIsChargedIff(gate, View(), id);
      }
      match outcome
      case Threw => reply.status := Some(502);
      case Rejected => reply.status := Some(402);
      case Settled(txHash) => reply.paymentResponse := Some(txHash);
    }
  }

  lemma UnknownHasNone(gate: Gate, s: State, id: RequestId)
    requires RequestsSound(gate, s) && id !in s.requests
    ensures forall h: Hash :: !Of(s, h, id)
  {
    forall h: Hash
      ensures !Of(s, h, id)
    {
      assert h < |s.txs| ==> OriginSound(gate, s, h);
    }
  }

  lemma NoneChargeable(s: State, after: State, id: RequestId)
    requires after.txs == s.txs && forall h: Hash :: !Of(s, h, id)
    ensures !Chargeable(after, id)
  {
    assert forall h: Hash :: Of(after, h, id) ==> Of(s, h, id);
  }

  /** When the last transaction is the request's only one, it alone decides. */
  lemma OneChargeable(s: State, after: State, id: RequestId)
    requires |after.txs| == |s.txs| + 1 && after.txs[..|s.txs|] == s.txs && Of(after, |s.txs|, id)
    requires forall h: Hash :: !Of(s, h, id)
    ensures Chargeable(after, id) <==> CanCharge(after, |s.txs|)
  {
    forall h: Hash | Of(after, h, id)
      ensures h == |s.txs|
    {
      assert h < |s.txs| ==> after.txs[..|s.txs|][h] == after.txs[h] && Of(s, h, id);
    }
  }

  /** The authorization a request brings, if its payment verifies. */
  function Brought(gate: Gate, a: Arrival): Option<Authorization> {
    if a.payment.None? then None
    else match VerifyPayment(gate, a.payment.value, a.price, a.now, a.signer, a.used)
      case Ok(auth) => Some(auth)
      case Err(_) => None
  }

  lemma TwoSteps(gate: Gate, s: State, a: Step, s1: State, b: Step, s2: State)
    requires Enabled(s, a) && s1 == Apply(gate, s, a)
    requires Enabled(s1, b) && s2 == Apply(gate, s1, b)
    ensures Reached(gate, s, [a, b], s2)
  {
    assert [a, b][1..] == [b] && [b][1..] == [];
    assert Reached(gate, s1, [b], s2);
  }

  lemma ThreeSteps(gate: Gate, s: State, a: Step, s1: State, b: Step, s2: State, c: Step, s3: State)
    requires Enabled(s, a) && s1 == Apply(gate, s, a)
    requires Enabled(s1, b) && s2 == Apply(gate, s1, b)
    requires Enabled(s2, c) && s3 == Apply(gate, s2, c)
    ensures Reached(gate, s, [a, b, c], s3)
  {
    assert [a, b, c][1..] == [b, c] && [b, c][1..] == [c] && [c][1..] == [];
    assert Reached(gate, s2, [c], s3);
    assert Reached(gate, s1, [b, c], s3);
  }
}
