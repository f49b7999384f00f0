/** What an answer other than service says about the payer's money: which transactions an answered
    request has, and exactly when one of them charged the payer or still can. */
module X402Charges {
  import opened X402Verify
  import opened X402Gate
  import opened Options

  // ---------- every transaction has the request that broadcast it ----------

  predicate GotOut(sent: Sent) {
    sent.Returned? || sent.leaked
  }

  ghost predicate Recorded(s: State, id: RequestId, sent: Sent) {
    exists h :: 0 <= h < |s.txs| && s.txs[h].origin == Here(id, sent)
  }

  lemma StepRecords(gate: Gate, s: State, step: Step, id: RequestId, sent: Sent)
    requires Enabled(s, step)
    ensures Recorded(Apply(gate, s, step), id, sent) <==>
      Recorded(s, id, sent) || (GotOut(sent) && step == Broadcast(id, sent))
  {
    var after := Apply(gate, s, step);
    StepExtends(gate, s, step);
    if h :| 0 <= h < |s.txs| && s.txs[h].origin == Here(id, sent) {
      assert after.txs[h].origin == Here(id, sent);
    }
    if GotOut(sent) && step == Broadcast(id, sent) {
      assert after.txs[|s.txs|].origin == Here(id, sent);
    }
    if h :| 0 <= h < |after.txs| && after.txs[h].origin == Here(id, sent) {
      assert h < |s.txs| ==> s.txs[h].origin == Here(id, sent);
    }
  }

  /** In every run the transactions of a request are those its broadcasts let out - also where the call
      threw. */
  lemma {:induction false} BroadcastsAreRecorded(gate: Gate, states: seq<State>, steps: seq<Step>, n: nat,
                                                 id: RequestId, sent: Sent)
    requires Run(gate, states, steps) && n < |states|
    ensures Recorded(states[n], id, sent) <==> GotOut(sent) && Broadcast(id, sent) in steps[..n]
  {
    if n > 0 {
      BroadcastsAreRecorded(gate, states, steps, n - 1, id, sent);
      StepRecords(gate, states[n - 1], steps[n - 1], id, sent);
      assert steps[..n] == steps[..n - 1] + [steps[n - 1]];
    }
  }

  /** In every run a request with a transaction of its own has no other, and waits for it, was served with
      it, or was told that the settlement failed; the one exception is a broadcast that got out although the
      node's error blamed the authorization: then it was told to pay. */
  lemma BroadcastersAreAccountedFor(gate: Gate, states: seq<State>, steps: seq<Step>, n: nat, h: Hash, id: RequestId)
    requires Run(gate, states, steps) && n < |states| && Of(states[n], h, id)
    ensures id in states[n].requests
    ensures var stage := states[n].requests[id].stage;
      if states[n].txs[h].origin.sent == Thrown(true, true) then stage.PaymentRequired?
      else stage.SettlementFailed? || stage == Served(h) || (stage.Waiting? && stage.txHash == h)
    ensures forall k: Hash :: Of(states[n], k, id) ==> k == h
    ensures Covers(gate, states[n].txs[h].auth, states[n].requests[id])
  {
    RunIsSound(gate, states, steps, n);
    assert OriginSound(gate, states[n], h);
  }

  /** In every run a request keeps the price and the payment it arrived with. */
  lemma {:induction false} RequestsKeepTheirPayment(gate: Gate, states: seq<State>, steps: seq<Step>, n: nat,
                                                    id: RequestId)
    requires Run(gate, states, steps) && n < |states| && id in states[n].requests
    ensures var r := states[n].requests[id]; Arrives(id, r.price, r.payment) in steps[..n]
  {
    assert n > 0;
    var before := states[n - 1];
    assert steps[..n] == steps[..n - 1] + [steps[n - 1]];
    if id in before.requests {
      RequestsKeepTheirPayment(gate, states, steps, n - 1, id);
      StepKeepsPayment(gate, before, steps[n - 1], id);
    }
  }

  lemma StepKeepsPayment(gate: Gate, s: State, step: Step, id: RequestId)
    requires Enabled(s, step) && id in s.requests
    ensures var after := Apply(gate, s, step);
      && id in after.requests && after.requests[id].payment == s.requests[id].payment
      && after.requests[id].price == s.requests[id].price
  {
  }

  ghost predicate HasTx(s: State, id: RequestId) {
    exists h: Hash :: Of(s, h, id)
  }

  /** In every run a request answered 402 has a transaction that could charge the payer exactly when its
      broadcast got out although the error blamed the authorization. */
  lemma RefusedRequestsOwnNothingIff(gate: Gate, states: seq<State>, steps: seq<Step>, n: nat, id: RequestId)
    requires Run(gate, states, steps) && n < |states|
    requires id in states[n].requests && states[n].requests[id].stage.PaymentRequired?
    ensures HasTx(states[n], id) <==> Broadcast(id, Thrown(true, true)) in steps[..n]
  {
    BroadcastsAreRecorded(gate, states, steps, n, id, Thrown(true, true));
    if h: Hash :| Of(states[n], h, id) {
      BroadcastersAreAccountedFor(gate, states, steps, n, h, id);
      assert Recorded(states[n], id, Thrown(true, true));
    }
    if Recorded(states[n], id, Thrown(true, true)) {
      var h :| 0 <= h < |states[n].txs| && states[n].txs[h].origin == Here(id, Thrown(true, true));
      assert Of(states[n], h, id);
    }
  }

  /** Likewise a request answered 502 has one exactly when its broadcast returned, or threw another error
      after getting out. */
  lemma FailedRequestsOwnNothingIff(gate: Gate, states: seq<State>, steps: seq<Step>, n: nat, id: RequestId)
    requires Run(gate, states, steps) && n < |states|
    requires id in states[n].requests && states[n].requests[id].stage.SettlementFailed?
    ensures HasTx(states[n], id) <==>
      Broadcast(id, Returned) in steps[..n] || Broadcast(id, Thrown(false, true)) in steps[..n]
  {
    BroadcastsAreRecorded(gate, states, steps, n, id, Returned);
    BroadcastsAreRecorded(gate, states, steps, n, id, Thrown(false, true));
    if h: Hash :| Of(states[n], h, id) {
      RunIsSound(gate, states, steps, n);
      assert OriginSound(gate, states[n], h);
      var sent := states[n].txs[h].origin.sent;
      assert Recorded(states[n], id, sent);
    }
    if sent :| (sent == Returned || sent == Thrown(false, true)) && Recorded(states[n], id, sent) {
      var h :| 0 <= h < |states[n].txs| && states[n].txs[h].origin == Here(id, sent);
      assert Of(states[n], h, id);
    }
  }

  // ---------- charged, and chargeable ----------

  predicate Answered(s: State, id: RequestId) {
    id in s.requests && (s.requests[id].stage.PaymentRequired? || s.requests[id].stage.SettlementFailed?)
  }

  /** The request's own transaction took the payer's authorization. */
  ghost predicate Charged(s: State, id: RequestId) {
    exists h: Hash :: Of(s, h, id) && s.txs[h].status.Succeeded?
  }

  predicate CanCharge(s: State, h: Hash)
    requires h < |s.txs|
  {
    s.txs[h].status.Succeeded? || (s.txs[h].status.Pending? && Key(s.txs[h].auth) !in s.used)
  }

  /** The request has a transaction that succeeded, or that is pending on an unused authorization. */
  ghost predicate Chargeable(s: State, id: RequestId) {
    exists h: Hash :: Of(s, h, id) && CanCharge(s, h)
  }

  /** Some course of events, of whatever steps, ends with the payer charged. */
  ghost predicate MayBeCharged(gate: Gate, s: State, id: RequestId) {
    exists steps, after :: Reached(gate, s, steps, after) && Charged(after, id)
  }

  /** An answer is final, and no step makes an answered request chargeable. */
  lemma StepKeepsUncharged(gate: Gate, s: State, step: Step, id: RequestId)
    requires Answered(s, id) && Enabled(s, step)
    ensures Answered(Apply(gate, s, step), id)
    ensures Chargeable(Apply(gate, s, step), id) ==> Chargeable(s, id)
  {
    var after := Apply(gate, s, step);
    if h: Hash :| Of(after, h, id) && CanCharge(after, h) {
      assert Of(s, h, id) && CanCharge(s, h);
    }
  }

  lemma {:induction false} ReachedKeepsUncharged(gate: Gate, s: State, steps: seq<Step>, after: State, id: RequestId)
    requires Answered(s, id) && Reached(gate, s, steps, after)
    ensures Answered(after, id)
    ensures Charged(after, id) ==> Chargeable(s, id)
    decreases |steps|
  {
    if steps == [] {
      if h: Hash :| Of(s, h, id) && s.txs[h].status.Succeeded? {
        assert CanCharge(s, h);
      }
    } else {
      StepKeepsUncharged(gate, s, steps[0], id);
      ReachedKeepsUncharged(gate, Apply(gate, s, steps[0]), steps[1..], after, id);
    }
  }

  // The ledger has no clock: a pending transaction whose time window has closed still counts here, since
  // whether it is valid when it is mined is left open.

  /** A request answered 402 or 502 is charged, now or by anything that can still happen, exactly when its
      own transaction succeeded or is pending on an authorization not yet used. */
  lemma AnsweredIsChargedIff(gate: Gate, s: State, id: RequestId)
    requires Answered(s, id)
    ensures MayBeCharged(gate, s, id) <==> Chargeable(s, id)
  {
    if steps, after :| Reached(gate, s, steps, after) && Charged(after, id) {
      ReachedKeepsUncharged(gate, s, steps, after, id);
    }
    if h: Hash :| Of(s, h, id) && CanCharge(s, h) {
      if s.txs[h].status.Succeeded? {
        assert Charged(s, id);
        assert Reached(gate, s, [], s);
      } else {
        var mined := Apply(gate, s, Mined(h, true));
        assert Of(mined, h, id) && Charged(mined, id);
        assert [Mined(h, true)][1..] == [];
        assert Reached(gate, s, [Mined(h, true)], mined);
      }
    }
  }

  /** So an answered request none of whose broadcasts got out is never charged by them. */
  lemma UnsentIsNeverCharged(gate: Gate, states: seq<State>, steps: seq<Step>, n: nat, id: RequestId)
    requires Run(gate, states, steps) && n < |states| && Answered(states[n], id)
    requires forall sent :: GotOut(sent) ==> Broadcast(id, sent) !in steps[..n]
    ensures !MayBeCharged(gate, states[n], id)
  {
    AnsweredIsChargedIff(gate, states[n], id);
    if h: Hash :| Of(states[n], h, id) {
      BroadcastsAreRecorded(gate, states, steps, n, id, states[n].txs[h].origin.sent);
    }
  }

  /** The mining step that charges a request credits the gate's address with the one authorization of
      that request, which covers its price. */
  lemma ChargeIsItsOwnPayment(gate: Gate, s: State, step: Step, id: RequestId, h: Hash)
    requires LedgerSound(gate, s) && RequestsSound(gate, s) && Enabled(s, step)
    requires Of(s, h, id) && !Charged(s, id) && Charged(Apply(gate, s, step), id)
    ensures step == Mined(h, true)
    ensures id in s.requests && Covers(gate, s.txs[h].auth, s.requests[id])
    ensures Apply(gate, s, step).credit == s.credit + s.txs[h].auth.value
  {
    var after := Apply(gate, s, step);
    StepKeepsRequests(gate, s, step);
    StepExtends(gate, s, step);
    var k: Hash :| Of(after, k, id) && after.txs[k].status.Succeeded?;
    assert Of(after, h, id) && k == h;
    assert OriginSound(gate, s, h);
    assert !s.txs[h].status.Succeeded?;
  }

  // ---------- an authorization that others present too ----------

  ghost predicate SucceededWith(s: State, key: (Address, string)) {
    exists h :: 0 <= h < |s.txs| && s.txs[h].status.Succeeded? && Key(s.txs[h].auth) == key
  }

  /** Only a transaction that succeeds uses an authorization up. */
  ghost predicate UsedBySuccess(s: State) {
    forall key :: key in s.used ==> SucceededWith(s, key)
  }

  lemma StepKeepsUsedBySuccess(gate: Gate, s: State, step: Step)
    requires UsedBySuccess(s) && Enabled(s, step)
    ensures UsedBySuccess(Apply(gate, s, step))
  {
    var after := Apply(gate, s, step);
    StepExtends(gate, s, step);
    forall key | key in after.used
      ensures SucceededWith(after, key)
    {
      if key in s.used {
        var h :| 0 <= h < |s.txs| && s.txs[h].status.Succeeded? && Key(s.txs[h].auth) == key;
        assert after.txs[h].status.Succeeded? && Key(after.txs[h].auth) == key;
      } else {
        assert after.txs[step.txHash].status.Succeeded? && Key(after.txs[step.txHash].auth) == key;
      }
    }
  }

  lemma {:induction false} RunUsesBySuccess(gate: Gate, states: seq<State>, steps: seq<Step>, n: nat)
    requires Run(gate, states, steps) && n < |states|
    ensures UsedBySuccess(states[n])
  {
    if n > 0 {
      RunUsesBySuccess(gate, states, steps, n - 1);
      StepKeepsUsedBySuccess(gate, states[n - 1], steps[n - 1]);
    }
  }

  ghost predicate TakenByOther(s: State, h: Hash)
    requires h < |s.txs|
  {
    exists k :: 0 <= k < |s.txs| && k != h && s.txs[k].status.Succeeded? && Key(s.txs[k].auth) == Key(s.txs[h].auth)
  }

  /** In every run the authorization of a request's transaction is consumed exactly when that transaction
      succeeded, and the request is then charged, or another one with the same payer and nonce did, and
      the request then never is. */
  lemma ConsumedIff(gate: Gate, states: seq<State>, steps: seq<Step>, n: nat, h: Hash, id: RequestId)
    requires Run(gate, states, steps) && n < |states| && Of(states[n], h, id)
    ensures var s := states[n];
      && (Key(s.txs[h].auth) in s.used <==> Charged(s, id) || TakenByOther(s, h))
      && (TakenByOther(s, h) ==> !Charged(s, id) && !Chargeable(s, id))
  {
    var s := states[n];
    RunIsSound(gate, states, steps, n);
    RunUsesBySuccess(gate, states, steps, n);
    if Key(s.txs[h].auth) in s.used {
      var k :| 0 <= k < |s.txs| && s.txs[k].status.Succeeded? && Key(s.txs[k].auth) == Key(s.txs[h].auth);
      assert k == h ==> Charged(s, id);
    }
    assert forall k: Hash :: Of(s, k, id) ==> k == h;
    if TakenByOther(s, h) {
      var k :| 0 <= k < |s.txs| && k != h && s.txs[k].status.Succeeded? && Key(s.txs[k].auth) == Key(s.txs[h].auth);
      assert k < h || h < k;
    }
  }

  // ---------- such answers occur ----------

  /** A settlement reported as failed may still have charged the buyer: for every payment the gate
      accepts there is a run ending in a 502 in which the authorization is consumed and credited. */
  lemma FailedSettlementMayCharge(gate: Gate, payment: Payment, price: nat, now: int)
    returns (states: seq<State>, steps: seq<Step>)
    requires VerifyPayment(gate, payment, price, now, Some(payment.sender), Some(false)).Ok?
    ensures Run(gate, states, steps)
    ensures var s := states[|steps|];
      && 0 in s.requests && s.requests[0].stage.SettlementFailed?
      && (payment.sender, payment.nonce) in s.used && s.credit == payment.value.value
  {
    var signer, unused := Some(payment.sender), Some(false);
    var auth := VerifyPayment(gate, payment, price, now, signer, unused).value;
    var s0 := State([], {}, 0, map[]);
    var s1 := Apply(gate, s0, Arrives(0, price, Some(payment)));
    var s2 := Apply(gate, s1, Verified(0, now, signer, unused));
    var s3 := Apply(gate, s2, Simulated(0, true));
    var s4 := Apply(gate, s3, Broadcast(0, Returned));
    var s5 := Apply(gate, s4, Mined(0, true));
    var s6 := Apply(gate, s5, Receipt(0, false));
    states := [s0, s1, s2, s3, s4, s5, s6];
    steps := [Arrives(0, price, Some(payment)), Verified(0, now, signer, unused), Simulated(0, true),
              Broadcast(0, Returned), Mined(0, true), Receipt(0, false)];
  }

  /** So may a 402: when the broadcast got out although the error blamed the authorization. */
  lemma RefusedPaymentMayCharge(gate: Gate, payment: Payment, price: nat, now: int)
    returns (states: seq<State>, steps: seq<Step>)
    requires VerifyPayment(gate, payment, price, now, Some(payment.sender), Some(false)).Ok?
    ensures Run(gate, states, steps)
    ensures var s := states[|steps|];
      && 0 in s.requests && s.requests[0].stage.PaymentRequired?
      && (payment.sender, payment.nonce) in s.used && s.credit == payment.value.value
  {
    var signer, unused, sent := Some(payment.sender), Some(false), Thrown(true, true);
    var s0 := State([], {}, 0, map[]);
    var s1 := Apply(gate, s0, Arrives(0, price, Some(payment)));
    var s2 := Apply(gate, s1, Verified(0, now, signer, unused));
    var s3 := Apply(gate, s2, Simulated(0, true));
    var s4 := Apply(gate, s3, Broadcast(0, sent));
    var s5 := Apply(gate, s4, Mined(0, true));
    states := [s0, s1, s2, s3, s4, s5];
    steps := [Arrives(0, price, Some(payment)), Verified(0, now, signer, unused), Simulated(0, true),
              Broadcast(0, sent), Mined(0, true)];
  }

  /** Two requests with one payment: both are broadcast, the first is served, and the second is answered 502
      with its authorization consumed - by the first, so that it is not charged and cannot be any more. */
  lemma SharedPaymentIsConsumedOnce(gate: Gate, payment: Payment, price: nat, now: int)
    returns (states: seq<State>, steps: seq<Step>)
    requires VerifyPayment(gate, payment, price, now, Some(payment.sender), Some(false)).Ok?
    ensures Run(gate, states, steps)
    ensures var s := states[|steps|];
      && s.requests.Keys == {0, 1} && s.requests[0].stage.Served? && s.requests[1].stage.SettlementFailed?
      && (payment.sender, payment.nonce) in s.used && s.credit == payment.value.value
      && HasTx(s, 1) && !MayBeCharged(gate, s, 1)
  {
    var signer, unused := Some(payment.sender), Some(false);
    var auth := VerifyPayment(gate, payment, price, now, signer, unused).value;
    states, steps := [State([], {}, 0, map[])], [];
    states, steps := ReachesBroadcast(gate, states, steps, 0, payment, price, now);
    states, steps := ReachesBroadcast(gate, states, steps, 1, payment, price, now);
    states, steps := Continue(gate, states, steps, Mined(0, true));
    states, steps := Continue(gate, states, steps, Receipt(0, true));
    states, steps := Continue(gate, states, steps, Mined(1, true));
    states, steps := Continue(gate, states, steps, Receipt(1, false));
    var s := states[|steps|];
    assert s.txs == [Tx(auth, Here(0, Returned), Succeeded), Tx(auth, Here(1, Returned), Reverted)];
    assert Of(s, 1, 1);
    ConsumedIff(gate, states, steps, |steps|, 1, 1);
    assert s.txs[0].status.Succeeded? && Key(s.txs[0].auth) == Key(s.txs[1].auth);
    AnsweredIsChargedIff(gate, s, 1);
  }

  lemma Continue(gate: Gate, states: seq<State>, steps: seq<Step>, step: Step)
    returns (more: seq<State>, done: seq<Step>)
    requires Run(gate, states, steps) && Enabled(states[|steps|], step)
    ensures Run(gate, more, done) && |done| == |steps| + 1
    ensures more[|done|] == Apply(gate, states[|steps|], step)
  {
    more, done := states + [Apply(gate, states[|steps|], step)], steps + [step];
    forall i | 0 <= i < |done|
      ensures Enabled(more[i], done[i]) && more[i + 1] == Apply(gate, more[i], done[i])
    {
      if i < |steps| {
        assert more[i] == states[i] && more[i + 1] == states[i + 1] && done[i] == steps[i];
      }
    }
  }

  lemma ReachesBroadcast(gate: Gate, states: seq<State>, steps: seq<Step>, id: RequestId, payment: Payment,
                         price: nat, now: int)
    returns (more: seq<State>, done: seq<Step>)
    requires VerifyPayment(gate, payment, price, now, Some(payment.sender), Some(false)).Ok?
    requires Run(gate, states, steps) && id !in states[|steps|].requests
    ensures Run(gate, more, done)
    ensures var auth := VerifyPayment(gate, payment, price, now, Some(payment.sender), Some(false)).value;
      var s := states[|steps|];
      more[|done|] == s.(requests := s.requests[id := Request(price, Some(payment), Waiting(auth, |s.txs|))],
                         txs := s.txs + [Tx(auth, Here(id, Returned), Pending)])
  {
    more, done := Continue(gate, states, steps, Arrives(id, price, Some(payment)));
    more, done := Continue(gate, more, done, Verified(id, now, Some(payment.sender), Some(false)));
    more, done := Continue(gate, more, done, Simulated(id, true));
    more, done := Continue(gate, more, done, Broadcast(id, Returned));
  }
}
