/** The checks a decoded payment passes before anything is settled. */
module X402Verify {
  import opened Options

  type Address = string

  datatype Authorization = Authorization(
    sender: Address, to: Address, value: nat, validAfter: int, validBefore: int, nonce: string)

  // The three amounts arrive as text; None is text that is no integer.
  datatype Payment = Payment(
    network: string, sender: Address, to: Address,
    value: Option<int>, validAfter: Option<int>, validBefore: Option<int>, nonce: string)

  /** The authorization is, field by field, the one the payment was signed for. */
  predicate Signed(p: Payment, auth: Authorization) {
    && auth.sender == p.sender && auth.to == p.to && auth.nonce == p.nonce
    && p.value == Some(auth.value as int)
    && p.validAfter == Some(auth.validAfter) && p.validBefore == Some(auth.validBefore)
  }

  datatype Gate = Gate(network: string, payTo: Address)

  datatype Reason =
    | NetworkMismatch | NonIntegerFields | PayToMismatch | Underpayment | NotYetValid | Expired
    | RecoveryFailed | WrongSigner | StateUnreadable | NonceUsed

  /** `signer` is the recovered signer and `used` the nonce's state as read from a node; either
      lookup can fail (None), and the node may answer from an old block. */
  function VerifyPayment(gate: Gate, p: Payment, price: nat, now: int, signer: Option<Address>, used: Option<bool>)
    : (r: Result<Authorization, Reason>)
    ensures r.Ok? <==>
      && p.network == gate.network
      && p.value.Some? && p.validAfter.Some? && p.validBefore.Some?
      && p.to == gate.payTo && price <= p.value.value
      && p.validAfter.value <= now < p.validBefore.value
      && signer == Some(p.sender) && used == Some(false)
    ensures r.Ok? ==> Signed(p, r.value) && r.value.to == gate.payTo && price <= r.value.value
    ensures r.Ok? ==> r.value.validAfter <= now < r.value.validBefore
  {
    if p.network != gate.network then Err(NetworkMismatch)
    else if p.value.None? || p.validAfter.None? || p.validBefore.None? then Err(NonIntegerFields)
    else if p.to != gate.payTo then Err(PayToMismatch)
    else if p.value.value < price then Err(Underpayment)
    else if now < p.validAfter.value then Err(NotYetValid)
    else if now >= p.validBefore.value then Err(Expired)
    else match signer
      case None => Err(RecoveryFailed)
      case Some(recovered) =>
        if recovered != p.sender then Err(WrongSigner)
        else match used
          case None => Err(StateUnreadable)
          case Some(true) => Err(NonceUsed)
          case Some(false) =>
            Ok(Authorization(p.sender, p.to, p.value.value, p.validAfter.value, p.validBefore.value, p.nonce))
  }

  /** What is wrong with the payment when `reason` is given. */
  predicate Wrong(gate: Gate, p: Payment, price: nat, now: int, signer: Option<Address>, used: Option<bool>,
                  reason: Reason) {
    match reason
    case NetworkMismatch => p.network != gate.network
    case NonIntegerFields => p.value.None? || p.validAfter.None? || p.validBefore.None?
    case PayToMismatch => p.to != gate.payTo
    case Underpayment => p.value.Some? && p.value.value < price
    case NotYetValid => p.validAfter.Some? && now < p.validAfter.value
    case Expired => p.validBefore.Some? && p.validBefore.value <= now
    case RecoveryFailed => signer.None?
    case WrongSigner => signer.Some? && signer.value != p.sender
    case StateUnreadable => used.None?
    case NonceUsed => used == Some(true)
  }

  /** The place of a fault in the order of the checks. */
  function Place(reason: Reason): nat {
    match reason
    case NetworkMismatch => 0
    case NonIntegerFields => 1
    case PayToMismatch => 2
    case Underpayment => 3
    case NotYetValid => 4
    case Expired => 5
    case RecoveryFailed => 6
    case WrongSigner => 7
    case StateUnreadable => 8
    case NonceUsed => 9
  }

  /** A refusal gives the reason that is the case, and of several the first in the order of the checks. */
  lemma RefusalNamesTheFirstFault(gate: Gate, p: Payment, price: nat, now: int, signer: Option<Address>,
                                  used: Option<bool>, reason: Reason)
    ensures VerifyPayment(gate, p, price, now, signer, used) == Err(reason) <==>
      && Wrong(gate, p, price, now, signer, used, reason)
      && forall e: Reason :: Place(e) < Place(reason) ==> !Wrong(gate, p, price, now, signer, used, e)
  {
    var r := VerifyPayment(gate, p, price, now, signer, used);
    if r.Err? {
      assert Wrong(gate, p, price, now, signer, used, r.error);
      assert forall e: Reason :: Place(e) < Place(r.error) ==> !Wrong(gate, p, price, now, signer, used, e);
      assert Place(reason) == Place(r.error) ==> reason == r.error;
    }
  }
}
