/** The treasury sweeper: one tick on one chain, and the log the sweepers of all chains share. */
module Sweeper {
  import opened Options

  // 200 USDC, with six decimals.
  const THRESHOLD_USDC: nat := 200_000_000
  const CADENCE_MS: nat := 7 * 24 * 60 * 60 * 1000
  const READ_FAILURE_ESCALATE_AFTER: nat := 3

  type ChainId = nat

  // An address is its number, so the case of its hexadecimal digits does not matter.
  type Address = nat

  const BASE_POOL_WALLET_ADDRESS: Address := 0x9324525D2Af0B0636F438B1A85f67F89AF821d74
  const SEPOLIA_TEST_POOL_WALLET_ADDRESS: Address := 0x9a1fCfCA9f5F396295e903CB64b561a1415a441f
  const KITE_POOL_WALLET_ADDRESS: Address := 0xb20634383Af7BBFD3592f763FE293b7387867fb8

  function PoolWalletFor(chain: ChainId): Option<Address> {
    if chain == 8453 then Some(BASE_POOL_WALLET_ADDRESS)
    else if chain == 84532 then Some(SEPOLIA_TEST_POOL_WALLET_ADDRESS)
    else if chain == 2366 then Some(KITE_POOL_WALLET_ADDRESS)
    else None
  }

  // ---------- the log ----------

  datatype Status = Ok | Failed | Skipped

  datatype Row = Row(chain: ChainId, status: Status, amount: Option<nat>, destination: Address, sweptAt: int)

  /** The latest successful sweep logged for the chain. */
  function LastSweep(log: seq<Row>, chain: ChainId): Option<int> {
    if log == [] then None
    else
      var row, rest := log[|log| - 1], LastSweep(log[..|log| - 1], chain);
      if !IsSweep(row, chain) then rest
      else if rest.Some? && rest.value > row.sweptAt then rest
      else Some(row.sweptAt)
  }

  predicate IsSweep(row: Row, chain: ChainId) {
    row.status.Ok? && row.chain == chain
  }

  /** It is None exactly when the chain has no successful sweep, and otherwise the time of one that
      none is later than. */
  lemma {:induction false} LastSweepIsLatest(log: seq<Row>, chain: ChainId)
    ensures var last := LastSweep(log, chain);
      && (last.None? <==> forall i :: 0 <= i < |log| ==> !IsSweep(log[i], chain))
      && (last.Some? ==> exists i :: 0 <= i < |log| && IsSweep(log[i], chain) && log[i].sweptAt == last.value)
      && (last.Some? ==> forall i :: 0 <= i < |log| && IsSweep(log[i], chain) ==> log[i].sweptAt <= last.value)
  {
    if log != [] {
      var front := log[..|log| - 1];
      LastSweepIsLatest(front, chain);
      assert forall i :: 0 <= i < |front| ==> log[i] == front[i];
    }
  }

  class SweepLog {
    var rows: seq<Row>

    constructor ()
      ensures rows == []
    {
      rows := [];
    }

    /** The insert of one row, which the caller lets fail silently. */
    method AppendSweepLog(row: Row, accepted: bool)
      modifies this
      ensures rows == old(rows) + if accepted then [row] else []
    {
      if accepted {
        rows := rows + [row];
      }
    }

    function GetLastSweepTimestamp(chain: ChainId): (last: Option<int>)
      reads this
      ensures last.None? <==> forall i :: 0 <= i < |rows| ==> !IsSweep(rows[i], chain)
      ensures last.Some? ==> forall i :: 0 <= i < |rows| && IsSweep(rows[i], chain) ==> rows[i].sweptAt <= last.value
    {
      LastSweepIsLatest(rows, chain);
      LastSweep(rows, chain)
    }
  }

  // ---------- what the outside answers ----------

  datatype Read = ReadFails | ReadOk(balance: nat)

  // NotOk may have spent USDC too: its swap can be mined before a later step fails.
  datatype Refuel = Idle | NotOk(spent: nat) | Refueled(usdcIn: nat, reread: Option<nat>)

  // Unknown: the transfer may have left, but no receipt was seen.
  datatype Broadcast = Refused(recoverable: bool) | Unknown(recoverable: bool) | Reverted | Confirmed

  // now is read when the tick starts, the transfer leaves at sentAt and the row's time is writtenAt.
  datatype Weather = Weather(read: Read, refuel: Refuel, broadcast: Broadcast, accepted: bool,
                             now: int, sentAt: int, writtenAt: int)

  datatype Page = ReadFailing(count: nat, critical: bool) | Recovered(count: nat) | Swept | SweepFailing(critical: bool)

  datatype Transfer = Transfer(to: Address, amount: nat, sentAt: int, logged: bool)

  // One chain's sweeper. agent is the agent's USDC, pool and elsewhere what its sweeps moved to the chain's
  // pool wallet and to any other receiver, refueled what went for gas; history says which reads worked and
  // pages what was paged, one entry a tick since the process started.
  datatype Desk = Desk(counted: bool, consecutive: nat,
                       agent: nat, pool: nat, elsewhere: nat, refueled: nat, received: nat,
                       unknown: seq<Transfer>, sent: seq<Transfer>,
                       history: seq<bool>, pages: seq<seq<Page>>)

  datatype Outcome = Sweeping | Skipping | Failing | Threw

  datatype Book = Book(log: seq<Row>, desk: Desk)

  // ---------- the decisions ----------

  predicate ShouldSweep(balance: nat, lastSweepAt: Option<int>, now: int) {
    || balance >= THRESHOLD_USDC
    || (now - (if lastSweepAt.Some? then lastSweepAt.value else 0) >= CADENCE_MS && balance > 0)
  }

  /** The balance the sweep decision sees. */
  function Decisive(w: Weather): nat
    requires w.read.ReadOk?
  {
    match w.refuel
    case Refueled(_, Some(reread)) => reread
    case Refueled(usdcIn, None) => if w.read.balance < usdcIn then 0 else w.read.balance - usdcIn
    case _ => w.read.balance
  }

  function SpentOnGas(refuel: Refuel): nat {
    match refuel
    case Idle => 0
    case NotOk(spent) => spent
    case Refueled(usdcIn, _) => usdcIn
  }

  /** USDC leaves a wallet only as far as it is there, and clocks do not run backwards within a tick. */
  predicate Possible(desk: Desk, w: Weather) {
    && SpentOnGas(w.refuel) <= desk.agent
    && (w.read.ReadOk? && w.broadcast.Confirmed? ==> SpentOnGas(w.refuel) + Decisive(w) <= desk.agent)
    && w.now <= w.sentAt <= w.writtenAt
  }

  // ---------- the effects ----------

  function Moved(desk: Desk, chain: ChainId, to: Address, amount: nat): Desk
    requires amount <= desk.agent
  {
    if PoolWalletFor(chain) == Some(to)
    then desk.(agent := desk.agent - amount, pool := desk.pool + amount)
    else desk.(agent := desk.agent - amount, elsewhere := desk.elsewhere + amount)
  }

  function Paged(desk: Desk, pages: seq<Page>): Desk {
    desk.(pages := desk.pages + [pages])
  }

  function UnreadPages(desk: Desk): seq<Page> {
    if desk.counted
    then [ReadFailing(desk.consecutive + 1, desk.consecutive + 1 >= READ_FAILURE_ESCALATE_AFTER)]
    else [ReadFailing(1, true)]
  }

  function RecoveryPages(desk: Desk): seq<Page> {
    if desk.counted && desk.consecutive >= READ_FAILURE_ESCALATE_AFTER then [Recovered(desk.consecutive)] else []
  }

  function AfterUnread(desk: Desk): Desk {
    var count := if desk.counted then desk.consecutive + 1 else desk.consecutive;
    desk.(consecutive := count, history := desk.history + [false])
  }

  function AfterRead(desk: Desk): Desk {
    desk.(consecutive := if desk.counted then 0 else desk.consecutive, history := desk.history + [true])
  }

  function AfterRefuel(desk: Desk, refuel: Refuel): Desk
    requires SpentOnGas(refuel) <= desk.agent
  {
    var spent := SpentOnGas(refuel);
    desk.(agent := desk.agent - spent, refueled := desk.refueled + spent)
  }

  function AfterBroadcast(desk: Desk, chain: ChainId, to: Address, amount: nat, w: Weather): Desk
    requires w.broadcast.Confirmed? ==> amount <= desk.agent
  {
    match w.broadcast
    case Refused(_) => desk
    case Reverted => desk
    case Unknown(_) =>
      var t := Transfer(to, amount, w.sentAt, false);
      desk.(unknown := desk.unknown + [t], sent := desk.sent + [t])
    case Confirmed =>
      Moved(desk, chain, to, amount).(sent := desk.sent + [Transfer(to, amount, w.sentAt, w.accepted)])
  }

  function SweepPages(broadcast: Broadcast): seq<Page> {
    match broadcast
    case Refused(recoverable) => [SweepFailing(!recoverable)]
    case Unknown(recoverable) => [SweepFailing(!recoverable)]
    case Reverted => [SweepFailing(true)]
    case Confirmed => [Swept]
  }

  function Logging(log: seq<Row>, w: Weather, chain: ChainId, status: Status, amount: Option<nat>): seq<Row>
    requires PoolWalletFor(chain).Some?
  {
    log + if w.accepted then [Row(chain, status, amount, PoolWalletFor(chain).value, w.writtenAt)] else []
  }

  /** One tick as a change of the log and the desk. */
  function Ticked(chain: ChainId, book: Book, w: Weather): (Book, Outcome)
    requires Possible(book.desk, w)
  {
    if PoolWalletFor(chain).None? then (book, Threw)
    else if w.read.ReadFails? then
      (Book(Logging(book.log, w, chain, Failed, None), Paged(AfterUnread(book.desk), UnreadPages(book.desk))), Failing)
    else
      var desk := AfterRefuel(AfterRead(book.desk), w.refuel);
      var recovery := RecoveryPages(book.desk);
      var amount := Decisive(w);
      if !ShouldSweep(amount, LastSweep(book.log, chain), w.now) then
        (Book(Logging(book.log, w, chain, Skipped, Some(amount)), Paged(desk, recovery)), Skipping)
      else
        var status := if w.broadcast.Confirmed? then Status.Ok else Failed;
        var swept := AfterBroadcast(desk, chain, PoolWalletFor(chain).value, amount, w);
        (Book(Logging(book.log, w, chain, status, Some(amount)), Paged(swept, recovery + SweepPages(w.broadcast))),
         if w.broadcast.Confirmed? then Sweeping else Failing)
  }

  /** One chain's sweeper. The USDC balances of the chain are kept in its desk. */
  class Sweeper {
    const chainId: ChainId
    const log: SweepLog
    var desk: Desk

    constructor (chainId: ChainId, log: SweepLog, desk: Desk)
      ensures this.chainId == chainId && this.log == log && this.desk == desk
    {
      this.chainId := chainId;
      this.log := log;
      this.desk := desk;
    }

    /** Broadcasts a transfer only to the chain's own pool wallet. */
    method ExecuteSweep(destination: Address, amount: nat, w: Weather) returns (confirmed: bool)
      requires w.broadcast.Confirmed? ==> amount <= desk.agent
      modifies this`desk
      ensures PoolWalletFor(chainId) != Some(destination) ==> !confirmed && desk == old(desk)
      ensures PoolWalletFor(chainId) == Some(destination) ==>
        && confirmed == w.broadcast.Confirmed?
        && desk == AfterBroadcast(old(desk), chainId, destination, amount, w)
    {
      if PoolWalletFor(chainId) != Some(destination) {
        return false;
      }
      desk := AfterBroadcast(desk, chainId, destination, amount, w);
      confirmed := w.broadcast.Confirmed?;
    }

    method RunTick(w: Weather) returns (outcome: Outcome)
      requires Possible(desk, w)
      modifies this`desk, log
      ensures (Book(log.rows, desk), outcome) == Ticked(chainId, old(Book(log.rows, desk)), w)
    {
      var pool := PoolWalletFor(chainId);
      if pool.None? {
        return Threw;
      }
      var destination := pool.value;
      var lastSweepAt := log.GetLastSweepTimestamp(chainId);
      if w.read.ReadFails? {
        log.AppendSweepLog(Row(chainId, Failed, None, destination, w.writtenAt), w.accepted);
        var pages := UnreadPages(desk);
        desk := AfterUnread(desk);
        desk := Paged(desk, pages);
        return Failing;
      }
      var pages := RecoveryPages(desk);
      desk := AfterRead(desk);
      var balance := w.read.balance;
      if w.refuel.Refueled? {
        if w.refuel.reread.Some? {
          balance := w.refuel.reread.value;
        } else {
          balance := if balance < w.refuel.usdcIn then 0 else balance - w.refuel.usdcIn;
        }
      }
      desk := AfterRefuel(desk, w.refuel);
      if !ShouldSweep(balance, lastSweepAt, w.now) {
        log.AppendSweepLog(Row(chainId, Skipped, Some(balance), destination, w.writtenAt), w.accepted);
        desk := Paged(desk, pages);
        return Skipping;
      }
      var confirmed := ExecuteSweep(destination, balance, w);
      var status := if confirmed then Status.Ok else Failed;
      log.AppendSweepLog(Row(chainId, status, Some(balance), destination, w.writtenAt), w.accepted);
      desk := Paged(desk, pages + SweepPages(w.broadcast));
      outcome := if confirmed then Sweeping else Failing;
    }
  }
}
