/** What any run of the sweepers keeps, on one chain and on several sharing the log. */
module SweeperRuns {
  import opened Sweeper
  import opened Options

  // ---------- runs ----------

  // Lands: the outcome of a transfer that left without a receipt becomes known to the chain.
  datatype Action = Tick(w: Weather) | Lands(k: nat, mined: bool) | Deposit(amount: nat) | Restart

  predicate Enabled(desk: Desk, a: Action) {
    match a
    case Tick(w) => Possible(desk, w)
    case Lands(k, mined) => k < |desk.unknown| && (mined ==> desk.unknown[k].amount <= desk.agent)
    case Deposit(_) => true
    case Restart => true
  }

  function Step(chain: ChainId, book: Book, a: Action): Book
    requires Enabled(book.desk, a)
  {
    var desk := book.desk;
    match a
    case Tick(w) => Ticked(chain, book, w).0
    case Lands(k, mined) =>
      var t := desk.unknown[k];
      var known := desk.(unknown := desk.unknown[..k] + desk.unknown[k + 1..]);
      book.(desk := if mined then Moved(known, chain, t.to, t.amount) else known)
    case Deposit(amount) => book.(desk := desk.(agent := desk.agent + amount, received := desk.received + amount))
    case Restart => book.(desk := desk.(consecutive := 0, history := [], pages := []))
  }

  function TrailingFailures(history: seq<bool>): nat {
    if history == [] || history[|history| - 1] then 0 else 1 + TrailingFailures(history[..|history| - 1])
  }

  /** The USDC the agent ever received is in its wallet, in the pool wallet, or was spent on gas. */
  predicate Conserved(chain: ChainId, desk: Desk) {
    && desk.agent + desk.pool + desk.refueled == desk.received
    && desk.elsewhere == 0
    && (forall i :: 0 <= i < |desk.unknown| ==> PoolWalletFor(chain) == Some(desk.unknown[i].to))
    && (forall i :: 0 <= i < |desk.sent| ==> PoolWalletFor(chain) == Some(desk.sent[i].to))
  }

  lemma StepConserves(chain: ChainId, book: Book, a: Action)
    requires Conserved(chain, book.desk) && Enabled(book.desk, a)
    ensures Conserved(chain, Step(chain, book, a).desk)
  {
  }

  /** A logged sweep has its row, written when it left or later. */
  predicate Recorded(log: seq<Row>, chain: ChainId, t: Transfer) {
    t.logged ==> exists i :: 0 <= i < |log| && IsSweep(log[i], chain) && t.sentAt <= log[i].sweptAt
  }

  /** After a logged sweep, no sweep of less than the threshold for a week. */
  predicate Spaced(earlier: Transfer, later: Transfer) {
    earlier.logged && later.amount < THRESHOLD_USDC ==> later.sentAt - earlier.sentAt >= CADENCE_MS
  }

  predicate Paced(chain: ChainId, book: Book) {
    && (forall i :: 0 <= i < |book.desk.sent| ==> Recorded(book.log, chain, book.desk.sent[i]))
    && (forall i, j :: 0 <= i < j < |book.desk.sent| ==> Spaced(book.desk.sent[i], book.desk.sent[j]))
  }

  /** The pages of the latest tick, against the reads so far. */
  predicate PagedFor(history: seq<bool>, pages: seq<Page>)
    requires history != []
  {
    var before, n := TrailingFailures(history[..|history| - 1]), TrailingFailures(history);
    if n > 0 then pages == [ReadFailing(n, n >= READ_FAILURE_ESCALATE_AFTER)]
    else
      && (forall p :: p in pages ==> !p.ReadFailing? && (p.Recovered? ==> p.count == before))
      && (Recovered(before) in pages <==> before >= READ_FAILURE_ESCALATE_AFTER)
  }

  predicate Counts(desk: Desk) {
    && |desk.pages| == |desk.history|
    && (desk.counted ==> desk.consecutive == TrailingFailures(desk.history))
    && (desk.counted ==> forall i :: 0 <= i < |desk.history| ==> PagedFor(desk.history[..i + 1], desk.pages[i]))
    && (!desk.counted ==>
          forall i :: 0 <= i < |desk.history| && !desk.history[i] ==> desk.pages[i] == [ReadFailing(1, true)])
  }

  lemma SweepStaysPaced(chain: ChainId, book: Book, w: Weather)
    requires Paced(chain, book) && Possible(book.desk, w)
    ensures Paced(chain, Ticked(chain, book, w).0)
  {
    var after := Ticked(chain, book, w).0;
    var was, sent := book.desk.sent, after.desk.sent;
    LastSweepIsLatest(book.log, chain);
    assert forall t :: Recorded(book.log, chain, t) ==> Recorded(after.log, chain, t) by {
      assert forall i :: 0 <= i < |book.log| ==> after.log[i] == book.log[i];
    }
    if sent != was {
      var t := sent[|was|];
      assert sent == was + [t];
      if t.logged {
        assert IsSweep(after.log[|book.log|], chain);
      }
      forall i | 0 <= i < |was| ensures Spaced(was[i], t) {
        assert Recorded(book.log, chain, was[i]);
      }
    }
  }

  lemma StepStaysPaced(chain: ChainId, book: Book, a: Action)
    requires Paced(chain, book) && Enabled(book.desk, a)
    ensures Paced(chain, Step(chain, book, a))
  {
    if a.Tick? {
      SweepStaysPaced(chain, book, a.w);
    }
  }

  /** What one tick adds to the history: at most one read and its pages. */
  lemma TickAppends(chain: ChainId, book: Book, w: Weather)
    requires Possible(book.desk, w)
    ensures var was, desk := book.desk, Ticked(chain, book, w).0.desk;
      && desk.counted == was.counted
      && (desk == was || (&& desk.history == was.history + [w.read.ReadOk?]
                          && |desk.pages| == |was.pages| + 1
                          && desk.pages[..|was.pages|] == was.pages
                          && desk.consecutive == (if !was.counted then was.consecutive
                                                  else if w.read.ReadOk? then 0 else was.consecutive + 1)
                          && PagesAfter(was, w.read, desk.pages[|was.pages|])))
  {
  }

  predicate PagesAfter(was: Desk, read: Read, pages: seq<Page>) {
    if read.ReadFails? then pages == UnreadPages(was)
    else
      && RecoveryPages(was) <= pages
      && forall i :: |RecoveryPages(was)| <= i < |pages| ==> pages[i].Swept? || pages[i].SweepFailing?
  }

  lemma LatestPages(was: Desk, read: Read, history: seq<bool>, pages: seq<Page>)
    requires was.counted && was.consecutive == TrailingFailures(was.history)
    requires history == was.history + [read.ReadOk?] && PagesAfter(was, read, pages)
    ensures PagedFor(history, pages)
  {
    assert history[..|history| - 1] == was.history;
    if read.ReadOk? && was.consecutive >= READ_FAILURE_ESCALATE_AFTER {
      assert pages[0] == RecoveryPages(was)[0];
    }
  }

  lemma TickCounts(chain: ChainId, book: Book, w: Weather)
    requires Counts(book.desk) && Possible(book.desk, w)
    ensures Counts(Ticked(chain, book, w).0.desk)
  {
    TickAppends(chain, book, w);
    var was, desk := book.desk, Ticked(chain, book, w).0.desk;
    if desk != was {
      CountsGrows(was, desk, w.read);
    }
  }

  lemma CountsGrows(was: Desk, desk: Desk, read: Read)
    requires Counts(was) && desk.counted == was.counted
    requires desk.history == was.history + [read.ReadOk?]
    requires |desk.pages| == |was.pages| + 1 && desk.pages[..|was.pages|] == was.pages
    requires desk.consecutive ==
      if !was.counted then was.consecutive else if read.ReadOk? then 0 else was.consecutive + 1
    requires PagesAfter(was, read, desk.pages[|was.pages|])
    ensures Counts(desk)
  {
    var n := |was.history|;
    assert desk.history[..n] == was.history && desk.history[..n + 1] == desk.history;
    forall i | 0 <= i < n ensures desk.history[..i + 1] == was.history[..i + 1] && desk.pages[i] == was.pages[i] {
      assert desk.pages[i] == desk.pages[..n][i];
    }
    if desk.counted {
      LatestPages(was, read, desk.history, desk.pages[n]);
    }
  }

  lemma StepCounts(chain: ChainId, book: Book, a: Action)
    requires Counts(book.desk) && Enabled(book.desk, a)
    ensures Counts(Step(chain, book, a).desk)
  {
    if a.Tick? {
      TickCounts(chain, book, a.w);
    }
  }

  /** No sweep of the chain is logged less than a week before now; one was never logged only if now is
      a week past the epoch. */
  predicate WeekElapsed(log: seq<Row>, chain: ChainId, now: int) {
    if forall i :: 0 <= i < |log| ==> !IsSweep(log[i], chain) then now >= 7 * 24 * 60 * 60 * 1000
    else forall i :: 0 <= i < |log| && IsSweep(log[i], chain) ==> now - log[i].sweptAt >= 7 * 24 * 60 * 60 * 1000
  }

  /** After a good read a sweep is tried exactly when the balance reached the threshold, or is not zero
      and a week elapsed; when it succeeds the whole balance is in the pool wallet. */
  lemma SweepsWhenDue(chain: ChainId, book: Book, w: Weather)
    requires PoolWalletFor(chain).Some? && w.read.ReadOk? && Possible(book.desk, w)
    ensures var amount, (after, outcome) := Decisive(w), Ticked(chain, book, w);
      && (outcome != Skipping <==> amount >= THRESHOLD_USDC || (amount > 0 && WeekElapsed(book.log, chain, w.now)))
      && (outcome == Sweeping ==> after.desk.pool == book.desk.pool + amount)
      && (outcome != Sweeping ==> after.desk.pool == book.desk.pool)
      && (outcome == Sweeping <==> outcome != Skipping && w.broadcast.Confirmed?)
  {
    LastSweepIsLatest(book.log, chain);
  }

  /** The reads tell what is in the agent's wallet at the time. */
  predicate Truthful(desk: Desk, w: Weather) {
    && w.read.ReadOk? && w.read.balance == desk.agent
    && (w.refuel.Refueled? && w.refuel.reread.Some? ==> w.refuel.reread.value + w.refuel.usdcIn == desk.agent)
  }

  /** On true reads everything the refuel leaves is due as the pace says, and a confirmed sweep moves all of it:
      the agent's wallet is empty then. After a failed refuel that spent USDC no sweep can be confirmed, since
      the sweep asks for more than is there. */
  lemma SweepEmptiesTheWallet(chain: ChainId, book: Book, w: Weather)
    requires PoolWalletFor(chain).Some? && Possible(book.desk, w) && Truthful(book.desk, w)
    ensures var left, (after, outcome) := book.desk.agent - SpentOnGas(w.refuel), Ticked(chain, book, w);
      && (w.refuel.NotOk? && w.refuel.spent > 0 ==> outcome != Sweeping)
      && (!w.refuel.NotOk? ==>
            (outcome != Skipping <==> left >= 200_000_000 || (left > 0 && WeekElapsed(book.log, chain, w.now))))
      && (outcome == Sweeping ==> after.desk.agent == 0 && after.desk.pool == book.desk.pool + left)
      && (outcome != Sweeping ==> after.desk.agent == left && after.desk.pool == book.desk.pool)
  {
    SweepsWhenDue(chain, book, w);
  }

  /** The row of a tick names the chain and the wallet, and tells what the tick did: the sum that reached the
      pool wallet when a sweep was confirmed, and no sum when nothing could be read. */
  lemma RowTellsTheTick(chain: ChainId, book: Book, w: Weather)
    requires PoolWalletFor(chain).Some? && Possible(book.desk, w) && w.accepted
    ensures var (after, outcome) := Ticked(chain, book, w);
      && |after.log| == |book.log| + 1 && after.log[..|book.log|] == book.log
      && var row := after.log[|book.log|];
      && row.chain == chain && row.destination == PoolWalletFor(chain).value && row.sweptAt == w.writtenAt
      && (row.status.Ok? <==> outcome == Sweeping) && (row.status.Skipped? <==> outcome == Skipping)
      && (row.status.Ok? ==> row.amount.Some? && after.desk.pool == book.desk.pool + row.amount.value)
      && (row.amount.None? <==> w.read.ReadFails?)
  {
  }

  /** What a tick after a good read pages besides a recovery: one sweep, or one failed sweep, exactly when one was
      tried, critical unless the error can pass by itself; and what left the wallet is recorded with its sum. */
  lemma SweepIsPaged(chain: ChainId, book: Book, w: Weather)
    requires PoolWalletFor(chain).Some? && w.read.ReadOk? && Possible(book.desk, w)
    ensures var (after, outcome) := Ticked(chain, book, w);
      var pages, was, sent := after.desk.pages, book.desk.sent, after.desk.sent;
      && |pages| == |book.desk.pages| + 1
      && (Page.Swept in pages[|pages| - 1] <==> outcome == Sweeping)
      && (SweepFailing(true) in pages[|pages| - 1] <==> outcome == Failing && !Passing(w.broadcast))
      && (SweepFailing(false) in pages[|pages| - 1] <==> outcome == Failing && Passing(w.broadcast))
      && (if outcome == Sweeping || (outcome == Failing && w.broadcast.Unknown?)
          then |sent| == |was| + 1 && sent[..|was|] == was && sent[|was|].amount == Decisive(w)
               && sent[|was|].sentAt == w.sentAt
          else sent == was)
  {
    var recovery := RecoveryPages(book.desk);
    var pages := Ticked(chain, book, w).0.desk.pages;
    var last := pages[|pages| - 1];
    assert recovery <= last;
    assert |last| > |recovery| ==>
      last == recovery + SweepPages(w.broadcast) && last[|recovery|] == SweepPages(w.broadcast)[0];
  }

  /** The error of a broadcast that may be over at the next tick. */
  predicate Passing(b: Broadcast) {
    match b
    case Refused(recoverable) => recoverable
    case Unknown(recoverable) => recoverable
    case _ => false
  }

  /** Whatever leaves on a chain leaves for that chain's literal wallet. */
  lemma SentToTheLiteralWallet(chain: ChainId, book: Book, w: Weather, i: nat)
    requires Possible(book.desk, w) && |book.desk.sent| <= i < |Ticked(chain, book, w).0.desk.sent|
    ensures var to := Ticked(chain, book, w).0.desk.sent[i].to;
      || (chain == 8453 && to == 0x9324525D2Af0B0636F438B1A85f67F89AF821d74)
      || (chain == 84532 && to == 0x9a1fCfCA9f5F396295e903CB64b561a1415a441f)
      || (chain == 2366 && to == 0xb20634383Af7BBFD3592f763FE293b7387867fb8)
  {
  }

  /** A tick throws exactly on a chain without a listed wallet, and then changes nothing; the chains a
      sweeper can be configured for all have one. */
  lemma TickThrowsIff(chain: ChainId, book: Book, w: Weather)
    requires Possible(book.desk, w)
    ensures Ticked(chain, book, w).1 == Threw <==> PoolWalletFor(chain).None?
    ensures Ticked(chain, book, w).1 == Threw ==> Ticked(chain, book, w).0 == book
    ensures PoolWalletFor(chain).Some? <==> chain == 8453 || chain == 84532 || chain == 2366
  {
  }

  // ---------- one chain's runs ----------

  predicate Runs(chain: ChainId, book: Book, acts: seq<Action>)
    decreases |acts|
  {
    acts == [] || (Enabled(book.desk, acts[0]) && Runs(chain, Step(chain, book, acts[0]), acts[1..]))
  }

  function After(chain: ChainId, book: Book, acts: seq<Action>): Book
    requires Runs(chain, book, acts)
    decreases |acts|
  {
    if acts == [] then book else After(chain, Step(chain, book, acts[0]), acts[1..])
  }

  /** A sweeper that has done nothing yet. */
  predicate Idles(desk: Desk) {
    && desk.sent == [] && desk.unknown == [] && desk.history == [] && desk.pages == [] && desk.consecutive == 0
    && desk.pool == 0 && desk.elsewhere == 0 && desk.refueled == 0 && desk.received == desk.agent
  }

  lemma {:induction false} RunKeeps(chain: ChainId, book: Book, acts: seq<Action>)
    requires Runs(chain, book, acts)
    requires Conserved(chain, book.desk) && Paced(chain, book) && Counts(book.desk)
    ensures var after := After(chain, book, acts);
      Conserved(chain, after.desk) && Paced(chain, after) && Counts(after.desk)
    decreases |acts|
  {
    if acts != [] {
      StepConserves(chain, book, acts[0]);
      StepStaysPaced(chain, book, acts[0]);
      StepCounts(chain, book, acts[0]);
      RunKeeps(chain, Step(chain, book, acts[0]), acts[1..]);
    }
  }

  /** Over any run: no USDC is lost or strays, every swept unit went to the chain's literal wallet, a
      small sweep keeps a week's distance from every logged one, and the failure counter and its pages
      follow the trailing run of failed reads. */
  lemma SweeperIsSound(chain: ChainId, book: Book, acts: seq<Action>)
    requires Idles(book.desk) && Runs(chain, book, acts)
    ensures var after := After(chain, book, acts);
      Conserved(chain, after.desk) && Paced(chain, after) && Counts(after.desk)
  {
    RunKeeps(chain, book, acts);
  }

  // ---------- the sweepers of several chains, sharing one log ----------

  datatype World = World(log: seq<Row>, desks: map<ChainId, Desk>)

  datatype Event = Event(chain: ChainId, act: Action)

  predicate Possibly(world: World, e: Event) {
    e.chain in world.desks && Enabled(world.desks[e.chain], e.act)
  }

  function Happen(world: World, e: Event): World
    requires Possibly(world, e)
  {
    var book := Step(e.chain, Book(world.log, world.desks[e.chain]), e.act);
    World(book.log, world.desks[e.chain := book.desk])
  }

  predicate Story(world: World, es: seq<Event>)
    decreases |es|
  {
    es == [] || (Possibly(world, es[0]) && Story(Happen(world, es[0]), es[1..]))
  }

  function Ending(world: World, es: seq<Event>): World
    requires Story(world, es)
    decreases |es|
  {
    if es == [] then world else Ending(Happen(world, es[0]), es[1..])
  }

  /** The chain's rows of the log. */
  function RowsOf(log: seq<Row>, chain: ChainId): seq<Row> {
    if log == [] then []
    else RowsOf(log[..|log| - 1], chain) + if log[|log| - 1].chain == chain then [log[|log| - 1]] else []
  }

  function ActsOf(es: seq<Event>, chain: ChainId): seq<Action> {
    if es == [] then [] else (if es[0].chain == chain then [es[0].act] else []) + ActsOf(es[1..], chain)
  }

  function View(world: World, chain: ChainId): Book
    requires chain in world.desks
  {
    Book(RowsOf(world.log, chain), world.desks[chain])
  }

  lemma {:induction false} LastSweepReadsOwnRows(log: seq<Row>, chain: ChainId)
    ensures LastSweep(log, chain) == LastSweep(RowsOf(log, chain), chain)
  {
    if log != [] {
      var front, row := log[..|log| - 1], log[|log| - 1];
      LastSweepReadsOwnRows(front, chain);
      if row.chain == chain {
        var own, fore := RowsOf(log, chain), RowsOf(front, chain);
        assert own == fore + [row] && own[..|own| - 1] == fore;
        assert LastSweep(own[..|own| - 1], chain) == LastSweep(front, chain);
      } else {
        assert RowsOf(log, chain) == RowsOf(front, chain);
        assert !IsSweep(row, chain);
      }
    }
  }

  lemma RowsOfGrows(log: seq<Row>, more: seq<Row>, chain: ChainId)
    requires |more| <= 1
    ensures RowsOf(log + more, chain) == RowsOf(log, chain) + if more != [] && more[0].chain == chain then more else []
  {
    if more == [] {
      assert log + more == log;
    } else {
      assert (log + more)[..|log|] == log;
      assert (log + more)[|log|] == more[0];
    }
  }

  lemma TickIsLocal(chain: ChainId, log: seq<Row>, own: seq<Row>, desk: Desk, w: Weather) returns (more: seq<Row>)
    requires Possible(desk, w) && LastSweep(log, chain) == LastSweep(own, chain)
    ensures |more| <= 1 && (more != [] ==> more[0].chain == chain)
    ensures Ticked(chain, Book(log, desk), w).0.log == log + more
    ensures Ticked(chain, Book(own, desk), w).0 == Book(own + more, Ticked(chain, Book(log, desk), w).0.desk)
  {
    more := Ticked(chain, Book(own, desk), w).0.log[|own|..];
  }

  /** A step appends at most one row, of its own chain, and reads no other chain's rows. */
  lemma StepIsLocal(chain: ChainId, log: seq<Row>, desk: Desk, a: Action) returns (more: seq<Row>)
    requires Enabled(desk, a)
    ensures |more| <= 1 && (more != [] ==> more[0].chain == chain)
    ensures Step(chain, Book(log, desk), a).log == log + more
    ensures Step(chain, Book(RowsOf(log, chain), desk), a) ==
      Book(RowsOf(log, chain) + more, Step(chain, Book(log, desk), a).desk)
  {
    more := [];
    if a.Tick? {
      LastSweepReadsOwnRows(log, chain);
      more := TickIsLocal(chain, log, RowsOf(log, chain), desk, a.w);
    }
  }

  lemma HappensToOne(world: World, e: Event, chain: ChainId)
    requires Possibly(world, e) && chain in world.desks
    ensures chain in Happen(world, e).desks
    ensures View(Happen(world, e), chain) ==
      if e.chain == chain then Step(chain, View(world, chain), e.act) else View(world, chain)
  {
    var more := StepIsLocal(e.chain, world.log, world.desks[e.chain], e.act);
    RowsOfGrows(world.log, more, chain);
  }

  /** Whatever the sweepers of the other chains do and log, a chain's sweeper behaves as if it were alone. */
  lemma {:induction false} ChainsDoNotMeet(world: World, es: seq<Event>, chain: ChainId)
    requires Story(world, es) && chain in world.desks
    ensures chain in Ending(world, es).desks
    ensures Runs(chain, View(world, chain), ActsOf(es, chain))
    ensures View(Ending(world, es), chain) == After(chain, View(world, chain), ActsOf(es, chain))
    decreases |es|
  {
    if es != [] {
      HappensToOne(world, es[0], chain);
      ChainsDoNotMeet(Happen(world, es[0]), es[1..], chain);
      var acts, rest := ActsOf(es, chain), ActsOf(es[1..], chain);
      if es[0].chain == chain {
        assert acts[0] == es[0].act && acts[1..] == rest;
      } else {
        assert acts == rest;
      }
    }
  }

  /** So each of them is sound in any story they share, on its own rows of the log. */
  lemma SharedLogIsSound(world: World, es: seq<Event>, chain: ChainId)
    requires Story(world, es) && chain in world.desks && Idles(world.desks[chain])
    ensures chain in Ending(world, es).desks
    ensures var after := View(Ending(world, es), chain);
      Conserved(chain, after.desk) && Paced(chain, after) && Counts(after.desk)
  {
    ChainsDoNotMeet(world, es, chain);
    SweeperIsSound(chain, View(world, chain), ActsOf(es, chain));
  }

  // ---------- where the pace ends ----------

  /** The week is kept only by the log: when a sweep's row could not be written, a tick five minutes
      later may sweep a small balance again. */
  lemma UnwrittenRowForgetsTheSweep()
    ensures exists book: Book, first: Weather, second: Weather ::
      && Possible(book.desk, first)
      && var once := Ticked(8453, book, first).0;
      && Possible(once.desk, second)
      && var twice := Ticked(8453, once, second).0;
      && |once.desk.sent| == 1 && |twice.desk.sent| == 2
      && twice.desk.sent[1].amount < THRESHOLD_USDC
      && twice.desk.sent[1].sentAt - twice.desk.sent[0].sentAt < CADENCE_MS
  {
    var t0 := 52 * CADENCE_MS;
    var book := Book([], Desk(true, 0, 3, 0, 0, 0, 3, [], [], [], []));
    var first := Weather(ReadOk(2), Idle, Confirmed, false, t0, t0, t0);
    var second := Weather(ReadOk(1), Idle, Confirmed, true, t0 + 300_000, t0 + 300_000, t0 + 300_000);
    var once := Ticked(8453, book, first).0;
    assert once.desk.sent == [Transfer(BASE_POOL_WALLET_ADDRESS, 2, t0, false)];
    var twice := Ticked(8453, once, second).0;
    assert twice.desk.sent[1] == Transfer(BASE_POOL_WALLET_ADDRESS, 1, t0 + 300_000, true);
  }

  /** So is a sweep whose receipt did not come, although its row is written: it is logged as failed, and
      when it lands after all the next small balance is swept within the week. */
  lemma LateLandingForgetsTheSweep()
    ensures exists book: Book, first: Weather, second: Weather ::
      && Possible(book.desk, first) && first.accepted
      && var once := Ticked(8453, book, first).0;
      && Enabled(once.desk, Lands(0, true))
      && var landed := Step(8453, once, Lands(0, true));
      && Possible(landed.desk, second)
      && var twice := Ticked(8453, landed, second).0;
      && landed.desk.pool == 2 && twice.desk.pool == 3
      && |twice.desk.sent| == 2 && twice.desk.sent[1].sentAt - twice.desk.sent[0].sentAt < CADENCE_MS
  {
    var t0 := 52 * CADENCE_MS;
    var book := Book([], Desk(true, 0, 3, 0, 0, 0, 3, [], [], [], []));
    var first := Weather(ReadOk(2), Idle, Unknown(true), true, t0, t0, t0);
    var second := Weather(ReadOk(1), Idle, Confirmed, true, t0 + 300_000, t0 + 300_000, t0 + 300_000);
    var once := Ticked(8453, book, first).0;
    assert once.desk.sent == [Transfer(BASE_POOL_WALLET_ADDRESS, 2, t0, false)] && once.desk.unknown == once.desk.sent;
    assert once.log == [Row(8453, Failed, Some(2), BASE_POOL_WALLET_ADDRESS, t0)] && once.log[..0] == [];
    assert LastSweep(once.log, 8453) == None;
    var landed := Step(8453, once, Lands(0, true));
    var twice := Ticked(8453, landed, second).0;
    assert twice.desk.sent[1] == Transfer(BASE_POOL_WALLET_ADDRESS, 1, t0 + 300_000, true);
  }
}
