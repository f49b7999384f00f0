/** The poll loop of the mech: a block cursor, the requests found between cursor and head, and what
    becomes of each of them. */
module MechPoll {
  import opened Options

  type Block = nat

  // A request log; a field is None when it did not decode.
  datatype Log = Log(priorityMech: string, requester: Option<string>, ids: Option<seq<string>>,
                     datas: Option<seq<string>>)

  // The request logs of each block, in log order.
  type BlockLogs = Block -> seq<Log>

  datatype Detected = Detected(id: string, data: Option<string>, requester: string, block: Block)

  // ---------- detection ----------

  function Requests(log: Log, block: Block): (r: seq<Detected>)
  {
    if log.ids.None? || log.datas.None? || log.requester.None? then []
    else
      seq(|log.ids.value|, i requires 0 <= i < |log.ids.value| =>
        Detected(log.ids.value[i], if i < |log.datas.value| then Some(log.datas.value[i]) else None,
                 log.requester.value, block))
  }

  /** The requests to `mech` among `logs`, in log order. */
  function OwnIn(mech: string, logs: seq<Log>, block: Block): seq<Detected> {
    if logs == [] then []
    else
      var n := |logs| - 1;
      OwnIn(mech, logs[..n], block) + if logs[n].priorityMech == mech then Requests(logs[n], block) else []
  }

  /** All requests to `mech` in the blocks [lo, hi), in log order. */
  function Own(chain: BlockLogs, mech: string, lo: Block, hi: Block): seq<Detected> {
    if hi <= lo then [] else Own(chain, mech, lo, hi - 1) + OwnIn(mech, chain(hi - 1), hi - 1)
  }

  lemma {:induction false} OwnConcat(chain: BlockLogs, mech: string, a: Block, b: Block, c: Block)
    requires a <= b <= c
    ensures Own(chain, mech, a, b) + Own(chain, mech, b, c) == Own(chain, mech, a, c)
  {
    if c == b {
      assert Own(chain, mech, a, b) + [] == Own(chain, mech, a, b);
    } else {
      OwnConcat(chain, mech, a, b, c - 1);
      calc {
        Own(chain, mech, a, c);
        Own(chain, mech, a, c - 1) + OwnIn(mech, chain(c - 1), c - 1);
        (Own(chain, mech, a, b) + Own(chain, mech, b, c - 1)) + OwnIn(mech, chain(c - 1), c - 1);
        Own(chain, mech, a, b) + (Own(chain, mech, b, c - 1) + OwnIn(mech, chain(c - 1), c - 1));
      }
    }
  }

  // ---------- what is detected, read off the logs ----------

  // The i-th request of the l-th log of a block.
  datatype Place = Place(block: Block, log: nat, i: nat)

  predicate Before(a: Place, b: Place) {
    || a.block < b.block
    || (a.block == b.block && (a.log < b.log || (a.log == b.log && a.i < b.i)))
  }

  predicate Decodes(log: Log) {
    log.ids.Some? && log.datas.Some? && log.requester.Some?
  }

  /** A request to `mech` stands there, in a log that decodes. */
  predicate IsRequest(mech: string, logs: seq<Log>, log: nat, i: nat) {
    && log < |logs| && logs[log].priorityMech == mech && Decodes(logs[log])
    && i < |logs[log].ids.value|
  }

  /** The detected entry is the request that stands there, with its own data if there is any. */
  predicate Describes(d: Detected, logs: seq<Log>, p: Place)
    requires p.log < |logs| && Decodes(logs[p.log]) && p.i < |logs[p.log].ids.value|
  {
    var log := logs[p.log];
    && d.id == log.ids.value[p.i] && d.requester == log.requester.value && d.block == p.block
    && d.data == if p.i < |log.datas.value| then Some(log.datas.value[p.i]) else None
  }

  /** The entries, one for one and in order, are the requests at `at`. */
  ghost predicate EntriesAt(chain: BlockLogs, mech: string, detected: seq<Detected>, at: seq<Place>) {
    && |at| == |detected|
    && (forall k :: 0 <= k < |at| ==>
          IsRequest(mech, chain(at[k].block), at[k].log, at[k].i) && Describes(detected[k], chain(at[k].block), at[k]))
    && (forall j, k :: 0 <= j < k < |at| ==> Before(at[j], at[k]))
  }

  /** Every request to the mech in the blocks [lo, hi) is detected once, as it is, in order, and nothing else. */
  ghost predicate Detects(chain: BlockLogs, mech: string, lo: Block, hi: Block, detected: seq<Detected>) {
    exists at :: EntriesAt(chain, mech, detected, at) && Covers(chain, mech, lo, hi, at)
  }

  ghost predicate Covers(chain: BlockLogs, mech: string, lo: Block, hi: Block, at: seq<Place>) {
    forall p: Place :: p in at <==> lo <= p.block < hi && IsRequest(mech, chain(p.block), p.log, p.i)
  }

  /** The same for the first logs of one block. */
  ghost predicate CoversLogs(mech: string, logs: seq<Log>, block: Block, at: seq<Place>) {
    forall p: Place :: p in at <==> p.block == block && IsRequest(mech, logs, p.log, p.i)
  }

  ghost predicate LogEntriesAt(mech: string, logs: seq<Log>, detected: seq<Detected>, at: seq<Place>) {
    && |at| == |detected|
    && (forall k :: 0 <= k < |at| ==>
          IsRequest(mech, logs, at[k].log, at[k].i) && Describes(detected[k], logs, at[k]))
    && (forall j, k :: 0 <= j < k < |at| ==> Before(at[j], at[k]))
  }

  lemma {:induction false} OwnInDetects(mech: string, logs: seq<Log>, block: Block) returns (at: seq<Place>)
    ensures LogEntriesAt(mech, logs, OwnIn(mech, logs, block), at) && CoversLogs(mech, logs, block, at)
  {
    if logs == [] {
      return [];
    }
    var n := |logs| - 1;
    var front := OwnInDetects(mech, logs[..n], block);
    var last := logs[n];
    var own := if last.priorityMech == mech && Decodes(last) then |last.ids.value| else 0;
    at := front + seq(own, i requires 0 <= i < own => Place(block, n, i));
    forall p: Place
      ensures p in at <==> p.block == block && IsRequest(mech, logs, p.log, p.i)
    {
      assert p in front <==> p.block == block && IsRequest(mech, logs[..n], p.log, p.i);
      if p.block == block && p.log == n && p.i < own {
        assert at[|front| + p.i] == p;
      }
    }
    forall k | 0 <= k < |at|
      ensures IsRequest(mech, logs, at[k].log, at[k].i)
      ensures Describes(OwnIn(mech, logs, block)[k], logs, at[k])
    {
      if k < |front| {
        assert front[k] in front && IsRequest(mech, logs[..n], front[k].log, front[k].i);
      }
    }
    forall j, k | 0 <= j < k < |at|
      ensures Before(at[j], at[k])
    {
      if j < |front| <= k {
        assert front[j] in front;
      }
    }
  }

  lemma {:induction false} OwnDetects(chain: BlockLogs, mech: string, lo: Block, hi: Block) returns (at: seq<Place>)
    ensures EntriesAt(chain, mech, Own(chain, mech, lo, hi), at) && Covers(chain, mech, lo, hi, at)
  {
    if hi <= lo {
      return [];
    }
    var front := OwnDetects(chain, mech, lo, hi - 1);
    var last := OwnInDetects(mech, chain(hi - 1), hi - 1);
    at := front + last;
    JoinCovers(chain, mech, lo, hi, front, last);
    JoinEntries(chain, mech, lo, hi, Own(chain, mech, lo, hi - 1), front, OwnIn(mech, chain(hi - 1), hi - 1), last);
  }

  lemma JoinCovers(chain: BlockLogs, mech: string, lo: Block, hi: Block, front: seq<Place>, last: seq<Place>)
    requires lo < hi && Covers(chain, mech, lo, hi - 1, front) && CoversLogs(mech, chain(hi - 1), hi - 1, last)
    ensures Covers(chain, mech, lo, hi, front + last)
  {
    forall p: Place
      ensures p in front + last <==> lo <= p.block < hi && IsRequest(mech, chain(p.block), p.log, p.i)
    {
      assert p in front + last <==> p in front || p in last;
    }
  }

  lemma JoinEntries(chain: BlockLogs, mech: string, lo: Block, hi: Block, a: seq<Detected>, front: seq<Place>,
                    b: seq<Detected>, last: seq<Place>)
    requires lo < hi && Covers(chain, mech, lo, hi - 1, front) && CoversLogs(mech, chain(hi - 1), hi - 1, last)
    requires EntriesAt(chain, mech, a, front) && LogEntriesAt(mech, chain(hi - 1), b, last)
    ensures EntriesAt(chain, mech, a + b, front + last)
  {
    var at := front + last;
    forall k | 0 <= k < |at|
      ensures IsRequest(mech, chain(at[k].block), at[k].log, at[k].i)
      ensures Describes((a + b)[k], chain(at[k].block), at[k])
    {
      if k >= |front| {
        assert last[k - |front|] in last;
      }
    }
    forall j, k | 0 <= j < k < |at|
      ensures Before(at[j], at[k])
    {
      if j < |front| <= k {
        assert front[j] in front && last[k - |front|] in last;
      }
    }
  }

  // ---------- routing ----------

  // How one attempt to answer a request ends: content fetched, tool known, handler run, response
  // pinned and verified - or one of these failed.
  datatype Answer = Pinned(responseHash: string) | RoutingFailed(error: string)

  datatype Routed = Routed(id: string, responseHash: string)
  datatype RoutingError = RoutingError(id: string, error: string)

  datatype Split = Split(routed: seq<Routed>, errors: seq<RoutingError>)

  function SplitOf(detected: seq<Detected>, answers: nat -> Answer): Split {
    if detected == [] then Split([], [])
    else
      var n := |detected| - 1;
      var s := SplitOf(detected[..n], answers);
      match answers(n)
      case Pinned(h) => s.(routed := s.routed + [Routed(detected[n].id, h)])
      case RoutingFailed(e) => s.(errors := s.errors + [RoutingError(detected[n].id, e)])
  }

  /** How many of the first `n` requests were answered. */
  function Pinneds(answers: nat -> Answer, n: nat): (r: nat)
    ensures r <= n
  {
    if n == 0 then 0 else Pinneds(answers, n - 1) + if answers(n - 1).Pinned? then 1 else 0
  }

  lemma {:induction false} SplitSizes(detected: seq<Detected>, answers: nat -> Answer)
    ensures |SplitOf(detected, answers).routed| == Pinneds(answers, |detected|)
    ensures |SplitOf(detected, answers).errors| == |detected| - Pinneds(answers, |detected|)
  {
    if detected != [] {
      SplitSizes(detected[..|detected| - 1], answers);
    }
  }

  predicate Placed(detected: seq<Detected>, answers: nat -> Answer, i: nat)
    requires i < |detected|
  {
    var s := SplitOf(detected, answers);
    var p := Pinneds(answers, i);
    match answers(i)
    case Pinned(h) => p < |s.routed| && s.routed[p] == Routed(detected[i].id, h)
    case RoutingFailed(e) => i - p < |s.errors| && s.errors[i - p] == RoutingError(detected[i].id, e)
  }

  /** Every detected request is in exactly one of the two lists, once, with its own answer, and both
      lists keep the log order: the i-th request comes right after those of its kind before it. */
  lemma {:induction false} EachRequestOnce(detected: seq<Detected>, answers: nat -> Answer, i: nat)
    requires i < |detected|
    ensures Placed(detected, answers, i)
    ensures |SplitOf(detected, answers).routed| + |SplitOf(detected, answers).errors| == |detected|
  {
    var n := |detected| - 1;
    SplitSizes(detected, answers);
    SplitSizes(detected[..n], answers);
    if i < n {
      EachRequestOnce(detected[..n], answers, i);
    }
  }

  // ---------- ticks ----------

  // What a tick meets: the head it reads, if it can, and how the poll over the new range goes - in
  // what block the log query or the delivery throws nothing is said.
  datatype Tick = Tick(head: Option<Block>, answers: nat -> Answer, throws: bool)

  // A completed tick, the range it covered and what it did with the requests in it.
  datatype Done = Done(lo: Block, hi: Block, detected: seq<Detected>, split: Split)

  datatype Loop = Loop(cursor: Block, done: seq<Done>)

  /** The tick reads a head not behind the cursor and goes through. */
  predicate Goes(t: Tick, cursor: Block) {
    t.head.Some? && cursor <= t.head.value && !t.throws
  }

  function Ticked(chain: BlockLogs, mech: string, s: Loop, t: Tick): Loop {
    if t.head.None? || t.head.value < s.cursor || t.throws then s
    else
      var detected := Own(chain, mech, s.cursor, t.head.value + 1);
      Loop(t.head.value + 1, s.done + [Done(s.cursor, t.head.value + 1, detected, SplitOf(detected, t.answers))])
  }

  function TickedAll(chain: BlockLogs, mech: string, start: Block, ticks: seq<Tick>): Loop {
    if ticks == [] then Loop(start, [])
    else Ticked(chain, mech, TickedAll(chain, mech, start, ticks[..|ticks| - 1]), ticks[|ticks| - 1])
  }

  function AllDetected(done: seq<Done>): seq<Detected> {
    if done == [] then [] else AllDetected(done[..|done| - 1]) + done[|done| - 1].detected
  }

  /** The ranges follow each other from `start` to the cursor. */
  predicate Partition(start: Block, done: seq<Done>, cursor: Block) {
    if done == [] then cursor == start
    else
      var n := |done| - 1;
      done[n].hi == cursor && done[n].lo < cursor && Partition(start, done[..n], done[n].lo)
  }

  /** A tick that goes through catches up with its head, with one completed range from the cursor on; any other
      leaves cursor and ranges alone. */
  lemma TickCatchesUp(chain: BlockLogs, mech: string, s: Loop, t: Tick)
    ensures var after := Ticked(chain, mech, s, t);
      if Goes(t, s.cursor)
      then after.cursor == t.head.value + 1
           && |after.done| == |s.done| + 1 && after.done[..|s.done|] == s.done
           && after.done[|s.done|].lo == s.cursor && DoneBy(after.done[|s.done|], t)
      else after == s
  {
  }

  /** Over any run, with failing ticks and lagging heads, the completed ticks partition the blocks from
      the start to the cursor, and together they hold every request to the mech in those blocks
      exactly once, in log order. */
  lemma {:induction false} TicksCoverTheChain(chain: BlockLogs, mech: string, start: Block, ticks: seq<Tick>)
    ensures var s := TickedAll(chain, mech, start, ticks);
      && start <= s.cursor && Partition(start, s.done, s.cursor)
      && AllDetected(s.done) == Own(chain, mech, start, s.cursor)
  {
    if ticks != [] {
      var before := TickedAll(chain, mech, start, ticks[..|ticks| - 1]);
      var after := TickedAll(chain, mech, start, ticks);
      TicksCoverTheChain(chain, mech, start, ticks[..|ticks| - 1]);
      if after != before {
        assert after.done[..|after.done| - 1] == before.done;
        OwnConcat(chain, mech, start, before.cursor, after.cursor);
      }
    }
  }

  /** The tick read the head the range ends at, and its answers made the split. */
  predicate DoneBy(d: Done, t: Tick) {
    d.hi > 0 && t.head == Some(d.hi - 1) && !t.throws && d.split == SplitOf(d.detected, t.answers)
  }

  /** What became of the requests in a completed range is decided by the answers of the tick that
      covered it. */
  lemma {:induction false} TicksSplitTheirOwn(chain: BlockLogs, mech: string, start: Block, ticks: seq<Tick>, i: nat)
    requires i < |TickedAll(chain, mech, start, ticks).done|
    ensures exists k :: 0 <= k < |ticks| && DoneBy(TickedAll(chain, mech, start, ticks).done[i], ticks[k])
  {
    var n := |ticks| - 1;
    var before := TickedAll(chain, mech, start, ticks[..n]);
    if i < |before.done| {
      TicksSplitTheirOwn(chain, mech, start, ticks[..n], i);
      var k :| 0 <= k < n && DoneBy(before.done[i], ticks[..n][k]);
      assert DoneBy(before.done[i], ticks[k]);
    } else {
      assert DoneBy(TickedAll(chain, mech, start, ticks).done[i], ticks[n]);
    }
  }

  /** Two completed ticks never share a block. */
  lemma {:induction false} RangesAreDisjoint(start: Block, done: seq<Done>, cursor: Block, i: nat, j: nat)
    requires Partition(start, done, cursor) && i < j < |done|
    ensures start <= done[i].lo < done[i].hi <= done[j].lo < done[j].hi <= cursor
    decreases |done|
  {
    RangeInside(start, done, cursor, j);
    var n := |done| - 1;
    if j < n {
      RangeInside(start, done, cursor, n);
      RangesAreDisjoint(start, done[..n], done[n].lo, i, j);
    } else {
      RangeInside(start, done[..n], done[n].lo, i);
    }
  }

  lemma {:induction false} RangeInside(start: Block, done: seq<Done>, cursor: Block, i: nat)
    requires Partition(start, done, cursor) && i < |done|
    ensures start <= done[i].lo < done[i].hi <= cursor
    decreases |done|
  {
    var n := |done| - 1;
    if i < n {
      RangeInside(start, done[..n], done[n].lo, i);
    } else if n > 0 {
      RangeInside(start, done[..n], done[n].lo, n - 1);
    }
  }

  // ---------- as it runs ----------

  /** The log query over [lo, hi): the logs whose priority mech is `mech`, block by block. */
  function QueriedLogs(chain: BlockLogs, mech: string, lo: Block, hi: Block): seq<(Block, Log)> {
    if hi <= lo then [] else QueriedLogs(chain, mech, lo, hi - 1) + MechLogs(mech, chain(hi - 1), hi - 1)
  }

  function MechLogs(mech: string, logs: seq<Log>, block: Block): seq<(Block, Log)> {
    if logs == [] then []
    else
      var n := |logs| - 1;
      MechLogs(mech, logs[..n], block) + if logs[n].priorityMech == mech then [(block, logs[n])] else []
  }

  function Flat(logs: seq<(Block, Log)>): seq<Detected> {
    if logs == [] then []
    else
      var n := |logs| - 1;
      Flat(logs[..n]) + Requests(logs[n].1, logs[n].0)
  }

  lemma Associative<T>(a: seq<T>, b: seq<T>, c: seq<T>)
    ensures (a + b) + c == a + (b + c)
  {
  }

  lemma {:induction false} FlatConcat(a: seq<(Block, Log)>, b: seq<(Block, Log)>)
    ensures Flat(a + b) == Flat(a) + Flat(b)
  {
    if b == [] {
      assert a + b == a;
    } else {
      var n := |b| - 1;
      assert (a + b)[..|a + b| - 1] == a + b[..n] && (a + b)[|a + b| - 1] == b[n];
      FlatConcat(a, b[..n]);
      Associative(Flat(a), Flat(b[..n]), Requests(b[n].1, b[n].0));
    }
  }

  lemma {:induction false} FlatMechLogs(mech: string, logs: seq<Log>, block: Block)
    ensures Flat(MechLogs(mech, logs, block)) == OwnIn(mech, logs, block)
  {
    if logs != [] {
      var n := |logs| - 1;
      FlatMechLogs(mech, logs[..n], block);
      var more := if logs[n].priorityMech == mech then [(block, logs[n])] else [];
      FlatConcat(MechLogs(mech, logs[..n], block), more);
      assert more != [] ==> more[..0] == [];
      assert Flat(more) == if logs[n].priorityMech == mech then Requests(logs[n], block) else [];
    }
  }

  lemma {:induction false} FlatQueriedLogs(chain: BlockLogs, mech: string, lo: Block, hi: Block)
    ensures Flat(QueriedLogs(chain, mech, lo, hi)) == Own(chain, mech, lo, hi)
  {
    if hi > lo {
      var block := hi - 1;
      var logs := chain(block);
      FlatQueriedLogs(chain, mech, lo, block);
      FlatMechLogs(mech, logs, block);
      FlatConcat(QueriedLogs(chain, mech, lo, block), MechLogs(mech, logs, block));
      assert QueriedLogs(chain, mech, lo, hi) == QueriedLogs(chain, mech, lo, block) + MechLogs(mech, logs, block);
    }
  }

  /** The inner loop: the requests of one log, after those found so far. */
  method WithRequests(found: seq<Detected>, log: Log, block: Block) returns (detected: seq<Detected>)
    requires log.ids.Some? && log.datas.Some? && log.requester.Some?
    ensures detected == found + Requests(log, block)
  {
    var ids, datas := log.ids.value, log.datas.value;
    ghost var own := Requests(log, block);
    detected := found;
    for i := 0 to |ids|
      invariant detected == found + own[..i]
    {
      var data := if i < |datas| then Some(datas[i]) else None;
      detected := detected + [Detected(ids[i], data, log.requester.value, block)];
      assert own[..i + 1] == own[..i] + [own[i]];
    }
    assert own[..|ids|] == own;
  }

  method PollForOwnRequests(chain: BlockLogs, mech: string, lo: Block, hi: Block) returns (detected: seq<Detected>)
    ensures detected == Own(chain, mech, lo, hi)
    ensures Detects(chain, mech, lo, hi, detected)
  {
    var logs := QueriedLogs(chain, mech, lo, hi);
    detected := [];
    for l := 0 to |logs|
      invariant detected == Flat(logs[..l])
    {
      assert logs[..l + 1][..l] == logs[..l];
      var (block, log) := logs[l];
      if log.ids.None? || log.datas.None? || log.requester.None? {
        assert Flat(logs[..l + 1]) == Flat(logs[..l]) + [];
        continue;
      }
      detected := WithRequests(detected, log, block);
    }
    assert logs[..|logs|] == logs;
    FlatQueriedLogs(chain, mech, lo, hi);
    ghost var at := OwnDetects(chain, mech, lo, hi);
  }

  // One batch handed to the signed delivery: parallel lists of request ids and response hashes.
  datatype Batch = Batch(ids: seq<string>, hashes: seq<string>)

  predicate Aligned(b: Batch, routed: seq<Routed>) {
    && |b.ids| == |b.hashes| == |routed|
    && forall i :: 0 <= i < |routed| ==> b.ids[i] == routed[i].id && b.hashes[i] == routed[i].responseHash
  }

  class PollLoop {
    const chain: BlockLogs
    const mech: string
    var cursor: Block
    var done: seq<Done>
    var delivered: seq<Batch>

    constructor (chain: BlockLogs, mech: string, start: Block)
      ensures this.chain == chain && this.mech == mech
      ensures cursor == start && done == [] && delivered == []
    {
      this.chain, this.mech := chain, mech;
      cursor, done, delivered := start, [], [];
    }

    /** The routing loop and the batch it leaves to deliver. */
    method Respond(detected: seq<Detected>, answers: nat -> Answer) returns (split: Split, batch: Option<Batch>)
      ensures split == SplitOf(detected, answers)
      ensures batch.Some? <==> split.routed != []
      ensures batch.Some? ==> Aligned(batch.value, split.routed)
    {
      var routed: seq<Routed>, errors: seq<RoutingError> := [], [];
      for i := 0 to |detected|
        invariant Split(routed, errors) == SplitOf(detected[..i], answers)
      {
        assert detected[..i + 1][..i] == detected[..i];
        match answers(i)
        case Pinned(h) => routed := routed + [Routed(detected[i].id, h)];
        case RoutingFailed(e) => errors := errors + [RoutingError(detected[i].id, e)];
      }
      assert detected[..|detected|] == detected;
      split := Split(routed, errors);
      if |routed| == 0 {
        return split, None;
      }
      var ids := seq(|routed|, i requires 0 <= i < |routed| => routed[i].id);
      var hashes := seq(|routed|, i requires 0 <= i < |routed| => routed[i].responseHash);
      return split, Some(Batch(ids, hashes));
    }

    method PollAndRespond(lo: Block, hi: Block, answers: nat -> Answer)
        returns (detected: seq<Detected>, split: Split, batch: Option<Batch>)
      ensures detected == Own(chain, mech, lo, hi) && split == SplitOf(detected, answers)
      ensures batch.Some? <==> split.routed != []
      ensures batch.Some? ==> Aligned(batch.value, split.routed)
    {
      detected := PollForOwnRequests(chain, mech, lo, hi);
      split, batch := Respond(detected, answers);
    }

    ghost predicate DeliveredAligned()
      reads this
    {
      && |delivered| == |Answering(done)|
      && forall k :: 0 <= k < |delivered| ==> Aligned(delivered[k], Answering(done)[k])
    }

    /** One turn of the loop. */
    method Turn(t: Tick)
      requires DeliveredAligned()
      modifies this
      ensures Loop(cursor, done) == Ticked(chain, mech, old(Loop(cursor, done)), t)
      ensures cursor == if Goes(t, old(cursor)) then t.head.value + 1 else old(cursor)
      ensures DeliveredAligned()
    {
      if t.head.None? || t.head.value < cursor || t.throws {
        return;
      }
      var detected, split, batch := PollAndRespond(cursor, t.head.value + 1, t.answers);
      ghost var before := done;
      done := done + [Done(cursor, t.head.value + 1, detected, split)];
      assert done[..|done| - 1] == before;
      if batch.Some? {
        delivered := delivered + [batch.value];
      }
      cursor := t.head.value + 1;
    }

    /** A bounded stretch of the endless loop, one entry of `ticks` a turn. */
    method RunPollLoop(ticks: seq<Tick>)
      requires done == [] && delivered == []
      modifies this
      ensures Loop(cursor, done) == TickedAll(chain, mech, old(cursor), ticks)
      ensures Partition(old(cursor), done, cursor) && AllDetected(done) == Own(chain, mech, old(cursor), cursor)
      ensures DeliveredAligned()
    {
      ghost var start := cursor;
      for i := 0 to |ticks|
        invariant Loop(cursor, done) == TickedAll(chain, mech, start, ticks[..i])
        invariant DeliveredAligned()
      {
        assert ticks[..i + 1][..i] == ticks[..i];
        Turn(ticks[i]);
      }
      assert ticks[..|ticks|] == ticks;
      TicksCoverTheChain(chain, mech, start, ticks);
    }
  }

  /** The routed lists of the ticks that had anything to deliver. */
  function Answering(done: seq<Done>): seq<seq<Routed>> {
    if done == [] then []
    else
      var n := |done| - 1;
      Answering(done[..n]) + if done[n].split.routed != [] then [done[n].split.routed] else []
  }
}
