/** The headless browser guard: a lock made of chained promises, around a sliding-window rate limit
    and a page counter that decides when the browser is recycled. */
module RenderLock {

  const RATE_LIMIT_PER_HOUR: int := 30
  const HOUR_MS: int := 60 * 60 * 1000
  const BROWSER_RESTART_THRESHOLD: nat := 20
  const MAX_SUBPAGES: nat := 5

  // ---------- the guarded fields ----------

  datatype Guarded = Guarded(timestamps: seq<int>, browser: bool, pageCount: nat)

  /** The entries of `ts` newer than `cutoff`, in order. */
  function Newer(ts: seq<int>, cutoff: int): seq<int> {
    if ts == [] then []
    else if ts[0] > cutoff then [ts[0]] + Newer(ts[1..], cutoff)
    else Newer(ts[1..], cutoff)
  }

  function Pruned(g: Guarded, now: int): Guarded {
    g.(timestamps := Newer(g.timestamps, now - HOUR_MS))
  }

  predicate Limited(g: Guarded, now: int) {
    |Pruned(g, now).timestamps| >= RATE_LIMIT_PER_HOUR
  }

  predicate NeedsLaunch(g: Guarded) {
    !g.browser || g.pageCount >= BROWSER_RESTART_THRESHOLD
  }

  /** The browser after it was made sure of; `launches` says whether a launch succeeds. */
  function Ensured(g: Guarded, launches: bool): Guarded {
    if !NeedsLaunch(g) then g
    else if launches then g.(browser := true, pageCount := 0)
    else if g.browser then g.(browser := false, pageCount := 0)
    else g
  }

  function Closed(g: Guarded): Guarded {
    if g.browser then g.(browser := false, pageCount := 0) else g
  }

  // How one render inside the lock goes: whether a launch succeeds, how many subpages give text, whether
  // the page gives enough text, and the time when it is done.
  datatype Render = Render(launches: bool, subpages: nat, enough: bool, doneAt: int)

  class HeadlessBrowserResolver {
    var timestamps: seq<int>
    var browser: bool
    var pageCount: nat

    constructor ()
      ensures View() == Guarded([], false, 0)
    {
      timestamps, browser, pageCount := [], false, 0;
    }

    function View(): Guarded
      reads this
    {
      Guarded(timestamps, browser, pageCount)
    }

    method IsRateLimited(now: int) returns (limited: bool)
      modifies this
      ensures limited == Limited(old(View()), now) && View() == Pruned(old(View()), now)
    {
      timestamps := Newer(timestamps, now - HOUR_MS);
      limited := |timestamps| >= RATE_LIMIT_PER_HOUR;
    }

    method RecordRateLimitHit(now: int)
      modifies this
      ensures View() == old(View()).(timestamps := old(timestamps) + [now])
    {
      timestamps := timestamps + [now];
    }

    method Close()
      modifies this
      ensures View() == Closed(old(View())) && !browser
    {
      if browser {
        browser := false;
        pageCount := 0;
      }
    }

    /** The pages of the browser a render starts with: none in one that is yet to be launched. */
    function PagesOfCurrent(): nat
      reads this
    {
      if browser && pageCount < 20 then pageCount else 0
    }

    method EnsureBrowser(launches: bool) returns (ok: bool)
      modifies this
      ensures View() == Ensured(old(View()), launches)
      ensures ok <==> !NeedsLaunch(old(View())) || launches
      ensures browser == ok
      ensures pageCount == if !ok && !old(browser) then old(pageCount) else old(PagesOfCurrent())
    {
      if browser && pageCount < BROWSER_RESTART_THRESHOLD {
        return true;
      }
      if browser {
        Close();
      }
      if !launches {
        return false;
      }
      browser := true;
      pageCount := 0;
      return true;
    }

    /** A whole render of a page under the lock: it is recorded exactly when the limit leaves room, a browser
        is there and the text suffices, and then at most thirty records are kept. */
    method ResolveImpl(now: int, r: Render) returns (rendered: bool)
      requires r.subpages <= MAX_SUBPAGES
      modifies this
      ensures rendered <==> !Limited(old(View()), now) && (!NeedsLaunch(old(View())) || r.launches) && r.enough
      ensures timestamps == Pruned(old(View()), now).timestamps + if rendered then [r.doneAt] else []
      ensures rendered ==> |timestamps| <= RATE_LIMIT_PER_HOUR
      ensures pageCount <= old(pageCount) || pageCount <= BROWSER_RESTART_THRESHOLD + MAX_SUBPAGES
      ensures rendered ==> browser && pageCount == old(PagesOfCurrent()) + r.subpages + 1
    {
      var limited := IsRateLimited(now);
      if limited {
        return false;
      }
      var ok := EnsureBrowser(r.launches);
      if !ok {
        return false;
      }
      pageCount := pageCount + r.subpages;
      pageCount := pageCount + 1;
      if !r.enough {
        return false;
      }
      RecordRateLimitHit(r.doneAt);
      return true;
    }
  }

  // ---------- callers ----------

  datatype Kind = ForText | ForLinks

  datatype Stage =
    | Queued
    | Inside          // holds the lock; nothing checked yet
    | Cleared         // under the limit
    | Ready(subpages: nat)
    | Rendered        // page counted, hit not recorded
    | Finishing       // hit recorded, or turned away

  // waitsFor is the promise the caller found in the lock when it arrived.
  datatype Caller = Caller(kind: Kind, stage: Stage, waitsFor: nat)

  // Tickets count from 1 and name the promises their callers make; promise 0 is resolved from the start
  // and `tail` is the promise stored in the lock.
  // `admitted` are the tickets in the order they got the lock, `hits` all renders ever recorded.
  datatype State = State(
    clock: int, issued: nat, tail: nat, released: set<nat>, admitted: seq<nat>, callers: map<nat, Caller>,
    g: Guarded, hits: seq<int>)

  datatype Step =
    | Elapse(now: int)
    | Arrive(kind: Kind)
    | Resume(ticket: nat, aborted: bool)
    | Leave(ticket: nat)
    | Check(ticket: nat)
    | EnsureBrowser(ticket: nat, launches: bool)
    | Subpage(ticket: nat)
    | PageDone(ticket: nat)
    | Record(ticket: nat)
    | LinksDone(ticket: nat)
    | CloseBrowser

  predicate Holds(s: State, ticket: nat, stage: Stage) {
    ticket in s.callers && s.callers[ticket].stage == stage
  }

  predicate Enabled(s: State, step: Step) {
    match step
    case Elapse(now) => s.clock <= now
    case Arrive(_) => true
    case Resume(t, aborted) =>
      Holds(s, t, Queued) && s.callers[t].waitsFor in s.released && (aborted ==> s.callers[t].kind.ForText?)
    case Leave(t) => t in s.callers && !s.callers[t].stage.Queued?
    case Check(t) => Holds(s, t, Inside)
    case EnsureBrowser(t, _) => Holds(s, t, Cleared)
    case Subpage(t) =>
      && t in s.callers && s.callers[t].kind.ForText?
      && s.callers[t].stage.Ready? && s.callers[t].stage.subpages < MAX_SUBPAGES
    case PageDone(t) => t in s.callers && s.callers[t].kind.ForText? && s.callers[t].stage.Ready?
    case Record(t) => Holds(s, t, Rendered)
    case LinksDone(t) => t in s.callers && s.callers[t].kind.ForLinks? && s.callers[t].stage.Ready?
    case CloseBrowser => true
  }

  function At(s: State, ticket: nat, stage: Stage): State
    requires ticket in s.callers
  {
    s.(callers := s.callers[ticket := s.callers[ticket].(stage := stage)])
  }

  function Release(s: State, ticket: nat): State {
    s.(released := s.released + {ticket}, callers := s.callers - {ticket})
  }

  function Hit(s: State): State {
    s.(g := s.g.(timestamps := s.g.timestamps + [s.clock]), hits := s.hits + [s.clock])
  }

  function Apply(s: State, step: Step): State
    requires Enabled(s, step)
  {
    match step
    case Elapse(now) => s.(clock := now)
    case Arrive(kind) =>
      var ticket := s.issued + 1;
      s.(issued := ticket, tail := ticket, callers := s.callers[ticket := Caller(kind, Queued, s.tail)])
    case Resume(t, aborted) =>
      var s1 := s.(admitted := s.admitted + [t]);
      if aborted then Release(s1, t) else At(s1, t, Inside)
    case Leave(t) => Release(s, t)
    case Check(t) => At(s.(g := Pruned(s.g, s.clock)), t, if Limited(s.g, s.clock) then Finishing else Cleared)
    case EnsureBrowser(t, launches) =>
      At(s.(g := Ensured(s.g, launches)), t, if NeedsLaunch(s.g) && !launches then Finishing else Ready(0))
    case Subpage(t) =>
      At(s.(g := s.g.(pageCount := s.g.pageCount + 1)), t, Ready(s.callers[t].stage.subpages + 1))
    case PageDone(t) => At(s.(g := s.g.(pageCount := s.g.pageCount + 1)), t, Rendered)
    case Record(t) => At(Hit(s), t, Finishing)
    case LinksDone(t) => At(Hit(s.(g := s.g.(pageCount := s.g.pageCount + 1))), t, Finishing)
    case CloseBrowser => s.(g := Closed(s.g))
  }

  predicate Init(s: State) {
    && s.issued == 0 && s.tail == 0 && s.released == {0} && s.admitted == [] && s.callers == map[]
    && s.g == Guarded([], false, 0) && s.hits == []
  }

  ghost predicate Run(states: seq<State>, steps: seq<Step>) {
    && |states| == |steps| + 1 && Init(states[0])
    && forall i :: 0 <= i < |steps| ==> Enabled(states[i], steps[i]) && states[i + 1] == Apply(states[i], steps[i])
  }

  // ---------- the lock ----------

  /** Released are exactly the tickets up to `last`; every later ticket issued is still out, and waits
      for the one before it. */
  ghost predicate Queueing(s: State, last: nat) {
    && last <= s.issued && s.tail == s.issued
    && (forall t: nat :: t in s.released <==> t <= last)
    && (forall t: nat :: t in s.callers <==> last < t <= s.issued)
    && (forall t :: t in s.callers ==> s.callers[t].waitsFor == t - 1)
  }

  /** Only the next ticket may be past the queue, and tickets were admitted in order. */
  ghost predicate LockedAt(s: State, last: nat) {
    && Queueing(s, last)
    && (forall t :: t in s.callers && !s.callers[t].stage.Queued? ==> t == last + 1)
    && (forall i :: 0 <= i < |s.admitted| ==> s.admitted[i] == i + 1)
    && |s.admitted| == (if InSection(s, last + 1) then last + 1 else last)
  }

  predicate Frees(step: Step) {
    step.Leave? || (step.Resume? && step.aborted)
  }

  lemma StepKeepsQueueing(s: State, step: Step, last: nat)
    requires LockedAt(s, last) && Enabled(s, step)
    ensures Queueing(Apply(s, step), if Frees(step) then last + 1 else last)
    ensures Frees(step) ==> step.ticket == last + 1 && step.ticket !in s.released
  {
  }

  lemma StepKeepsEntry(s: State, step: Step, last: nat)
    requires LockedAt(s, last) && Enabled(s, step) && !Frees(step)
    ensures LockedAt(Apply(s, step), last)
  {
    StepKeepsQueueing(s, step, last);
  }

  lemma FreeingKeepsEntry(s: State, step: Step, last: nat)
    requires LockedAt(s, last) && Enabled(s, step) && Frees(step)
    ensures LockedAt(Apply(s, step), last + 1)
  {
    StepKeepsQueueing(s, step, last);
  }

  lemma StepKeepsLocked(s: State, step: Step, last: nat) returns (last': nat)
    requires LockedAt(s, last) && Enabled(s, step)
    ensures LockedAt(Apply(s, step), last')
    ensures last' == if Frees(step) then last + 1 else last
    ensures Frees(step) ==> step.ticket == last + 1 && step.ticket !in s.released
  {
    StepKeepsQueueing(s, step, last);
    if Frees(step) {
      FreeingKeepsEntry(s, step, last);
      return last + 1;
    }
    StepKeepsEntry(s, step, last);
    return last;
  }

  predicate InSection(s: State, ticket: nat) {
    ticket in s.callers && !s.callers[ticket].stage.Queued?
  }

  ghost predicate Locked(s: State) {
    exists last :: LockedAt(s, last)
  }

  predicate Alone(s: State) {
    forall t, u :: t in s.callers && u in s.callers && InSection(s, t) && InSection(s, u) ==> t == u
  }

  lemma LockedIsAlone(s: State)
    requires Locked(s)
    ensures Alone(s)
  {
    var last :| LockedAt(s, last);
  }

  /** In every run at most one caller is past the queue, callers get the lock in the order they
      arrived, each ticket is released once, and the released tickets are always a prefix. */
  lemma {:induction false} RunIsLocked(states: seq<State>, steps: seq<Step>, n: nat)
    requires Run(states, steps) && n < |states|
    ensures Locked(states[n])
    ensures forall t, u :: InSection(states[n], t) && InSection(states[n], u) ==> t == u
  {
    if n == 0 {
      assert LockedAt(states[0], 0);
    } else {
      RunIsLocked(states, steps, n - 1);
      var last :| LockedAt(states[n - 1], last);
      var last' := StepKeepsLocked(states[n - 1], steps[n - 1], last);
    }
  }

  // ---------- the rate limit ----------

  ghost predicate Sorted(ts: seq<int>) {
    forall i, j :: 0 <= i < j < |ts| ==> ts[i] <= ts[j]
  }

  /** Any 31 renders recorded one after the other span at least an hour. */
  ghost predicate Spaced(hits: seq<int>) {
    forall i :: 0 <= i && i + RATE_LIMIT_PER_HOUR < |hits| ==> hits[i] + HOUR_MS <= hits[i + RATE_LIMIT_PER_HOUR]
  }

  /** There is room for one more render now. */
  predicate Room(hits: seq<int>, now: int) {
    |hits| >= RATE_LIMIT_PER_HOUR ==> hits[|hits| - RATE_LIMIT_PER_HOUR] <= now - HOUR_MS
  }

  predicate PastCheck(stage: Stage) {
    stage.Cleared? || stage.Ready? || stage.Rendered?
  }

  /** What the limiter keeps is the end of the history, and what it dropped is over an hour old. */
  ghost predicate KeepsRecent(ts: seq<int>, hits: seq<int>, now: int) {
    var dropped := |hits| - |ts|;
    dropped >= 0 && ts == hits[dropped..] && forall i :: 0 <= i < dropped ==> hits[i] <= now - HOUR_MS
  }

  ghost predicate RateKept(s: State) {
    && Sorted(s.hits) && (forall i :: 0 <= i < |s.hits| ==> s.hits[i] <= s.clock)
    && Spaced(s.hits)
    && KeepsRecent(s.g.timestamps, s.hits, s.clock)
    && (forall t :: t in s.callers && PastCheck(s.callers[t].stage) ==> Room(s.hits, s.clock))
  }

  lemma {:induction false} AllNewer(ts: seq<int>, cutoff: int)
    requires forall i :: 0 <= i < |ts| ==> ts[i] > cutoff
    ensures Newer(ts, cutoff) == ts
  {
    if ts != [] {
      AllNewer(ts[1..], cutoff);
    }
  }

  lemma {:induction false} NewerIsSuffix(ts: seq<int>, cutoff: int)
    requires Sorted(ts)
    ensures var kept := Newer(ts, cutoff);
      && |kept| <= |ts| && kept == ts[|ts| - |kept|..]
      && forall i :: 0 <= i < |ts| - |kept| ==> ts[i] <= cutoff
  {
    if ts != [] {
      if ts[0] > cutoff {
        AllNewer(ts, cutoff);
      } else {
        NewerIsSuffix(ts[1..], cutoff);
        forall i | 0 <= i < |ts| - |Newer(ts, cutoff)|
          ensures ts[i] <= cutoff
        {
          assert i > 0 ==> ts[i] == ts[1..][i - 1];
        }
      }
    }
  }

  lemma PruningKeepsRecent(ts: seq<int>, hits: seq<int>, now: int)
    requires Sorted(hits) && KeepsRecent(ts, hits, now)
    ensures KeepsRecent(Newer(ts, now - HOUR_MS), hits, now)
  {
    var kept := Newer(ts, now - HOUR_MS);
    NewerIsSuffix(ts, now - HOUR_MS);
    var before, after := |hits| - |ts|, |hits| - |kept|;
    assert kept == hits[after..];
    forall i | 0 <= i < after
      ensures hits[i] <= now - HOUR_MS
    {
      if i >= before {
        assert hits[i] == ts[i - before];
      }
    }
  }

  lemma UnlimitedHasRoom(g: Guarded, hits: seq<int>, now: int)
    requires KeepsRecent(Newer(g.timestamps, now - HOUR_MS), hits, now) && !Limited(g, now)
    ensures Room(hits, now)
  {
  }

  lemma PrunedKeepsRate(s: State, after: State, ticket: nat)
    requires RateKept(s) && after.hits == s.hits && after.clock == s.clock
    requires KeepsRecent(after.g.timestamps, s.hits, s.clock)
    requires forall t :: t in after.callers && t != ticket ==> t in s.callers && after.callers[t] == s.callers[t]
    requires ticket in after.callers && PastCheck(after.callers[ticket].stage) ==> Room(s.hits, s.clock)
    ensures RateKept(after)
  {
    forall t | t in after.callers && PastCheck(after.callers[t].stage)
      ensures Room(after.hits, after.clock)
    {
      assert t != ticket ==> t in s.callers && PastCheck(s.callers[t].stage);
    }
  }

  lemma CheckEffect(s: State, ticket: nat)
    requires Enabled(s, Check(ticket))
    ensures var after := Apply(s, Check(ticket));
      && after.hits == s.hits && after.clock == s.clock
      && after.g.timestamps == Newer(s.g.timestamps, s.clock - HOUR_MS)
      && (forall t :: t in after.callers && t != ticket ==> t in s.callers && after.callers[t] == s.callers[t])
      && ticket in after.callers && (PastCheck(after.callers[ticket].stage) <==> !Limited(s.g, s.clock))
  {
  }

  lemma CheckKeepsRate(s: State, ticket: nat)
    requires RateKept(s) && Enabled(s, Check(ticket))
    ensures RateKept(Apply(s, Check(ticket)))
  {
    CheckEffect(s, ticket);
    CheckedKeepsRate(s, Apply(s, Check(ticket)), ticket);
  }

  lemma CheckedKeepsRate(s: State, after: State, ticket: nat)
    requires RateKept(s) && after.hits == s.hits && after.clock == s.clock
    requires after.g.timestamps == Newer(s.g.timestamps, s.clock - HOUR_MS)
    requires forall t :: t in after.callers && t != ticket ==> t in s.callers && after.callers[t] == s.callers[t]
    requires ticket in after.callers && (PastCheck(after.callers[ticket].stage) <==> !Limited(s.g, s.clock))
    ensures RateKept(after)
  {
    PruningKeepsRecent(s.g.timestamps, s.hits, s.clock);
    if !Limited(s.g, s.clock) {
      UnlimitedHasRoom(s.g, s.hits, s.clock);
    }
    PrunedKeepsRate(s, after, ticket);
  }

  lemma HitKeepsRate(s: State, s': State)
    requires RateKept(s) && Room(s.hits, s.clock)
    requires s'.hits == s.hits + [s.clock] && s'.g.timestamps == s.g.timestamps + [s.clock] && s'.clock == s.clock
    requires forall t :: t in s'.callers ==> !PastCheck(s'.callers[t].stage)
    ensures RateKept(s')
  {
    forall i | 0 <= i && i + RATE_LIMIT_PER_HOUR < |s'.hits|
      ensures s'.hits[i] + HOUR_MS <= s'.hits[i + RATE_LIMIT_PER_HOUR]
    {
    }
  }

  lemma StepKeepsRate(s: State, step: Step)
    requires Alone(s) && RateKept(s) && Enabled(s, step)
    ensures RateKept(Apply(s, step))
  {
    if step.Check? {
      CheckKeepsRate(s, step.ticket);
    } else if step.Record? || step.LinksDone? {
      RecordKeepsRate(s, step);
    } else {
      OtherKeepsRate(s, step);
    }
  }

  lemma RecordKeepsRate(s: State, step: Step)
    requires Alone(s) && RateKept(s) && Enabled(s, step) && (step.Record? || step.LinksDone?)
    ensures RateKept(Apply(s, step))
  {
    assert InSection(s, step.ticket);
    HitKeepsRate(s, Apply(s, step));
  }

  lemma OtherKeepsRate(s: State, step: Step)
    requires RateKept(s) && Enabled(s, step) && !step.Check? && !step.Record? && !step.LinksDone?
    ensures RateKept(Apply(s, step))
  {
    var after := Apply(s, step);
    assert after.hits == s.hits && after.g.timestamps == s.g.timestamps && s.clock <= after.clock;
    assert forall t :: t in after.callers && PastCheck(after.callers[t].stage) ==>
      t in s.callers && PastCheck(s.callers[t].stage);
  }

  lemma LimitedIffFull(s: State)
    requires RateKept(s)
    ensures Limited(s.g, s.clock) <==> !Room(s.hits, s.clock)
  {
    PruningKeepsRecent(s.g.timestamps, s.hits, s.clock);
    NewerAreNewer(s.g.timestamps, s.clock - HOUR_MS);
    KeptIffRecent(Newer(s.g.timestamps, s.clock - HOUR_MS), s.hits, s.clock);
  }

  lemma {:induction false} NewerAreNewer(ts: seq<int>, cutoff: int)
    ensures forall i :: 0 <= i < |Newer(ts, cutoff)| ==> Newer(ts, cutoff)[i] > cutoff
  {
    if ts != [] {
      NewerAreNewer(ts[1..], cutoff);
    }
  }

  lemma KeptIffRecent(kept: seq<int>, hits: seq<int>, now: int)
    requires KeepsRecent(kept, hits, now) && forall i :: 0 <= i < |kept| ==> kept[i] > now - HOUR_MS
    ensures |kept| >= RATE_LIMIT_PER_HOUR <==> !Room(hits, now)
  {
    if |kept| >= RATE_LIMIT_PER_HOUR {
      assert hits[|hits| - RATE_LIMIT_PER_HOUR] == kept[|kept| - RATE_LIMIT_PER_HOUR];
    }
  }

  /** In every run a caller is turned away at the check exactly when the last thirty renders, of all that were
      ever recorded, were recorded within an hour. */
  lemma TurnedAwayIff(states: seq<State>, steps: seq<Step>, n: nat)
    requires Run(states, steps) && n < |steps| && steps[n].Check?
    ensures var hits := states[n].hits;
      Holds(states[n + 1], steps[n].ticket, Finishing) <==>
        |hits| >= 30 && hits[|hits| - 30] > states[n].clock - 60 * 60 * 1000
  {
    RunKeepsRate(states, steps, n);
    LimitedIffFull(states[n]);
  }

  lemma SpacedWindows(hits: seq<int>, i: nat, j: nat)
    requires Sorted(hits) && Spaced(hits) && i <= j < |hits|
    ensures hits[j] - hits[i] < HOUR_MS ==> j - i + 1 <= RATE_LIMIT_PER_HOUR
  {
    if j - i >= RATE_LIMIT_PER_HOUR {
      assert hits[i + RATE_LIMIT_PER_HOUR] <= hits[j];
    }
  }

  /** In every run, renders recorded within less than an hour of each other number at most 30. */
  lemma AtMostThirtyAnHour(states: seq<State>, steps: seq<Step>, n: nat, i: nat, j: nat)
    requires Run(states, steps) && n < |states| && i <= j < |states[n].hits|
    ensures states[n].hits[j] - states[n].hits[i] < HOUR_MS ==> j - i + 1 <= RATE_LIMIT_PER_HOUR
  {
    RunKeepsRate(states, steps, n);
    SpacedWindows(states[n].hits, i, j);
  }

  lemma {:induction false} RunKeepsRate(states: seq<State>, steps: seq<Step>, n: nat)
    requires Run(states, steps) && n < |states|
    ensures RateKept(states[n])
  {
    if n > 0 {
      RunKeepsRate(states, steps, n - 1);
      RunIsLocked(states, steps, n - 1);
      LockedIsAlone(states[n - 1]);
      StepKeepsRate(states[n - 1], steps[n - 1]);
    }
  }

  // ---------- the page counter ----------

  ghost predicate PagesKept(s: State) {
    && s.g.pageCount <= BROWSER_RESTART_THRESHOLD - 1 + MAX_SUBPAGES + 1
    && forall t :: t in s.callers && s.callers[t].stage.Ready? ==>
         s.callers[t].stage.subpages <= MAX_SUBPAGES
         && s.g.pageCount <= BROWSER_RESTART_THRESHOLD - 1 + s.callers[t].stage.subpages
  }

  lemma StepKeepsPages(s: State, step: Step)
    requires Alone(s) && PagesKept(s) && Enabled(s, step)
    ensures PagesKept(Apply(s, step))
  {
  }

  /** In every run the page counter stays within one full render past the recycling threshold. */
  lemma {:induction false} PageCountIsBounded(states: seq<State>, steps: seq<Step>, n: nat)
    requires Run(states, steps) && n < |states|
    ensures PagesKept(states[n]) && states[n].g.pageCount <= 25
  {
    if n > 0 {
      PageCountIsBounded(states, steps, n - 1);
      RunIsLocked(states, steps, n - 1);
      LockedIsAlone(states[n - 1]);
      StepKeepsPages(states[n - 1], steps[n - 1]);
    }
  }
}
