/** Token accounting of one pipeline run: the tracker, the split by stage and the persisted events. */
module Costs {

  datatype Stage = L1 | L2 | L3

  datatype Tokens = Tokens(input: int, output: int) {
    function Plus(t: Tokens): Tokens {
      Tokens(input + t.input, output + t.output)
    }

    function Minus(t: Tokens): Tokens {
      Tokens(input - t.input, output - t.output)
    }
  }

  const NONE: Tokens := Tokens(0, 0)

  datatype Prices = Prices(inputPerToken: real, outputPerToken: real)

  function CostUsd(p: Prices, t: Tokens): real {
    t.input as real * p.inputPerToken + t.output as real * p.outputPerToken
  }

  lemma Distributes(m: int, n: int, price: real)
    ensures (m + n) as real * price == m as real * price + n as real * price
  {
    assert (m + n) as real == m as real + n as real;
  }

  lemma CostIsLinear(p: Prices, s: Tokens, t: Tokens)
    ensures CostUsd(p, s.Plus(t)) == CostUsd(p, s) + CostUsd(p, t)
  {
    Distributes(s.input, t.input, p.inputPerToken);
    Distributes(s.output, t.output, p.outputPerToken);
  }

  lemma NothingCostsNothing(p: Prices)
    ensures CostUsd(p, NONE) == 0.0
  {
  }

  // ---------- the tracker ----------

  datatype Usage = Usage(tokens: Tokens, startTime: int, durationMs: int)

  const IDLE: Usage := Usage(NONE, 0, 0)

  datatype Op =
    | StartStage(stage: Stage, now: int)
    | EndStage(stage: Stage, tokens: Tokens, now: int)
    | RecordUsage(tokens: Tokens)
    | ResetStages
    | Reset

  datatype Stages = Stages(l1: Usage, l2: Usage, l3: Usage) {
    function Of(stage: Stage): Usage {
      match stage
      case L1 => l1
      case L2 => l2
      case L3 => l3
    }

    function With(stage: Stage, u: Usage): Stages {
      match stage
      case L1 => this.(l1 := u)
      case L2 => this.(l2 := u)
      case L3 => this.(l3 := u)
    }
  }

  datatype State = State(totals: Tokens, stages: Stages)

  const EMPTY: State := State(NONE, Stages(IDLE, IDLE, IDLE))

  function Ended(u: Usage, tokens: Tokens, now: int): Usage {
    if u.startTime > 0 then Usage(u.tokens.Plus(tokens), 0, u.durationMs + (now - u.startTime))
    else u.(tokens := u.tokens.Plus(tokens))
  }

  function Exec(s: State, op: Op): State {
    match op
    case StartStage(stage, now) => s.(stages := s.stages.With(stage, s.stages.Of(stage).(startTime := now)))
    case EndStage(stage, tokens, now) =>
      State(s.totals.Plus(tokens), s.stages.With(stage, Ended(s.stages.Of(stage), tokens, now)))
    case RecordUsage(tokens) => s.(totals := s.totals.Plus(tokens))
    case ResetStages => s.(stages := EMPTY.stages)
    case Reset => EMPTY
  }

  function ExecAll(s: State, ops: seq<Op>): State {
    if ops == [] then s else Exec(ExecAll(s, ops[..|ops| - 1]), ops[|ops| - 1])
  }

  function Staged(s: State): Tokens {
    s.stages.l1.tokens.Plus(s.stages.l2.tokens).Plus(s.stages.l3.tokens)
  }

  /** The calls after the last Reset. */
  function SinceReset(ops: seq<Op>): seq<Op> {
    if ops == [] || ops[|ops| - 1].Reset? then [] else SinceReset(ops[..|ops| - 1]) + [ops[|ops| - 1]]
  }

  /** The calls before the last ResetStages. */
  function BeforeStagesReset(ops: seq<Op>): seq<Op> {
    if ops == [] then []
    else if ops[|ops| - 1].ResetStages? then ops[..|ops| - 1]
    else BeforeStagesReset(ops[..|ops| - 1])
  }

  function RecordedIn(ops: seq<Op>): Tokens {
    if ops == [] then NONE
    else
      var last := ops[|ops| - 1];
      RecordedIn(ops[..|ops| - 1]).Plus(if last.RecordUsage? then last.tokens else NONE)
  }

  function EndedIn(ops: seq<Op>): Tokens {
    if ops == [] then NONE
    else
      var last := ops[|ops| - 1];
      EndedIn(ops[..|ops| - 1]).Plus(if last.EndStage? then last.tokens else NONE)
  }

  /** Tokens the totals hold and the stages do not, since the last Reset: usage recorded outside a stage,
      and that of stages ended before the stages were last emptied. */
  function Unstaged(ops: seq<Op>): Tokens {
    RecordedIn(SinceReset(ops)).Plus(EndedIn(BeforeStagesReset(SinceReset(ops))))
  }

  lemma SinceResetGrows(ops: seq<Op>)
    requires ops != [] && !ops[|ops| - 1].Reset?
    ensures var before, since, op := SinceReset(ops[..|ops| - 1]), SinceReset(ops), ops[|ops| - 1];
      && RecordedIn(since) == RecordedIn(before).Plus(if op.RecordUsage? then op.tokens else NONE)
      && EndedIn(since) == EndedIn(before).Plus(if op.EndStage? then op.tokens else NONE)
      && BeforeStagesReset(since) == if op.ResetStages? then before else BeforeStagesReset(before)
  {
    var before, since, op := SinceReset(ops[..|ops| - 1]), SinceReset(ops), ops[|ops| - 1];
    assert since == before + [op] && since[..|since| - 1] == before;
  }

  function Adds(op: Op): Tokens {
    if op.RecordUsage? || op.EndStage? then op.tokens else NONE
  }

  lemma ExecTotals(s: State, op: Op)
    ensures Exec(s, op).totals == if op.Reset? then NONE else s.totals.Plus(Adds(op))
  {
  }

  lemma Regroup(recorded: Tokens, ended: Tokens, op: Op)
    requires !op.Reset?
    ensures var record := if op.RecordUsage? then op.tokens else NONE;
      var end := if op.EndStage? then op.tokens else NONE;
      recorded.Plus(ended).Plus(Adds(op)) == recorded.Plus(record).Plus(ended.Plus(end))
  {
  }

  lemma {:induction false} TotalsAreSinceReset(ops: seq<Op>)
    ensures ExecAll(EMPTY, ops).totals == RecordedIn(SinceReset(ops)).Plus(EndedIn(SinceReset(ops)))
  {
    if ops != [] {
      var front, op := ops[..|ops| - 1], ops[|ops| - 1];
      LastStep(ops);
      ExecTotals(ExecAll(EMPTY, front), op);
      if !op.Reset? {
        TotalsAreSinceReset(front);
        SinceResetGrows(ops);
        Regroup(RecordedIn(SinceReset(front)), EndedIn(SinceReset(front)), op);
      }
    }
  }

  lemma {:induction false} StagesMissWhatWasEmptied(ops: seq<Op>)
    ensures Staged(ExecAll(EMPTY, ops)).Plus(EndedIn(BeforeStagesReset(SinceReset(ops)))) == EndedIn(SinceReset(ops))
  {
    if ops != [] {
      var front, op := ops[..|ops| - 1], ops[|ops| - 1];
      LastStep(ops);
      StepKeepsStaged(ExecAll(EMPTY, front), op);
      if !op.Reset? {
        StagesMissWhatWasEmptied(front);
        SinceResetGrows(ops);
      }
    }
  }

  /** The totals are all usage since the last Reset, and are the sum of the three stages and of the
      usage outside them, whatever was called. */
  lemma TotalsAreStagedAndUnstaged(ops: seq<Op>)
    ensures ExecAll(EMPTY, ops).totals == RecordedIn(SinceReset(ops)).Plus(EndedIn(SinceReset(ops)))
    ensures ExecAll(EMPTY, ops).totals == Staged(ExecAll(EMPTY, ops)).Plus(Unstaged(ops))
  {
    TotalsAreSinceReset(ops);
    StagesMissWhatWasEmptied(ops);
    var since := SinceReset(ops);
    Exchange(RecordedIn(since), Staged(ExecAll(EMPTY, ops)), EndedIn(BeforeStagesReset(since)));
  }

  lemma Exchange(r: Tokens, s: Tokens, b: Tokens)
    ensures r.Plus(s.Plus(b)) == s.Plus(r.Plus(b))
  {
  }

  lemma LastStep(ops: seq<Op>)
    requires ops != []
    ensures ExecAll(EMPTY, ops) == Exec(ExecAll(EMPTY, ops[..|ops| - 1]), ops[|ops| - 1])
  {
  }

  /** The time of a stage counts from its start to its end, once: a second end adds tokens but no time. */
  lemma StageTimeCountsOnce(s: State, stage: Stage, started: int, ended: int, later: int, a: Tokens, b: Tokens)
    requires started > 0
    ensures var once := Exec(Exec(s, StartStage(stage, started)), EndStage(stage, a, ended));
      var twice := Exec(once, EndStage(stage, b, later));
      && once.stages.Of(stage).durationMs == s.stages.Of(stage).durationMs + (ended - started)
      && twice.stages.Of(stage).durationMs == once.stages.Of(stage).durationMs
      && twice.stages.Of(stage).tokens == s.stages.Of(stage).tokens.Plus(a).Plus(b)
      && forall other :: other != stage ==> twice.stages.Of(other) == s.stages.Of(other)
  {
  }

  /** Only the end of a stage adds to the stages, and it adds as much to the totals. */
  lemma StepKeepsStaged(s: State, op: Op)
    ensures var r := Exec(s, op);
      && (op.EndStage? ==> Staged(r) == Staged(s).Plus(op.tokens) && r.totals == s.totals.Plus(op.tokens))
      && (op.StartStage? || op.RecordUsage? ==> Staged(r) == Staged(s))
      && (op.ResetStages? || op.Reset? ==>
            forall stage :: r.stages.Of(stage).tokens == NONE && r.stages.Of(stage).startTime == 0
                            && r.stages.Of(stage).durationMs == 0)
      && (op.ResetStages? ==> r.totals == s.totals)
  {
  }

  function SumTokens(calls: seq<Tokens>): Tokens {
    if calls == [] then NONE else SumTokens(calls[..|calls| - 1]).Plus(calls[|calls| - 1])
  }

  /** What the calls cost one by one, input and output each at its own price. */
  function Bill(p: Prices, calls: seq<Tokens>): real {
    if calls == [] then 0.0
    else
      var last := calls[|calls| - 1];
      Bill(p, calls[..|calls| - 1])
      + (last.input as real * p.inputPerToken + last.output as real * p.outputPerToken)
  }

  /** The cost of what a number of calls used together is what they cost one by one. */
  lemma {:induction false} SumCostsTheBill(p: Prices, calls: seq<Tokens>)
    ensures CostUsd(p, SumTokens(calls)) == Bill(p, calls)
  {
    if calls == [] {
      NothingCostsNothing(p);
    } else {
      SumCostsTheBill(p, calls[..|calls| - 1]);
      CostIsLinear(p, SumTokens(calls[..|calls| - 1]), calls[|calls| - 1]);
    }
  }

  class CostTracker {
    const prices: Prices
    var inputTokens: int
    var outputTokens: int
    var stages: Stages

    ghost function View(): State
      reads this
    {
      State(Tokens(inputTokens, outputTokens), stages)
    }

    constructor (prices: Prices)
      ensures View() == EMPTY && this.prices == prices
    {
      this.prices := prices;
      inputTokens, outputTokens := 0, 0;
      stages := Stages(IDLE, IDLE, IDLE);
    }

    method Start(stage: Stage, now: int)
      modifies this
      ensures View() == Exec(old(View()), StartStage(stage, now))
    {
      stages := stages.With(stage, stages.Of(stage).(startTime := now));
    }

    method End(stage: Stage, input: int, output: int, now: int)
      modifies this
      ensures View() == Exec(old(View()), EndStage(stage, Tokens(input, output), now))
    {
      var s := stages.Of(stage);
      s := s.(tokens := Tokens(s.tokens.input + input, s.tokens.output + output));
      if s.startTime > 0 {
        s := s.(durationMs := s.durationMs + (now - s.startTime));
        s := s.(startTime := 0);
      }
      stages := stages.With(stage, s);
      inputTokens := inputTokens + input;
      outputTokens := outputTokens + output;
    }

    method Record(input: int, output: int)
      modifies this
      ensures View() == Exec(old(View()), RecordUsage(Tokens(input, output)))
    {
      inputTokens := inputTokens + input;
      outputTokens := outputTokens + output;
    }

    method ClearStages()
      modifies this
      ensures View() == Exec(old(View()), ResetStages)
    {
      var order := [L1, L2, L3];
      var i := 0;
      while i < 3
        invariant 0 <= i <= 3
        invariant inputTokens == old(inputTokens) && outputTokens == old(outputTokens)
        invariant forall k :: 0 <= k < i ==> stages.Of(order[k]) == IDLE
      {
        stages := stages.With(order[i], IDLE);
        i := i + 1;
      }
      assert stages.Of(order[0]) == IDLE && stages.Of(order[1]) == IDLE && stages.Of(order[2]) == IDLE;
    }

    method Clear()
      modifies this
      ensures View() == EMPTY
    {
      inputTokens, outputTokens := 0, 0;
      ClearStages();
    }

    method TotalTokens() returns (t: Tokens)
      ensures t == View().totals
    {
      t := Tokens(inputTokens, outputTokens);
    }

    method TotalCostUsd() returns (cost: real)
      ensures cost == CostUsd(prices, View().totals)
    {
      cost := inputTokens as real * prices.inputPerToken + outputTokens as real * prices.outputPerToken;
    }

    /** What a caller of the stage interface does around one stage. */
    method TimeStage(stage: Stage, started: int, tokens: Tokens, ended: int)
      requires started > 0
      modifies this
      ensures View().stages.Of(stage).durationMs == old(View()).stages.Of(stage).durationMs + (ended - started)
      ensures View().stages.Of(stage).startTime == 0
      ensures View().totals == old(View()).totals.Plus(tokens)
      ensures Staged(View()) == Staged(old(View())).Plus(tokens)
    {
      ghost var before := View();
      Start(stage, started);
      StepKeepsStaged(before, StartStage(stage, started));
      ghost var running := View();
      End(stage, tokens.input, tokens.output, ended);
      StepKeepsStaged(running, EndStage(stage, tokens, ended));
    }

    /** One stage's calls to the model, each recording what it used. */
    method Spend(calls: seq<Tokens>)
      modifies this
      ensures View() == old(View()).(totals := old(View()).totals.Plus(SumTokens(calls)))
    {
      var i := 0;
      while i < |calls|
        invariant 0 <= i <= |calls|
        invariant View() == old(View()).(totals := old(View()).totals.Plus(SumTokens(calls[..i])))
      {
        Record(calls[i].input, calls[i].output);
        assert calls[..i + 1][..i] == calls[..i];
        i := i + 1;
      }
      assert calls[..i] == calls;
    }
  }

  // ---------- the cost part of a full run ----------

  datatype CostEvent = CostEvent(stage: Stage, tokens: Tokens, costUsd: real)

  function EventFor(p: Prices, stage: Stage, used: Tokens): seq<CostEvent> {
    if used.input > 0 || used.output > 0 then [CostEvent(stage, used, CostUsd(p, used))] else []
  }

  function SumCost(events: seq<CostEvent>): real {
    if events == [] then 0.0 else events[0].costUsd + SumCost(events[1..])
  }

  function SumUsed(events: seq<CostEvent>): Tokens {
    if events == [] then NONE else events[0].tokens.Plus(SumUsed(events[1..]))
  }

  predicate Used(t: Tokens) {
    t.input >= 0 && t.output >= 0
  }

  lemma SumsOfConcat(a: seq<CostEvent>, b: seq<CostEvent>)
    requires |a| <= 1
    ensures SumCost(a + b) == SumCost(a) + SumCost(b)
    ensures SumUsed(a + b) == SumUsed(a).Plus(SumUsed(b))
  {
    if a == [] {
      assert a + b == b;
    } else {
      assert (a + b)[1..] == b && a[1..] == [];
    }
  }

  lemma EventAccountsFor(p: Prices, stage: Stage, used: Tokens)
    requires Used(used)
    ensures SumCost(EventFor(p, stage, used)) == CostUsd(p, used) && SumUsed(EventFor(p, stage, used)) == used
  {
    var e := EventFor(p, stage, used);
    if e == [] {
      NothingCostsNothing(p);
    } else {
      assert e[1..] == [];
    }
  }

  /** Each event names its stage with that stage's usage and its cost, and a stage has one exactly when it used
      anything. */
  ghost predicate NamesStages(p: Prices, l2: Tokens, l3: Tokens, events: seq<CostEvent>) {
    && (forall e :: e in events ==>
          && e.costUsd == CostUsd(p, e.tokens)
          && ((e.stage.L2? && e.tokens == l2) || (e.stage.L3? && e.tokens == l3)))
    && (l2 != NONE <==> exists i :: 0 <= i < |events| && events[i].stage.L2?)
    && (l3 != NONE <==> exists i :: 0 <= i < |events| && events[i].stage.L3?)
  }

  lemma EventsNameTheirStages(p: Prices, l2: Tokens, l3: Tokens)
    requires Used(l2) && Used(l3)
    ensures NamesStages(p, l2, l3, EventFor(p, L2, l2) + EventFor(p, L3, l3))
  {
    var events := EventFor(p, L2, l2) + EventFor(p, L3, l3);
    if l2 != NONE {
      assert events[0].stage.L2?;
    }
    if l3 != NONE {
      assert events[|events| - 1].stage.L3?;
    }
  }

  /** Leaving a stage without usage out loses nothing: the events still sum to the cost of both stages. */
  lemma EventsAccountFor(p: Prices, l2: Tokens, l3: Tokens)
    requires Used(l2) && Used(l3)
    ensures var events := EventFor(p, L2, l2) + EventFor(p, L3, l3);
      SumCost(events) == CostUsd(p, l2.Plus(l3)) && SumUsed(events) == l2.Plus(l3)
  {
    EventAccountsFor(p, L2, l2);
    EventAccountsFor(p, L3, l3);
    SumsOfConcat(EventFor(p, L2, l2), EventFor(p, L3, l3));
    CostIsLinear(p, l2, l3);
  }

  lemma {:induction false} SumIsUsed(calls: seq<Tokens>)
    requires forall t :: t in calls ==> Used(t)
    ensures Used(SumTokens(calls))
  {
    if calls != [] {
      assert Used(calls[|calls| - 1]);
      SumIsUsed(calls[..|calls| - 1]);
    }
  }

  method CostEvents(p: Prices, l2: Tokens, l3: Tokens) returns (events: seq<CostEvent>)
    requires Used(l2) && Used(l3)
    ensures events == EventFor(p, L2, l2) + EventFor(p, L3, l3)
    ensures SumCost(events) == CostUsd(p, l2.Plus(l3)) && SumUsed(events) == l2.Plus(l3)
    ensures NamesStages(p, l2, l3, events)
  {
    EventsAccountFor(p, l2, l3);
    EventsNameTheirStages(p, l2, l3);
    events := [];
    if l2.input > 0 || l2.output > 0 {
      events := events + [CostEvent(L2, l2, CostUsd(p, l2))];
    }
    assert events == EventFor(p, L2, l2);
    if l3.input > 0 || l3.output > 0 {
      events := events + [CostEvent(L3, l3, CostUsd(p, l3))];
    }
  }

  /** The tokens of one stage, as the difference of the totals around it. */
  method StageDelta(cost: CostTracker, calls: seq<Tokens>) returns (used: Tokens)
    modifies cost
    ensures used == SumTokens(calls)
    ensures cost.View() == old(cost.View()).(totals := old(cost.View()).totals.Plus(used))
  {
    var before := cost.TotalTokens();
    cost.Spend(calls);
    var after := cost.TotalTokens();
    used := after.Minus(before);
  }

  datatype RunCost = RunCost(l2: Tokens, l3: Tokens, l2Cost: real, l3Cost: real,
                             totals: Tokens, computeCostUsd: real, events: seq<CostEvent>)

  /** What a run persists: the split by stage, the total, and no events for a run that is not stored. */
  predicate Balanced(r: RunCost, persisted: bool) {
    && r.totals == r.l2.Plus(r.l3)
    && r.l2Cost + r.l3Cost == r.computeCostUsd
    && (persisted ==> SumCost(r.events) == r.computeCostUsd && SumUsed(r.events) == r.totals)
    && (!persisted ==> r.events == [])
  }

  lemma StartsFromNothing(t: Tokens)
    ensures NONE.Plus(t) == t
  {
  }

  method RunCosts(cost: CostTracker, extraction: seq<Tokens>, evaluation: seq<Tokens>, persisted: bool)
      returns (run: RunCost)
    requires forall t :: t in extraction || t in evaluation ==> Used(t)
    modifies cost
    ensures run.l2 == SumTokens(extraction) && run.l3 == SumTokens(evaluation)
    ensures run.l2Cost == Bill(cost.prices, extraction) && run.l3Cost == Bill(cost.prices, evaluation)
    ensures Balanced(run, persisted)
    ensures persisted ==> NamesStages(cost.prices, run.l2, run.l3, run.events)
  {
    cost.Clear();
    var l2 := StageDelta(cost, extraction);
    StartsFromNothing(l2);
    assert cost.View().totals == l2;
    var l3 := StageDelta(cost, evaluation);
    var totals := cost.TotalTokens();
    var computeCostUsd := cost.TotalCostUsd();
    SumIsUsed(extraction);
    SumIsUsed(evaluation);
    SumCostsTheBill(cost.prices, extraction);
    SumCostsTheBill(cost.prices, evaluation);
    run := Priced(cost.prices, l2, l3, totals, computeCostUsd, persisted);
  }

  method Priced(p: Prices, l2: Tokens, l3: Tokens, totals: Tokens, computeCostUsd: real, persisted: bool)
      returns (run: RunCost)
    requires Used(l2) && Used(l3) && totals == l2.Plus(l3) && computeCostUsd == CostUsd(p, totals)
    ensures run.l2 == l2 && run.l3 == l3 && run.l2Cost == CostUsd(p, l2) && run.l3Cost == CostUsd(p, l3)
    ensures Balanced(run, persisted)
    ensures persisted ==> NamesStages(p, l2, l3, run.events)
  {
    CostIsLinear(p, l2, l3);
    var events := [];
    if persisted {
      events := CostEvents(p, l2, l3);
    }
    run := RunCost(l2, l3, CostUsd(p, l2), CostUsd(p, l3), totals, computeCostUsd, events);
  }
}
