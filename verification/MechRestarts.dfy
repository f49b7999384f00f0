/** Starting the registration script again and again: when at most one service comes of it, and the two
    ways in which a second one does. */
module MechRestarts {
  import opened MechRegistration
  import opened Options

  /** How many calls still out would create a service. */
  function CreatesIn(out: seq<Call>): nat {
    if out == [] then 0 else CreatesIn(out[..|out| - 1]) + if out[|out| - 1].Create? then 1 else 0
  }

  /** The services there are, and those that may still come. */
  function Coming(c: Chain): nat {
    |c.services| + CreatesIn(c.out)
  }

  // A start with no default id, flag or force, from the owner's count as it is read, with either runner;
  // or a call that was still out lands.
  datatype Event = Start(count: nat, whole: bool) | Landing(k: nat)

  function Happens(cfg: Config, c: Chain, e: Event): Chain {
    match e
    case Start(count, whole) =>
      if Resolve(None, None, NonExistent, count, false).CreateNew?
      then if whole then RunAll(cfg, c, None).0 else CreateStep(cfg, c).0
      else c
    case Landing(k) => Land(c, k)
  }

  // ---------- counting ----------

  lemma {:induction false} CreatesInConcat(a: seq<Call>, b: seq<Call>)
    ensures CreatesIn(a + b) == CreatesIn(a) + CreatesIn(b)
  {
    if b == [] {
      assert a + b == a;
    } else {
      var n := |b| - 1;
      assert (a + b)[..|a + b| - 1] == a + b[..n];
      CreatesInConcat(a, b[..n]);
    }
  }

  lemma CreatesInOne(call: Call)
    ensures CreatesIn([call]) == if call.Create? then 1 else 0
  {
    assert [call][..0] == [];
  }

  lemma {:induction false} CreatesWithout(out: seq<Call>, k: nat)
    requires k < |out|
    ensures CreatesIn(out) == CreatesIn(out[..k] + out[k + 1..]) + if out[k].Create? then 1 else 0
  {
    var n := |out| - 1;
    if k == n {
      assert out[..k] + out[k + 1..] == out[..n];
    } else {
      var front, rest := out[..n], out[..k] + out[k + 1..];
      CreatesWithout(front, k);
      assert rest[..n - 1] == front[..k] + front[k + 1..] && rest[n - 1] == out[n];
    }
  }

  lemma MiningAdds(c: Chain, call: Call)
    requires FreshIds(c)
    ensures FreshIds(Mine(c, call)) && Mine(c, call).out == c.out
    ensures |Mine(c, call).services| == |c.services| + if call.Create? then 1 else 0
  {
    var after := Mine(c, call);
    if call.Create? {
      assert after.services.Keys == c.services.Keys + {c.nextId};
    } else {
      assert after.services.Keys == c.services.Keys;
    }
    assert |after.services| == |after.services.Keys| && |c.services| == |c.services.Keys|;
  }

  /** A landing makes a service that might come one that is there. */
  lemma LandingKeepsComing(c: Chain, k: nat)
    requires FreshIds(c)
    ensures FreshIds(Land(c, k)) && Coming(Land(c, k)) == Coming(c)
    ensures |c.services| <= |Land(c, k).services|
  {
    if k < |c.out| {
      MiningAdds(c.(out := c.out[..k] + c.out[k + 1..]), c.out[k]);
      CreatesWithout(c.out, k);
    }
  }

  lemma PerformAddsComing(cfg: Config, c: Chain, call: Call)
    requires !cfg.observeOnly && FreshIds(c)
    ensures FreshIds(Perform(cfg, c, call))
    ensures Coming(Perform(cfg, c, call)) == Coming(c) + if call.Create? && !FateOf(c).Unsent? then 1 else 0
    ensures |c.services| <= |Perform(cfg, c, call).services|
  {
    if Sends(c, call) {
      match FateOf(c)
      case Seen => MiningAdds(c, call);
      case StillOut =>
        CreatesInConcat(c.out, [call]);
        CreatesInOne(call);
      case Overtaken(k) =>
        LandingKeepsComing(c, k);
        MiningAdds(Land(c, k), call);
      case Unsent =>
    }
  }

  lemma StepKeepsComing(cfg: Config, c: Chain, id: ServiceId, step: Step)
    requires !cfg.observeOnly && FreshIds(c) && !step.StepCreate?
    ensures var after := Perform(cfg, c, CallFor(cfg, id, step));
      FreshIds(after) && Coming(after) == Coming(c) && |c.services| <= |after.services|
  {
    PerformAddsComing(cfg, c, CallFor(cfg, id, step));
  }

  lemma {:induction false} PerformAllKeepsComing(cfg: Config, c: Chain, id: ServiceId, steps: seq<Step>)
    requires !cfg.observeOnly && FreshIds(c) && forall i :: 0 <= i < |steps| ==> !steps[i].StepCreate?
    ensures var after := PerformAll(cfg, c, id, steps).0;
      FreshIds(after) && Coming(after) == Coming(c) && |c.services| <= |after.services|
    decreases |steps|
  {
    if steps != [] {
      StepKeepsComing(cfg, c, id, steps[0]);
      if GoesThrough(cfg, c, CallFor(cfg, id, steps[0])) {
        PerformAllKeepsComing(cfg, Perform(cfg, c, CallFor(cfg, id, steps[0])), id, steps[1..]);
      }
    }
  }

  // ---------- one start ----------

  /** A start tries to create a service exactly when the count it read is zero, and then first of all;
      otherwise it makes no call. */
  lemma {:induction false} StartCreatesIff(cfg: Config, c: Chain, count: nat, whole: bool)
    ensures var after := Happens(cfg, c, Start(count, whole));
      if count == 0 then c.made < after.made && after.made[|c.made|].call == Create else after == c
  {
    if count == 0 {
      var (c1, created) := CreateStep(cfg, c);
      PerformMakesOne(cfg, c, Create);
      if whole && created.StepDone? && Resumable(StateOf(c1, created.id)) {
        PerformAllMakes(cfg, c1, created.id, StepsFrom(StateOf(c1, created.id)));
      }
    }
  }

  lemma PerformMakesOne(cfg: Config, c: Chain, call: Call)
    ensures Perform(cfg, c, call).made == c.made + [Made(call, GoesThrough(cfg, c, call))]
  {
  }

  lemma {:induction false} PerformAllMakes(cfg: Config, c: Chain, id: ServiceId, steps: seq<Step>)
    ensures c.made <= PerformAll(cfg, c, id, steps).0.made
    decreases |steps|
  {
    if steps != [] {
      var call := CallFor(cfg, id, steps[0]);
      PerformMakesOne(cfg, c, call);
      if GoesThrough(cfg, c, call) {
        PerformAllMakes(cfg, Perform(cfg, c, call), id, steps[1..]);
      }
    }
  }

  function Adds(c: Chain, e: Event): nat {
    if e.Start? && e.count == 0 && !FateOf(c).Unsent? then 1 else 0
  }

  lemma RunAllOnKeepsComing(cfg: Config, c: Chain, id: ServiceId, read: ServiceState)
    requires !cfg.observeOnly && FreshIds(c)
    ensures var after := RunAllOn(cfg, c, id, read).0;
      FreshIds(after) && Coming(after) == Coming(c) && |c.services| <= |after.services|
  {
    if Resumable(read) {
      var steps := StepsFrom(read);
      PerformAllKeepsComing(cfg, c, id, steps);
    }
  }

  lemma CreateStepAdds(cfg: Config, c: Chain)
    requires !cfg.observeOnly && FreshIds(c)
    ensures var after := CreateStep(cfg, c).0;
      && FreshIds(after) && |c.services| <= |after.services|
      && Coming(after) == Coming(c) + if FateOf(c).Unsent? then 0 else 1
  {
    PerformAddsComing(cfg, c, Create);
  }

  lemma CreatingAdds(cfg: Config, c: Chain, whole: bool)
    requires !cfg.observeOnly && FreshIds(c)
    ensures var after := if whole then RunAll(cfg, c, None).0 else CreateStep(cfg, c).0;
      && FreshIds(after) && |c.services| <= |after.services|
      && Coming(after) == Coming(c) + if FateOf(c).Unsent? then 0 else 1
  {
    CreateStepAdds(cfg, c);
    var (c1, created) := CreateStep(cfg, c);
    if whole && created.StepDone? {
      RunAllOnKeepsComing(cfg, c1, created.id, StateOf(c1, created.id));
    }
  }

  /** The services there are or may come grow by one exactly when a start reads a count of zero and its
      create is sent - whatever the true count is, and whatever is still out. */
  lemma EventAddsComingIff(cfg: Config, c: Chain, e: Event)
    requires !cfg.observeOnly && FreshIds(c)
    ensures FreshIds(Happens(cfg, c, e))
    ensures Coming(Happens(cfg, c, e)) == Coming(c) + Adds(c, e)
    ensures |c.services| <= |Happens(cfg, c, e).services|
  {
    if e.Landing? {
      LandingKeepsComing(c, e.k);
    } else if e.count == 0 {
      CreatingAdds(cfg, c, e.whole);
    }
  }

  // ---------- any number of starts ----------

  ghost predicate Restarts(cfg: Config, chains: seq<Chain>, events: seq<Event>) {
    && |chains| == |events| + 1 && FreshIds(chains[0])
    && forall i :: 0 <= i < |events| ==> chains[i + 1] == Happens(cfg, chains[i], events[i])
  }

  /** The count was read truly. */
  predicate TrueCount(c: Chain, e: Event) {
    e.Start? ==> e.count == |c.services|
  }

  /** No create is still out when the script starts. */
  predicate Settled(c: Chain, e: Event) {
    e.Start? ==> CreatesIn(c.out) == 0
  }

  lemma NextComing(cfg: Config, chains: seq<Chain>, events: seq<Event>, i: nat)
    requires !cfg.observeOnly && Restarts(cfg, chains, events) && i < |events| && FreshIds(chains[i])
    ensures var e, c := events[i], chains[i];
      && FreshIds(chains[i + 1])
      && Coming(chains[i + 1]) == Coming(c) + Adds(c, e)
      && |c.services| <= |chains[i + 1].services|
  {
    EventAddsComingIff(cfg, chains[i], events[i]);
  }

  /** With every count read truly and no create still out at a start, at most one service comes of any
      number of starts and landings, and none where there is one, or one may still come, at first. */
  lemma {:induction false} RestartsCreateAtMostOne(cfg: Config, chains: seq<Chain>, events: seq<Event>, n: nat)
    requires !cfg.observeOnly && Restarts(cfg, chains, events) && n < |chains|
    requires forall i :: 0 <= i < |events| ==> TrueCount(chains[i], events[i]) && Settled(chains[i], events[i])
    ensures FreshIds(chains[n])
    ensures |chains[n].services| <= Coming(chains[n]) <= if Coming(chains[0]) == 0 then 1 else Coming(chains[0])
  {
    if n > 0 {
      RestartsCreateAtMostOne(cfg, chains, events, n - 1);
      NextComing(cfg, chains, events, n - 1);
      assert TrueCount(chains[n - 1], events[n - 1]) && Settled(chains[n - 1], events[n - 1]);
    }
  }

  /** The number of starts that read zero and whose create was sent. */
  function Created(chains: seq<Chain>, events: seq<Event>, n: nat): nat
    requires |chains| == |events| + 1 && n <= |events|
  {
    if n == 0 then 0
    else
      Created(chains, events, n - 1) + Adds(chains[n - 1], events[n - 1])
  }

  /** With no assumption on counts and landings: the services there are or may come are those at first and
      one for every start that read zero and whose create was sent. */
  lemma {:induction false} StartsAddUp(cfg: Config, chains: seq<Chain>, events: seq<Event>, n: nat)
    requires !cfg.observeOnly && Restarts(cfg, chains, events) && n < |chains|
    ensures FreshIds(chains[n]) && Coming(chains[n]) == Coming(chains[0]) + Created(chains, events, n)
  {
    if n > 0 {
      StartsAddUp(cfg, chains, events, n - 1);
      NextComing(cfg, chains, events, n - 1);
    }
  }

  // ---------- a second service ----------

  function Fresh(fates: nat -> Fate, shows: ServiceId -> seq<Option<ServiceState>>): Chain {
    Chain(map[], 1, 0, [], [], [], [], fates, shows)
  }

  /** A count read truly does not help when a create is still out: the first start's create throws at its
      receipt, the second start creates a service, and then the first create lands too. */
  lemma CreateStillOutDuplicates(cfg: Config, shows: ServiceId -> seq<Option<ServiceState>>)
    returns (chains: seq<Chain>, events: seq<Event>)
    requires !cfg.observeOnly
    ensures Restarts(cfg, chains, events)
    ensures forall i :: 0 <= i < |events| ==> TrueCount(chains[i], events[i])
    ensures Coming(chains[0]) == 0 && |chains[|events|].services| == 2
  {
    var c0 := Fresh(i => if i == 0 then StillOut else Seen, shows);
    var c1 := Happens(cfg, c0, Start(0, false));
    assert c1.out == [Create] && c1.services == map[];
    var c2 := Happens(cfg, c1, Start(0, false));
    assert c2.out == [Create] && c2.nextId == 2 && c2.services.Keys == {1};
    var c3 := Happens(cfg, c2, Landing(0));
    assert c3.services.Keys == {1, 2} && |c3.services| == |c3.services.Keys|;
    chains, events := [c0, c1, c2, c3], [Start(0, false), Start(0, false), Landing(0)];
  }

  /** Nor does a settled chain help when the count lags: a start that reads zero beside a service makes
      another. */
  lemma LaggingCountDuplicates(cfg: Config, shows: ServiceId -> seq<Option<ServiceState>>)
    returns (chains: seq<Chain>, events: seq<Event>)
    requires !cfg.observeOnly
    ensures Restarts(cfg, chains, events)
    ensures forall i :: 0 <= i < |events| ==> Settled(chains[i], events[i])
    ensures Coming(chains[0]) == 0 && |chains[|events|].services| == 2
  {
    var c0 := Fresh(i => Seen, shows);
    var c1 := Happens(cfg, c0, Start(0, false));
    assert c1.out == [] && c1.nextId == 2 && c1.services.Keys == {1};
    var c2 := Happens(cfg, c1, Start(0, false));
    assert c2.services.Keys == {1, 2} && |c2.services| == |c2.services.Keys|;
    chains, events := [c0, c1, c2], [Start(0, false), Start(0, false)];
  }
}
