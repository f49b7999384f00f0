/** Registering as a mech: the runner that does everything still needed in one call, the runner that
    does one step, and the decision whether to resume or create. */
module MechRegistration {
  import opened Options

  type ServiceId = nat

  datatype ServiceState =
    | NonExistent | PreRegistration | ActiveRegistration | FinishedRegistration | Deployed | TerminatedBonded

  datatype Service = Service(state: ServiceState, multisig: nat)

  datatype Call =
    | Create
    | ActivateRegistration(id: ServiceId, valueWei: nat)
    | RegisterAgents(id: ServiceId, agentId: nat, valueWei: nat)
    | Deploy(id: ServiceId)
    | CreateMech(id: ServiceId, payload: string)

  // A call made, and whether it was reported to have gone through.
  datatype Made = Made(call: Call, ok: bool)

  // What becomes of a call that passes its simulation. Unsent: an error comes before it is sent. StillOut:
  // it is sent, but the wait for its receipt throws, and it may land later or never. Overtaken(k): its
  // receipt shows, but the k-th call still out lands first.
  datatype Fate = Seen | Unsent | StillOut | Overtaken(k: nat)

  // `landed` are the calls that took effect, `out` those sent whose fate nobody knows, `fates(i)` what
  // becomes of the i-th call made, and `shows(id)` what the reads say that wait for a new service, None
  // for a read that throws.
  datatype Chain = Chain(
    services: map<ServiceId, Service>, nextId: ServiceId, safes: nat, mechs: seq<ServiceId>,
    landed: seq<Call>, out: seq<Call>, made: seq<Made>,
    fates: nat -> Fate, shows: ServiceId -> seq<Option<ServiceState>>)

  datatype Config = Config(
    observeOnly: bool, hasAgentInstance: bool, bondWei: nat, agentId: nat, payload: string, maxAttempts: nat)

  function StateOf(c: Chain, id: ServiceId): ServiceState {
    if id in c.services then c.services[id].state else NonExistent
  }

  // ---------- the contracts ----------

  /** Whether the contracts accept the call; every service here has the one agent slot it is created with. */
  predicate Legal(c: Chain, call: Call) {
    match call
    case Create => c.nextId !in c.services
    case ActivateRegistration(id, _) => StateOf(c, id).PreRegistration?
    case RegisterAgents(id, _, _) => StateOf(c, id).ActiveRegistration?
    case Deploy(id) => StateOf(c, id).FinishedRegistration?
    case CreateMech(id, _) => StateOf(c, id).Deployed?
  }

  function Effect(c: Chain, call: Call): Chain
    requires Legal(c, call)
  {
    var c1 := c.(landed := c.landed + [call]);
    match call
    case Create => c1.(services := c.services[c.nextId := Service(PreRegistration, 0)], nextId := c.nextId + 1)
    case ActivateRegistration(id, _) =>
      c1.(services := c.services[id := c.services[id].(state := ActiveRegistration)])
    case RegisterAgents(id, _, _) =>
      c1.(services := c.services[id := c.services[id].(state := FinishedRegistration)])
    case Deploy(id) => c1.(services := c.services[id := Service(Deployed, c.safes + 1)], safes := c.safes + 1)
    case CreateMech(id, _) => c1.(mechs := c.mechs + [id])
  }

  /** A call is mined: it takes effect, or it is reverted when the contracts do not accept it. */
  function Mine(c: Chain, call: Call): Chain {
    if Legal(c, call) then Effect(c, call) else c
  }

  /** A call that was still out lands. */
  function Land(c: Chain, k: nat): Chain {
    if k < |c.out| then Mine(c.(out := c.out[..k] + c.out[k + 1..]), c.out[k]) else c
  }

  function FateOf(c: Chain): Fate {
    c.fates(|c.made|)
  }

  /** The simulation passes, on the state of the chain at that moment, and no error comes before sending. */
  predicate Sends(c: Chain, call: Call) {
    Legal(c, call) && !FateOf(c).Unsent?
  }

  predicate GoesThrough(cfg: Config, c: Chain, call: Call) {
    Sends(c, call) && (cfg.observeOnly || !FateOf(c).StillOut?)
  }

  function Sent(c: Chain, call: Call): Chain {
    match FateOf(c)
    case Seen => Mine(c, call)
    case Unsent => c
    case StillOut => c.(out := c.out + [call])
    case Overtaken(k) => Mine(Land(c, k), call)
  }

  /** A call, simulated only when the adapter only observes. */
  function Perform(cfg: Config, c: Chain, call: Call): Chain {
    var c1 := if Sends(c, call) && !cfg.observeOnly then Sent(c, call) else c;
    c1.(made := c1.made + [Made(call, GoesThrough(cfg, c, call))])
  }

  // ---------- one step ----------

  datatype Step = StepCreate | StepActivate | StepRegister | StepDeploy | StepCreateMech

  function NextStep(state: ServiceState): Step {
    match state
    case PreRegistration => StepActivate
    case ActiveRegistration => StepRegister
    case FinishedRegistration => StepDeploy
    case _ => StepCreateMech
  }

  predicate Resumable(state: ServiceState) {
    !state.NonExistent? && !state.TerminatedBonded?
  }

  function CallFor(cfg: Config, id: ServiceId, step: Step): Call {
    match step
    case StepCreate => Create
    case StepActivate => ActivateRegistration(id, cfg.bondWei)
    case StepRegister => RegisterAgents(id, cfg.agentId, cfg.bondWei)
    case StepDeploy => Deploy(id)
    case StepCreateMech => CreateMech(id, cfg.payload)
  }

  datatype StepResult = StepDone(id: ServiceId, step: Step) | StepFailed

  /** One step on the service, chosen from the state `read` says it is in. */
  function StepOn(cfg: Config, c: Chain, id: ServiceId, read: ServiceState): (Chain, StepResult) {
    var step := NextStep(read);
    if !Resumable(read) then (c, StepFailed)
    else if step.StepRegister? && !cfg.hasAgentInstance then (c, StepFailed)
    else
      var call := CallFor(cfg, id, step);
      (Perform(cfg, c, call), if GoesThrough(cfg, c, call) then StepDone(id, step) else StepFailed)
  }

  /** A read within the bound shows the service, and every read before it showed nothing. */
  predicate ShowsUp(seen: seq<Option<ServiceState>>, maxAttempts: nat) {
    exists i :: 0 <= i < |seen| && i < maxAttempts && seen[i].Some? && !seen[i].value.NonExistent?
      && forall j :: 0 <= j < i ==> seen[j] == Some(NonExistent)
  }

  /** Creating a service also waits for reads to show it, and fails when they do not - although the
      service is there. */
  function CreateStep(cfg: Config, c: Chain): (Chain, StepResult) {
    var through := GoesThrough(cfg, c, Create) && (cfg.observeOnly || ShowsUp(c.shows(c.nextId), cfg.maxAttempts));
    (Perform(cfg, c, Create), if through then StepDone(c.nextId, StepCreate) else StepFailed)
  }

  function RunStep(cfg: Config, c: Chain, existing: Option<ServiceId>): (Chain, StepResult) {
    if existing.None? then CreateStep(cfg, c) else StepOn(cfg, c, existing.value, StateOf(c, existing.value))
  }

  // ---------- everything at once ----------

  datatype Outcome = Registered(id: ServiceId, multisig: nat) | Failed

  /** The calls the one-shot runner makes for a service read once in state `read`, in order. */
  function StepsFrom(read: ServiceState): seq<Step> {
    match read
    case PreRegistration => [StepActivate, StepRegister, StepDeploy, StepCreateMech]
    case ActiveRegistration => [StepRegister, StepDeploy, StepCreateMech]
    case FinishedRegistration => [StepDeploy, StepCreateMech]
    case _ => [StepCreateMech]
  }

  /** Makes the calls one after the other, and stops at the first that does not go through. */
  function PerformAll(cfg: Config, c: Chain, id: ServiceId, steps: seq<Step>): (Chain, bool)
    decreases |steps|
  {
    if steps == [] then (c, true)
    else if steps[0].StepRegister? && !cfg.hasAgentInstance then (c, false)
    else
      var call := CallFor(cfg, id, steps[0]);
      if GoesThrough(cfg, c, call) then PerformAll(cfg, Perform(cfg, c, call), id, steps[1..])
      else (Perform(cfg, c, call), false)
  }

  function MultisigOf(c: Chain, id: ServiceId): nat {
    if id in c.services then c.services[id].multisig else 0
  }

  function RunAllOn(cfg: Config, c: Chain, id: ServiceId, read: ServiceState): (Chain, Outcome) {
    if !Resumable(read) then (c, Failed)
    else
      var (c', ok) := PerformAll(cfg, c, id, StepsFrom(read));
      (c', if ok then Registered(id, MultisigOf(c', id)) else Failed)
  }

  function RunAll(cfg: Config, c: Chain, existing: Option<ServiceId>): (Chain, Outcome) {
    if existing.Some? then RunAllOn(cfg, c, existing.value, StateOf(c, existing.value))
    else
      var (c1, created) := CreateStep(cfg, c);
      if created.StepFailed? then (c1, Failed) else RunAllOn(cfg, c1, created.id, StateOf(c1, created.id))
  }

  /** Unless it only observes, creating a service is reported as done exactly when the call is sent, its receipt
      is waited for, and a read within the bound shows the service before any read fails; the service named is
      then there. A create that is not reported may have left a service all the same. */
  lemma CreatedIsSeen(cfg: Config, c: Chain)
    requires !cfg.observeOnly && c.nextId !in c.services
    ensures var (c', r), seen := CreateStep(cfg, c), c.shows(c.nextId);
      && (r.StepDone? <==>
            && !FateOf(c).Unsent? && !FateOf(c).StillOut?
            && exists i :: 0 <= i < |seen| && i < cfg.maxAttempts && seen[i].Some? && !seen[i].value.NonExistent?
                 && forall j :: 0 <= j < i ==> seen[j] == Some(NonExistent))
      && (r.StepDone? ==> r.step.StepCreate? && r.id == c.nextId && r.id in c'.services)
      && (FateOf(c).Seen? ==> StateOf(c', c.nextId).PreRegistration?)
  {
  }

  /** The service is there, deployed, and this is its multisig. */
  predicate IsDeployed(c: Chain, id: ServiceId, multisig: nat) {
    id in c.services && c.services[id] == Service(Deployed, multisig)
  }

  lemma LandingKeepsDeployed(c: Chain, id: ServiceId, k: nat)
    requires StateOf(c, id).Deployed?
    ensures StateOf(Land(c, k), id).Deployed?
  {
  }

  lemma MechIsMadeLast(cfg: Config, c: Chain, id: ServiceId)
    requires GoesThrough(cfg, c, CreateMech(id, cfg.payload))
    ensures HasMech(cfg, Perform(cfg, c, CreateMech(id, cfg.payload)), id)
  {
    var fate := FateOf(c);
    if fate.Overtaken? {
      LandingKeepsDeployed(c, id, fate.k);
    }
  }

  /** The service is deployed, and unless only simulated the last mech made is its. */
  predicate HasMech(cfg: Config, c: Chain, id: ServiceId) {
    && StateOf(c, id).Deployed?
    && (!cfg.observeOnly ==> c.mechs != [] && c.mechs[|c.mechs| - 1] == id)
  }

  lemma OnlyMechLeft(cfg: Config, c: Chain, id: ServiceId)
    ensures var (c', ok) := PerformAll(cfg, c, id, [StepCreateMech]);
      ok ==> HasMech(cfg, c', id)
  {
    assert [StepCreateMech][1..] == [];
    if GoesThrough(cfg, c, CreateMech(id, cfg.payload)) {
      MechIsMadeLast(cfg, c, id);
    }
  }

  lemma DeployLeft(cfg: Config, c: Chain, id: ServiceId)
    ensures var (c', ok) := PerformAll(cfg, c, id, [StepDeploy, StepCreateMech]);
      ok ==> HasMech(cfg, c', id)
  {
    assert [StepDeploy, StepCreateMech][1..] == [StepCreateMech];
    OnlyMechLeft(cfg, Perform(cfg, c, Deploy(id)), id);
  }

  lemma RegisterLeft(cfg: Config, c: Chain, id: ServiceId)
    ensures var (c', ok) := PerformAll(cfg, c, id, [StepRegister, StepDeploy, StepCreateMech]);
      ok ==> HasMech(cfg, c', id)
  {
    assert [StepRegister, StepDeploy, StepCreateMech][1..] == [StepDeploy, StepCreateMech];
    DeployLeft(cfg, Perform(cfg, c, RegisterAgents(id, cfg.agentId, cfg.bondWei)), id);
  }

  lemma AllLeft(cfg: Config, c: Chain, id: ServiceId)
    ensures var (c', ok) := PerformAll(cfg, c, id, [StepActivate, StepRegister, StepDeploy, StepCreateMech]);
      ok ==> HasMech(cfg, c', id)
  {
    assert [StepActivate, StepRegister, StepDeploy, StepCreateMech][1..] == [StepRegister, StepDeploy, StepCreateMech];
    RegisterLeft(cfg, Perform(cfg, c, ActivateRegistration(id, cfg.bondWei)), id);
  }

  lemma RegisteredOnIsDeployed(cfg: Config, c: Chain, id: ServiceId, read: ServiceState)
    ensures var (c', r) := RunAllOn(cfg, c, id, read);
      r.Registered? ==> r.id == id && HasMech(cfg, c', id) && IsDeployed(c', id, r.multisig)
  {
    match read
    case PreRegistration => AllLeft(cfg, c, id);
    case ActiveRegistration => RegisterLeft(cfg, c, id);
    case FinishedRegistration => DeployLeft(cfg, c, id);
    case _ => OnlyMechLeft(cfg, c, id);
  }

  /** A registration reported is of a service that is deployed, the one asked for if one was, with the multisig
      the chain gives it, and unless it only observed the last mech made is the service's. */
  lemma RegisteredIsDeployed(cfg: Config, c: Chain, existing: Option<ServiceId>)
    ensures var (c', r) := RunAll(cfg, c, existing);
      r.Registered? ==>
        && IsDeployed(c', r.id, r.multisig)
        && (existing.Some? ==> r.id == existing.value)
        && (existing.None? ==> r.id == c.nextId)
        && HasMech(cfg, c', r.id)
  {
    var (c1, created) := CreateStep(cfg, c);
    var on := if existing.Some? then c else c1;
    var id := if existing.Some? then existing.value else c.nextId;
    RegisteredOnIsDeployed(cfg, on, id, StateOf(on, id));
  }

  // ---------- step after step ----------

  function StepsLeft(c: Chain, existing: Option<ServiceId>): nat {
    if existing.None? then 5
    else match StateOf(c, existing.value)
      case PreRegistration => 4
      case ActiveRegistration => 3
      case FinishedRegistration => 2
      case _ => 1
  }

  lemma StepAdvances(cfg: Config, c: Chain, existing: Option<ServiceId>)
    requires !cfg.observeOnly
    ensures var (c', r) := RunStep(cfg, c, existing);
      r.StepDone? && !r.step.StepCreateMech? ==> StepsLeft(c', Some(r.id)) < StepsLeft(c, existing)
  {
  }

  /** The one-step runner called again and again with the service it reported, until it fails or
      reports that it made the mech. */
  function Iterate(cfg: Config, c: Chain, existing: Option<ServiceId>): (Chain, Outcome)
    requires !cfg.observeOnly
    decreases StepsLeft(c, existing)
  {
    var (c', r) := RunStep(cfg, c, existing);
    StepAdvances(cfg, c, existing);
    if r.StepFailed? then (c', Failed)
    else if r.step.StepCreateMech? then (c', Registered(r.id, MultisigOf(c', r.id)))
    else Iterate(cfg, c', Some(r.id))
  }

  lemma {:induction false} IterateIsRunAllOn(cfg: Config, c: Chain, id: ServiceId)
    requires !cfg.observeOnly
    ensures Iterate(cfg, c, Some(id)) == RunAllOn(cfg, c, id, StateOf(c, id))
    decreases StepsLeft(c, Some(id))
  {
    var state := StateOf(c, id);
    var (c', r) := RunStep(cfg, c, Some(id));
    assert [StepCreateMech][1..] == [];
    if r.StepDone? && !r.step.StepCreateMech? {
      StepAdvances(cfg, c, Some(id));
      IterateIsRunAllOn(cfg, c', id);
      assert StepsFrom(state)[1..] == StepsFrom(StateOf(c', id));
    }
  }

  /** Registering in one call and registering step by step make the same calls, with the same
      arguments and values, end in the same chain and report the same - from a new service or from
      any state of an existing one, and whichever calls are lost on the way. */
  lemma OneShotIsStepwise(cfg: Config, c: Chain, existing: Option<ServiceId>)
    requires !cfg.observeOnly
    ensures RunAll(cfg, c, existing) == Iterate(cfg, c, existing)
  {
    if existing.Some? {
      IterateIsRunAllOn(cfg, c, existing.value);
    } else {
      var (c1, created) := CreateStep(cfg, c);
      if created.StepDone? {
        IterateIsRunAllOn(cfg, c1, created.id);
      }
    }
  }

  // ---------- observing only ----------

  /** A one-shot dry run of an existing service gets through exactly when the service is deployed
      already: nothing simulated changes the chain, so any second call is refused. */
  lemma DryRunNeedsDeployed(cfg: Config, c: Chain, id: ServiceId)
    requires cfg.observeOnly && forall i :: !c.fates(i).Unsent?
    ensures RunAll(cfg, c, Some(id)).1.Registered? <==> StateOf(c, id).Deployed?
  {
    var state := StateOf(c, id);
    if Resumable(state) {
      var steps := StepsFrom(state);
      var c1 := Perform(cfg, c, CallFor(cfg, id, steps[0]));
      if |steps| > 1 {
        assert steps[1..][0] == steps[1];
        assert !GoesThrough(cfg, c1, CallFor(cfg, id, steps[1]));
        assert !PerformAll(cfg, c1, id, steps[1..]).1;
      } else {
        assert steps[1..] == [];
        assert PerformAll(cfg, c1, id, steps[1..]).1;
      }
    }
  }

  // ---------- reads that lag ----------

  /** A step chosen from a read that may lag goes through exactly when the read was current, nothing
      stops the call on its way and the agent instance is configured where needed. Otherwise services and
      mechs are untouched; a call may be left out, and only one that was due. */
  lemma LaggingReadIsHarmless(cfg: Config, c: Chain, id: ServiceId, read: ServiceState)
    requires !cfg.observeOnly
    ensures var (c', r) := StepOn(cfg, c, id, read);
      && (r.StepDone? <==>
            Resumable(read) && read == StateOf(c, id) && !FateOf(c).Unsent? && !FateOf(c).StillOut?
            && (read.ActiveRegistration? ==> cfg.hasAgentInstance))
      && (r.StepFailed? ==> c'.services == c.services && c'.mechs == c.mechs && c'.safes == c.safes)
      && (r.StepFailed? && c'.out != c.out ==>
            read == StateOf(c, id) && c'.out == c.out + [CallFor(cfg, id, NextStep(read))])
  {
  }

  /** The one-shot runner on a read that does not match stops at its first call, with nothing changed. */
  lemma LaggingOneShotIsHarmless(cfg: Config, c: Chain, id: ServiceId, read: ServiceState)
    requires !cfg.observeOnly && read != StateOf(c, id)
    ensures var (c', r) := RunAllOn(cfg, c, id, read);
      r.Failed? && c'.services == c.services && c'.mechs == c.mechs && c'.out == c.out
      && |c'.made| <= |c.made| + 1
  {
  }

  // ---------- the calls that landed ----------

  /** The calls on the service that took effect, in order. */
  function LandedOn(landed: seq<Call>, id: ServiceId): seq<Call> {
    if landed == [] then []
    else
      var last := landed[|landed| - 1];
      LandedOn(landed[..|landed| - 1], id) + if !last.Create? && last.id == id then [last] else []
  }

  // What has landed on a service that has come as far as `state`, but for mechs made on it.
  function Lifecycle(cfg: Config, id: ServiceId, state: ServiceState): seq<Call> {
    var activate := ActivateRegistration(id, cfg.bondWei);
    var register := RegisterAgents(id, cfg.agentId, cfg.bondWei);
    match state
    case ActiveRegistration => [activate]
    case FinishedRegistration => [activate, register]
    case Deployed => [activate, register, Deploy(id)]
    case _ => []
  }

  /** `landed` is the lifecycle up to `state`, then mechs only, and those only once deployed. */
  ghost predicate Shaped(cfg: Config, id: ServiceId, landed: seq<Call>, state: ServiceState) {
    var done := Lifecycle(cfg, id, state);
    && |landed| >= |done| && landed[..|done|] == done
    && (forall i :: |done| <= i < |landed| ==> landed[i] == CreateMech(id, cfg.payload))
    && (|landed| > |done| ==> state.Deployed?)
  }

  /** The call carries the configured bond, agent and payload. */
  predicate Ours(cfg: Config, call: Call) {
    match call
    case ActivateRegistration(_, value) => value == cfg.bondWei
    case RegisterAgents(_, agentId, value) => agentId == cfg.agentId && value == cfg.bondWei
    case CreateMech(_, payload) => payload == cfg.payload
    case _ => true
  }

  ghost predicate FreshIds(c: Chain) {
    forall x :: x in c.services ==> x < c.nextId && !c.services[x].state.NonExistent?
  }

  ghost predicate InOrder(cfg: Config, c: Chain, id: ServiceId) {
    && Shaped(cfg, id, LandedOn(c.landed, id), StateOf(c, id))
    && !StateOf(c, id).TerminatedBonded?
    && FreshIds(c)
    && (forall k :: 0 <= k < |c.out| ==> Ours(cfg, c.out[k]))
  }

  function Next(state: ServiceState): ServiceState {
    match state
    case PreRegistration => ActiveRegistration
    case ActiveRegistration => FinishedRegistration
    case _ => Deployed
  }

  lemma LandedAfter(c: Chain, id: ServiceId, call: Call)
    ensures LandedOn(Mine(c, call).landed, id)
         == LandedOn(c.landed, id) + if Legal(c, call) && !call.Create? && call.id == id then [call] else []
  {
    if Legal(c, call) {
      assert (c.landed + [call])[..|c.landed|] == c.landed;
    }
  }

  lemma ShapedExtends(cfg: Config, id: ServiceId, landed: seq<Call>, state: ServiceState)
    requires Shaped(cfg, id, landed, state) && Resumable(state)
    ensures Shaped(cfg, id, landed + [CallFor(cfg, id, NextStep(state))], Next(state))
  {
    if !state.Deployed? {
      assert landed == Lifecycle(cfg, id, state);
    }
  }

  /** A call on the service that the contracts accept is the one its state calls for, and moves it on. */
  lemma MiningMovesState(cfg: Config, c: Chain, id: ServiceId, call: Call)
    requires Ours(cfg, call) && FreshIds(c)
    ensures FreshIds(Mine(c, call))
    ensures var state, after := StateOf(c, id), StateOf(Mine(c, call), id);
      if Legal(c, call) && !call.Create? && call.id == id
      then Resumable(state) && call == CallFor(cfg, id, NextStep(state)) && after == Next(state)
      else after == state || (state.NonExistent? && after.PreRegistration?)
  {
  }

  lemma MiningKeepsInOrder(cfg: Config, c: Chain, id: ServiceId, call: Call)
    requires InOrder(cfg, c, id) && Ours(cfg, call)
    ensures InOrder(cfg, Mine(c, call), id)
  {
    LandedAfter(c, id, call);
    MiningMovesState(cfg, c, id, call);
    if Legal(c, call) && !call.Create? && call.id == id {
      ShapedExtends(cfg, id, LandedOn(c.landed, id), StateOf(c, id));
    } else {
      assert LandedOn(c.landed, id) + [] == LandedOn(c.landed, id);
    }
  }

  lemma LandingKeepsInOrder(cfg: Config, c: Chain, id: ServiceId, k: nat)
    requires InOrder(cfg, c, id)
    ensures InOrder(cfg, Land(c, k), id)
  {
    if k < |c.out| {
      MiningKeepsInOrder(cfg, c.(out := c.out[..k] + c.out[k + 1..]), id, c.out[k]);
    }
  }

  lemma SentKeepsInOrder(cfg: Config, c: Chain, id: ServiceId, call: Call)
    requires InOrder(cfg, c, id) && Ours(cfg, call)
    ensures InOrder(cfg, Sent(c, call), id)
  {
    var fate := FateOf(c);
    if fate.Overtaken? {
      LandingKeepsInOrder(cfg, c, id, fate.k);
      MiningKeepsInOrder(cfg, Land(c, fate.k), id, call);
    } else if fate.Seen? {
      MiningKeepsInOrder(cfg, c, id, call);
    }
  }

  lemma RecordsDoNotMatter(cfg: Config, c: Chain, id: ServiceId, made: seq<Made>)
    requires InOrder(cfg, c, id)
    ensures InOrder(cfg, c.(made := made), id)
  {
  }

  lemma PerformKeepsInOrder(cfg: Config, c: Chain, id: ServiceId, call: Call)
    requires !cfg.observeOnly && InOrder(cfg, c, id) && Ours(cfg, call)
    ensures InOrder(cfg, Perform(cfg, c, call), id)
  {
    SentKeepsInOrder(cfg, c, id, call);
    var made := Perform(cfg, c, call).made;
    RecordsDoNotMatter(cfg, c, id, made);
    RecordsDoNotMatter(cfg, Sent(c, call), id, made);
    assert Perform(cfg, c, call) == if Sends(c, call) then Sent(c, call).(made := made) else c.(made := made);
  }

  lemma {:induction false} PerformAllKeepsInOrder(cfg: Config, c: Chain, id: ServiceId, x: ServiceId, steps: seq<Step>)
    requires !cfg.observeOnly && InOrder(cfg, c, id)
    ensures InOrder(cfg, PerformAll(cfg, c, x, steps).0, id)
    decreases |steps|
  {
    if steps != [] {
      var call := CallFor(cfg, x, steps[0]);
      PerformKeepsInOrder(cfg, c, id, call);
      if GoesThrough(cfg, c, call) {
        PerformAllKeepsInOrder(cfg, Perform(cfg, c, call), id, x, steps[1..]);
      }
    }
  }

  // What happens to the services: one is started, either runner runs on one, from a read that may lag, or
  // a call that was still out lands.
  datatype Act =
    | Begin
    | OneStep(id: ServiceId, read: ServiceState)
    | AllSteps(id: ServiceId, read: ServiceState)
    | Lands(k: nat)

  function After(cfg: Config, c: Chain, act: Act): Chain {
    match act
    case Begin => CreateStep(cfg, c).0
    case OneStep(id, read) => StepOn(cfg, c, id, read).0
    case AllSteps(id, read) => RunAllOn(cfg, c, id, read).0
    case Lands(k) => Land(c, k)
  }

  lemma AfterKeepsInOrder(cfg: Config, c: Chain, act: Act, id: ServiceId)
    requires !cfg.observeOnly && InOrder(cfg, c, id)
    ensures InOrder(cfg, After(cfg, c, act), id)
  {
    match act
    case Begin => PerformKeepsInOrder(cfg, c, id, Create);
    case OneStep(x, read) => PerformKeepsInOrder(cfg, c, id, CallFor(cfg, x, NextStep(read)));
    case AllSteps(x, read) => PerformAllKeepsInOrder(cfg, c, id, x, StepsFrom(read));
    case Lands(k) => LandingKeepsInOrder(cfg, c, id, k);
  }

  ghost predicate ActedOn(cfg: Config, chains: seq<Chain>, acts: seq<Act>) {
    && |chains| == |acts| + 1
    && chains[0].services == map[] && chains[0].landed == [] && chains[0].out == []
    && forall i :: 0 <= i < |acts| ==> chains[i + 1] == After(cfg, chains[i], acts[i])
  }

  lemma EmptyIsInOrder(cfg: Config, c: Chain, id: ServiceId)
    requires c.services == map[] && c.landed == [] && c.out == []
    ensures InOrder(cfg, c, id)
  {
  }

  lemma NextIsInOrder(cfg: Config, chains: seq<Chain>, acts: seq<Act>, id: ServiceId, n: nat)
    requires !cfg.observeOnly && ActedOn(cfg, chains, acts) && 0 < n < |chains| && InOrder(cfg, chains[n - 1], id)
    ensures InOrder(cfg, chains[n], id)
  {
    AfterKeepsInOrder(cfg, chains[n - 1], acts[n - 1], id);
  }

  /** Through any acts on a chain that starts empty, with reads that lag, calls that are lost, and calls
      that threw and land after all, alone or beside their repetition: what landed on a service is its
      lifecycle up to its state, in order and each call once, then only mechs on a deployed service. */
  lemma {:induction false} ActsLandInOrder(cfg: Config, chains: seq<Chain>, acts: seq<Act>, id: ServiceId, n: nat)
    requires !cfg.observeOnly && ActedOn(cfg, chains, acts) && n < |chains|
    ensures InOrder(cfg, chains[n], id)
  {
    if n == 0 {
      EmptyIsInOrder(cfg, chains[0], id);
    } else {
      ActsLandInOrder(cfg, chains, acts, id, n - 1);
      NextIsInOrder(cfg, chains, acts, id, n);
    }
  }

  function BondsIn(calls: seq<Call>): nat {
    if calls == [] then 0
    else
      BondsIn(calls[..|calls| - 1])
      + match calls[|calls| - 1]
        case ActivateRegistration(_, value) => value
        case RegisterAgents(_, _, value) => value
        case _ => 0
  }

  lemma {:induction false} MechsTakeNoBond(calls: seq<Call>, n: nat)
    requires n <= |calls| && forall i :: n <= i < |calls| ==> calls[i].CreateMech?
    ensures BondsIn(calls) == BondsIn(calls[..n])
  {
    if n == |calls| {
      assert calls[..n] == calls;
    } else {
      assert calls[..|calls| - 1][..n] == calls[..n];
      MechsTakeNoBond(calls[..|calls| - 1], n);
    }
  }

  /** The value that has landed on a service is one bond once activated and two from then on: no bond
      is ever taken twice. */
  lemma NoBondTakenTwice(cfg: Config, c: Chain, id: ServiceId)
    requires InOrder(cfg, c, id)
    ensures BondsIn(LandedOn(c.landed, id)) ==
            match StateOf(c, id)
            case ActiveRegistration => cfg.bondWei
            case FinishedRegistration => 2 * cfg.bondWei
            case Deployed => 2 * cfg.bondWei
            case _ => 0
  {
    var landed, done := LandedOn(c.landed, id), Lifecycle(cfg, id, StateOf(c, id));
    MechsTakeNoBond(landed, |done|);
    var a, r, d := ActivateRegistration(id, cfg.bondWei), RegisterAgents(id, cfg.agentId, cfg.bondWei), Deploy(id);
    assert [a][..0] == [] && [a, r][..1] == [a] && [a, r, d][..2] == [a, r];
    assert BondsIn([a]) == cfg.bondWei && BondsIn([a, r]) == 2 * cfg.bondWei;
  }

  // ---------- resume or create ----------

  datatype Decision = Resume(id: ServiceId) | CreateNew | Abort

  /** `flagged` is the state of the service named by the flag; `owned` the owner's service count. */
  function Resolve(default: Option<ServiceId>, flag: Option<ServiceId>, flagged: ServiceState, owned: nat, force: bool)
    : (d: Decision)
    ensures d.CreateNew? <==> flag.None? && default.None? && (force || owned == 0)
    ensures d.Abort? <==>
      (flag.Some? && flagged.NonExistent?) || (flag.None? && default.None? && !force && owned > 0)
    ensures d.Resume? ==> d.id == if flag.Some? then flag.value else default.value
  {
    if flag.Some? then
      if flagged.NonExistent? then Abort else Resume(flag.value)
    else if default.Some? then Resume(default.value)
    else if !force && owned > 0 then Abort
    else CreateNew
  }
}
