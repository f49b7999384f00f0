/** The two registration runners as they are written, over a chain updated in place. */
module MechAdapter {
  import opened MechRegistration
  import opened Options

  class Adapter {
    const cfg: Config
    var chain: Chain

    constructor (cfg: Config, chain: Chain)
      ensures this.cfg == cfg && this.chain == chain
    {
      this.cfg, this.chain := cfg, chain;
    }

    /** A call: simulated first, and then, unless the adapter only observes, sent and waited for. */
    method Run(call: Call) returns (ok: bool)
      modifies this
      ensures ok == GoesThrough(cfg, old(chain), call) && chain == Perform(cfg, old(chain), call)
    {
      var fate := FateOf(chain);
      ok := Legal(chain, call) && !fate.Unsent?;
      if ok && !cfg.observeOnly {
        if fate.StillOut? {
          chain := chain.(out := chain.out + [call]);
          ok := false;
        } else {
          if fate.Overtaken? {
            chain := Land(chain, fate.k);
          }
          chain := Mine(chain, call);
        }
      }
      chain := chain.(made := chain.made + [Made(call, ok)]);
    }

    /** Waits for a new service to show up in a read, for a bounded number of reads. */
    method WaitForServiceVisible(id: ServiceId) returns (visible: bool)
      ensures visible == ShowsUp(chain.shows(id), cfg.maxAttempts)
    {
      var seen := chain.shows(id);
      var attempt := 0;
      while attempt < cfg.maxAttempts && attempt < |seen|
        invariant attempt <= cfg.maxAttempts && attempt <= |seen|
        invariant forall i :: 0 <= i < attempt ==> seen[i] == Some(NonExistent)
      {
        if seen[attempt].None? {
          return false;
        }
        if !seen[attempt].value.NonExistent? {
          return true;
        }
        attempt := attempt + 1;
      }
      return false;
    }

    method RunCreateStep() returns (result: StepResult)
      modifies this
      ensures (chain, result) == CreateStep(cfg, old(chain))
    {
      var id := chain.nextId;
      var ok := Run(Create);
      if ok && !cfg.observeOnly {
        ok := WaitForServiceVisible(id);
      }
      result := if ok then StepDone(id, StepCreate) else StepFailed;
    }

    method RegisterAsMech(existing: Option<ServiceId>) returns (outcome: Outcome)
      modifies this
      ensures (chain, outcome) == RunAll(cfg, old(chain), existing)
    {
      var id;
      var ok;
      if existing.Some? {
        id := existing.value;
      } else {
        var created := RunCreateStep();
        if created.StepFailed? {
          return Failed;
        }
        id := created.id;
      }
      ghost var start := chain;
      var state := StateOf(chain, id);
      if !Resumable(state) {
        return Failed;
      }
      var needsActivateRegistration := state.PreRegistration?;
      var needsRegisterAgents := state.PreRegistration? || state.ActiveRegistration?;
      var needsDeploy := !state.Deployed?;
      if needsActivateRegistration {
        ok := Run(ActivateRegistration(id, cfg.bondWei));
        if !ok {
          return Failed;
        }
        assert StepsFrom(state)[1..] == [StepRegister, StepDeploy, StepCreateMech];
      }
      assert needsRegisterAgents ==>
        PerformAll(cfg, start, id, StepsFrom(state)) ==
        PerformAll(cfg, chain, id, [StepRegister, StepDeploy, StepCreateMech]);
      if needsRegisterAgents {
        if !cfg.hasAgentInstance {
          return Failed;
        }
        ok := Run(RegisterAgents(id, cfg.agentId, cfg.bondWei));
        if !ok {
          return Failed;
        }
        assert [StepRegister, StepDeploy, StepCreateMech][1..] == [StepDeploy, StepCreateMech];
      }
      assert needsDeploy ==>
        PerformAll(cfg, start, id, StepsFrom(state)) == PerformAll(cfg, chain, id, [StepDeploy, StepCreateMech]);
      if needsDeploy {
        ok := Run(Deploy(id));
        if !ok {
          return Failed;
        }
        assert [StepDeploy, StepCreateMech][1..] == [StepCreateMech];
      }
      assert PerformAll(cfg, start, id, StepsFrom(state)) == PerformAll(cfg, chain, id, [StepCreateMech]);
      ok := Run(CreateMech(id, cfg.payload));
      if !ok {
        return Failed;
      }
      assert [StepCreateMech][1..] == [];
      return Registered(id, MultisigOf(chain, id));
    }

    method RegisterAsMechStep(existing: Option<ServiceId>) returns (result: StepResult)
      modifies this
      ensures (chain, result) == RunStep(cfg, old(chain), existing)
    {
      var ok;
      if existing.None? {
        result := RunCreateStep();
        return;
      }
      var id := existing.value;
      var state := StateOf(chain, id);
      if !Resumable(state) {
        return StepFailed;
      }
      var step := NextStep(state);
      if step.StepRegister? && !cfg.hasAgentInstance {
        return StepFailed;
      }
      ok := Run(CallFor(cfg, id, step));
      return if ok then StepDone(id, step) else StepFailed;
    }

    /** The operator's loop over the one-step runner ends where the one-shot runner ends. */
    method RegisterStepByStep(existing: Option<ServiceId>) returns (outcome: Outcome)
      requires !cfg.observeOnly
      modifies this
      ensures (chain, outcome) == RunAll(cfg, old(chain), existing)
    {
      OneShotIsStepwise(cfg, chain, existing);
      var at := existing;
      while true
        invariant Iterate(cfg, chain, at) == RunAll(cfg, old(chain), existing)
        decreases StepsLeft(chain, at)
      {
        StepAdvances(cfg, chain, at);
        var result := RegisterAsMechStep(at);
        if result.StepFailed? {
          return Failed;
        }
        if result.step.StepCreateMech? {
          return Registered(result.id, MultisigOf(chain, result.id));
        }
        at := Some(result.id);
      }
    }
  }
}
