/** Which stages a run reaches, and in what order, whatever the outcomes. */
module OrchestratorGating {
  import opened Text
  import opened Manifests
  import opened Credentials
  import opened Tools
  import opened Orchestrator
  import opened OrchestratorProperties

  /** With no Cluster API version only the kubectl lookup happens: nothing
      is applied and nothing waited for. */
  lemma NoVersionNoInstall(inputs: Inputs, outcomes: seq<bool>)
    requires inputs.capiVersion == ""
    ensures Run(Plan(inputs), outcomes).trace == [Locate(Kubectl)]
    ensures Run(Plan(inputs), outcomes).status.Succeeded? <==> Succeeds(outcomes, 0)
  {
    assert Plan(inputs) == [Locate(Kubectl)];
  }

  /** Along any run with a Cluster API version: stage k's manifest is applied
      at position 2k+1 and its wait follows at 2k+2, so a stage starts only
      after the previous stage's wait; a run that stops right after a
      stage's apply failed on that apply; the infrastructure stage is
      reached only when both of its inputs are given, and only after the
      control-plane wait. */
  lemma StageGating(inputs: Inputs, outcomes: seq<bool>)
    requires inputs.capiVersion != ""
    ensures var x := Run(Plan(inputs), outcomes);
            var v := inputs.capiVersion;
            && (forall k | 0 <= k < 4 && 2 * k + 1 < |x.trace| ::
                  x.trace[2 * k + 1] == Apply(StageManifest(v, k)))
            && (forall k | 0 <= k < 4 && 2 * k + 2 < |x.trace| ::
                  x.trace[2 * k + 2] == Sleep(StageWait(k)))
            && (forall k | 0 <= k < 4 && |x.trace| == 2 * k + 2 ::
                  x.status == Failed(Apply(StageManifest(v, k))))
            && (|x.trace| > 9 ==>
                  && InstallsInfrastructure(inputs)
                  && x.trace[8] == Sleep(StageWait(3))
                  && x.trace[9..] <= ProviderStage(InfrastructureUrl(inputs.provider, inputs.providerVersion),
                                                   inputs.provider, inputs))
  {
    var plan := Plan(inputs);
    var x := Run(plan, outcomes);
    PlanLayout(inputs);
    RunFollowsPlan(plan, outcomes);
    CoreGating(plan, x, inputs.capiVersion);
    TailGating(plan, x, InstallsInfrastructure(inputs),
               ProviderStage(InfrastructureUrl(inputs.provider, inputs.providerVersion), inputs.provider, inputs));
  }

  /** The infrastructure part of StageGating: steps past the ninth come from
      the infrastructure stage, which is in the plan only when installed. */
  lemma TailGating(plan: seq<Event>, x: Execution, installs: bool, stage: seq<Event>)
    requires |plan| >= 9 && plan[9..] == if installs then stage else []
    requires |x.trace| <= |plan| && x.trace == plan[..|x.trace|]
    ensures |x.trace| > 9 ==> installs && x.trace[8] == plan[8] && x.trace[9..] <= stage
  {
    var n := |x.trace|;
    if n > 9 {
      assert plan[9..] != [];
      assert x.trace[9..] == plan[9..][..n - 9];
    }
  }

  /** The core-stage part of StageGating, for any execution that follows a
      plan laid out as PlanLayout describes. */
  lemma CoreGating(plan: seq<Event>, x: Execution, v: string)
    requires |plan| >= 9
    requires forall k | 0 <= k < 4 ::
               plan[2 * k + 1] == Apply(StageManifest(v, k)) && plan[2 * k + 2] == Sleep(StageWait(k))
    requires |x.trace| <= |plan| && x.trace == plan[..|x.trace|]
    requires x.status.Succeeded? ==> x.trace == plan
    requires x.status.Failed? ==> |x.trace| > 0 && x.status.step == x.trace[|x.trace| - 1]
    ensures forall k | 0 <= k < 4 && 2 * k + 1 < |x.trace| :: x.trace[2 * k + 1] == Apply(StageManifest(v, k))
    ensures forall k | 0 <= k < 4 && 2 * k + 2 < |x.trace| :: x.trace[2 * k + 2] == Sleep(StageWait(k))
    ensures forall k | 0 <= k < 4 && |x.trace| == 2 * k + 2 :: x.status == Failed(Apply(StageManifest(v, k)))
  {
    var n := |x.trace|;
    forall k | 0 <= k < 4 && 2 * k + 1 < n
      ensures x.trace[2 * k + 1] == Apply(StageManifest(v, k))
    {
      assert x.trace[2 * k + 1] == plan[2 * k + 1];
    }
    forall k | 0 <= k < 4 && 2 * k + 2 < n
      ensures x.trace[2 * k + 2] == Sleep(StageWait(k))
    {
      assert x.trace[2 * k + 2] == plan[2 * k + 2];
    }
    forall k | 0 <= k < 4 && n == 2 * k + 2
      ensures x.status == Failed(Apply(StageManifest(v, k)))
    {
      assert |x.trace| < |plan|;
      assert x.trace[n - 1] == plan[2 * k + 1];
    }
  }

  /** The infrastructure stage looks up curl, sed and kubectl, downloads the
      provider manifest to `infrastructure-components.yaml` in the home
      directory, edits that file in place exactly when a secret is given
      (with the provider's rules, which may be none), and applies that local
      file last; it is the only apply of the stage. */
  lemma ProviderStageLayout(url: string, provider: string, inputs: Inputs)
    ensures var stage := ProviderStage(url, provider, inputs);
            var file := InfrastructureFile(inputs.homeDir);
            && stage[..3] == [Locate(Curl), Locate(Sed), Locate(Kubectl)]
            && stage[3] == Download(url, file)
            && stage[|stage| - 1] == Apply(file)
            && (forall i | 0 <= i < |stage| - 1 :: !stage[i].Apply?)
            && ((exists i | 0 <= i < |stage| :: stage[i].Edit?) <==> inputs.secret != "")
            && (inputs.secret != "" ==>
                  stage[4] == Edit(file, RulesFor(provider, inputs.secret, inputs.username, inputs.password)))
    ensures inputs.homeDir <= InfrastructureFile(inputs.homeDir)
    ensures var file := InfrastructureFile(inputs.homeDir);
            file == inputs.homeDir + InfrastructureComponents
            || file == inputs.homeDir + "/" + InfrastructureComponents
    ensures var file := InfrastructureFile(inputs.homeDir);
            file[|file| - |InfrastructureComponents|..] == InfrastructureComponents
  {
    var stage := ProviderStage(url, provider, inputs);
    if inputs.secret != "" {
      assert stage[4].Edit?;
    }
  }
}
