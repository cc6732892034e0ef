/** What the orchestrator guarantees about every run: it follows its plan
    and stops at the first failure; the plan applies the five manifests in
    stage order with the fixed waits between them; the infrastructure stage
    is gated on its inputs and applies the edited local copy. */
module OrchestratorProperties {
  import opened Text
  import opened Manifests
  import opened Credentials
  import opened Tools
  import opened Orchestrator

  // ---------------------------------------------------------------------
  // Fail-fast execution of any plan.

  lemma RestShift(outcomes: seq<bool>, i: nat)
    ensures Succeeds(Rest(outcomes), i) == Succeeds(outcomes, i + 1)
  {
  }

  lemma EffectsPrepend(e: Event, trace: seq<Event>)
    ensures Effects([e] + trace) == (if e.Sleep? then 0 else 1) + Effects(trace)
  {
    assert ([e] + trace)[1..] == trace;
  }

  /** A run performs a prefix of its plan: all of it when it succeeds; when
      it fails, up to and including the failing step, which can fail (is
      not a sleep), and nothing after it. */
  lemma RunFollowsPlan(plan: seq<Event>, outcomes: seq<bool>)
    ensures var x := Run(plan, outcomes);
            && |x.trace| <= |plan| && x.trace == plan[..|x.trace|]
            && (x.status.Succeeded? ==> x.trace == plan)
            && (x.status.Failed? ==>
                  |x.trace| > 0 && x.status.step == x.trace[|x.trace| - 1] && !x.status.step.Sleep?)
  {
    RunIsPrefix(plan, outcomes);
    RunStops(plan, outcomes);
  }

  lemma {:induction false} RunIsPrefix(plan: seq<Event>, outcomes: seq<bool>)
    ensures var x := Run(plan, outcomes);
            |x.trace| <= |plan| && x.trace == plan[..|x.trace|]
    decreases |plan|
  {
    if plan != [] && (plan[0].Sleep? || Succeeds(outcomes, 0)) {
      var outs := if plan[0].Sleep? then outcomes else Rest(outcomes);
      var y := Run(plan[1..], outs);
      RunIsPrefix(plan[1..], outs);
      assert Run(plan, outcomes).trace == [plan[0]] + y.trace;
      assert [plan[0]] + plan[1..][..|y.trace|] == plan[..|y.trace| + 1];
    }
  }

  lemma {:induction false} RunStops(plan: seq<Event>, outcomes: seq<bool>)
    ensures var x := Run(plan, outcomes);
            && (x.status.Succeeded? ==> x.trace == plan)
            && (x.status.Failed? ==>
                  |x.trace| > 0 && x.status.step == x.trace[|x.trace| - 1] && !x.status.step.Sleep?)
    decreases |plan|
  {
    if plan != [] && (plan[0].Sleep? || Succeeds(outcomes, 0)) {
      var outs := if plan[0].Sleep? then outcomes else Rest(outcomes);
      var y := Run(plan[1..], outs);
      RunStops(plan[1..], outs);
      assert Run(plan, outcomes) == Execution([plan[0]] + y.trace, y.status);
      assert [plan[0]] + plan[1..] == plan;
    }
  }

  /** With no outcome given every step succeeds, so the run is the plan. */
  lemma {:induction false} RunWithoutFailures(plan: seq<Event>)
    ensures Run(plan, []) == Execution(plan, Succeeded)
    decreases |plan|
  {
    if plan != [] {
      RunWithoutFailures(plan[1..]);
      assert [plan[0]] + plan[1..] == plan;
    }
  }

  /** A run succeeds exactly when every step that can fail succeeds; a
      failed run failed on its last step's outcome after all earlier
      outcomes succeeded. */
  lemma {:induction false} RunOutcomes(plan: seq<Event>, outcomes: seq<bool>)
    ensures var x := Run(plan, outcomes);
            && (x.status.Succeeded? <==> forall i | 0 <= i < Effects(plan) :: Succeeds(outcomes, i))
            && (x.status.Failed? ==>
                  && Effects(x.trace) >= 1
                  && !Succeeds(outcomes, Effects(x.trace) - 1)
                  && forall i | 0 <= i < Effects(x.trace) - 1 :: Succeeds(outcomes, i))
    decreases |plan|
  {
    var x := Run(plan, outcomes);
    if plan == [] {
    } else if plan[0].Sleep? {
      RunOutcomes(plan[1..], outcomes);
      EffectsPrepend(plan[0], plan[1..]);
      EffectsPrepend(plan[0], Run(plan[1..], outcomes).trace);
      assert plan == [plan[0]] + plan[1..];
    } else if Succeeds(outcomes, 0) {
      var y := Run(plan[1..], Rest(outcomes));
      RunOutcomes(plan[1..], Rest(outcomes));
      EffectsPrepend(plan[0], plan[1..]);
      EffectsPrepend(plan[0], y.trace);
      assert plan == [plan[0]] + plan[1..];
      forall i | 0 <= i
        ensures Succeeds(Rest(outcomes), i) == Succeeds(outcomes, i + 1)
      {
        RestShift(outcomes, i);
      }
      if y.status.Succeeded? {
        forall i | 0 <= i < Effects(plan)
          ensures Succeeds(outcomes, i)
        {
          if i > 0 {
            assert Succeeds(Rest(outcomes), i - 1);
          }
        }
      } else {
        assert !Succeeds(outcomes, Effects(y.trace));
        assert !(forall i | 0 <= i < Effects(plan) :: Succeeds(outcomes, i));
        forall i | 0 <= i < Effects(x.trace) - 1
          ensures Succeeds(outcomes, i)
        {
          if i > 0 {
            assert Succeeds(Rest(outcomes), i - 1);
          }
        }
      }
    } else {
      EffectsPrepend(plan[0], plan[1..]);
      assert plan == [plan[0]] + plan[1..];
      assert x.trace == [plan[0]] + [];
      EffectsPrepend(plan[0], []);
    }
  }

  lemma {:induction false} AppliesConcat(a: seq<Event>, b: seq<Event>)
    ensures Applies(a + b) == Applies(a) + Applies(b)
    ensures Sleeps(a + b) == Sleeps(a) + Sleeps(b)
    decreases |a|
  {
    if a != [] {
      assert (a + b)[1..] == a[1..] + b;
      AppliesConcat(a[1..], b);
    } else {
      assert a + b == b;
    }
  }

  /** The manifests and waits of a prefix of a plan are a prefix of the plan's. */
  lemma AppliesOfPrefix(plan: seq<Event>, k: nat)
    requires k <= |plan|
    ensures Applies(plan[..k]) <= Applies(plan) && Sleeps(plan[..k]) <= Sleeps(plan)
  {
    assert plan == plan[..k] + plan[k..];
    AppliesConcat(plan[..k], plan[k..]);
  }

  // ---------------------------------------------------------------------
  // The plan.

  /** The manifest of Cluster API stage `k`: cert-manager, core, bootstrap, control plane. */
  function StageManifest(version: string, k: nat): (url: string)
    requires k < 4
  {
    [CertManagerUrl, ReleaseAsset(version, CoreComponents),
     ReleaseAsset(version, BootstrapComponents), ReleaseAsset(version, ControlPlaneComponents)][k]
  }

  /** The wait after stage `k`: 50 s after cert-manager, 10 s after each other. */
  function StageWait(k: nat): (ms: nat)
    requires k < 4
  {
    [50000, 10000, 10000, 10000][k]
  }

  /** Every manifest a run with these inputs may apply, in order. */
  function StageManifests(inputs: Inputs): (urls: seq<string>) {
    if inputs.capiVersion == "" then []
    else [StageManifest(inputs.capiVersion, 0), StageManifest(inputs.capiVersion, 1),
          StageManifest(inputs.capiVersion, 2), StageManifest(inputs.capiVersion, 3)]
         + if InstallsInfrastructure(inputs) then [InfrastructureFile(inputs.homeDir)] else []
  }

  lemma {:induction false} ProviderStageProjections(url: string, provider: string, inputs: Inputs)
    ensures Applies(ProviderStage(url, provider, inputs)) == [InfrastructureFile(inputs.homeDir)]
    ensures Sleeps(ProviderStage(url, provider, inputs)) == []
  {
    var file := InfrastructureFile(inputs.homeDir);
    var head := [Locate(Curl), Locate(Sed), Locate(Kubectl), Download(url, file)];
    var edit := if inputs.secret != "" then [Edit(file, RulesFor(provider, inputs.secret, inputs.username, inputs.password))] else [];
    AppliesConcat(head + edit, [Apply(file)]);
    AppliesConcat(head, edit);
    assert head == [head[0]] + [head[1]] + [head[2]] + [head[3]];
    AppliesConcat([head[0]] + [head[1]] + [head[2]], [head[3]]);
    AppliesConcat([head[0]] + [head[1]], [head[2]]);
    AppliesConcat([head[0]], [head[1]]);
  }

  /** Where each step sits in the plan of a run with a Cluster API version:
      the kubectl lookup, then for each of the four stages its apply
      immediately followed by its wait, then the infrastructure stage, only
      when both of its inputs are given. */
  lemma PlanLayout(inputs: Inputs)
    requires inputs.capiVersion != ""
    ensures var plan := Plan(inputs);
            && |plan| >= 9 && plan[0] == Locate(Kubectl)
            && (forall k | 0 <= k < 4 ::
                  plan[2 * k + 1] == Apply(StageManifest(inputs.capiVersion, k))
                  && plan[2 * k + 2] == Sleep(StageWait(k)))
            && plan[9..] == if InstallsInfrastructure(inputs)
                            then ProviderStage(InfrastructureUrl(inputs.provider, inputs.providerVersion),
                                               inputs.provider, inputs)
                            else []
  {
    var plan := Plan(inputs);
    var v := inputs.capiVersion;
    assert plan[1..9] == CoreStages(v);
    forall k | 0 <= k < 4
      ensures plan[2 * k + 1] == Apply(StageManifest(v, k)) && plan[2 * k + 2] == Sleep(StageWait(k))
    {
      assert plan[2 * k + 1] == CoreStages(v)[2 * k];
      assert plan[2 * k + 2] == CoreStages(v)[2 * k + 1];
    }
  }

  lemma StagePair(manifest: string, ms: nat)
    ensures Applies([Apply(manifest), Sleep(ms)]) == [manifest]
    ensures Sleeps([Apply(manifest), Sleep(ms)]) == [ms]
  {
    assert [Apply(manifest), Sleep(ms)][1..] == [Sleep(ms)];
    assert [Sleep(ms)][1..] == [];
    assert Applies([Sleep(ms)]) == [] && Sleeps([Sleep(ms)]) == [ms];
  }

  lemma {:induction false} CoreStagesProjections(version: string)
    ensures Applies(CoreStages(version)) == [StageManifest(version, 0), StageManifest(version, 1),
                                             StageManifest(version, 2), StageManifest(version, 3)]
    ensures Sleeps(CoreStages(version)) == [50000, 10000, 10000, 10000]
  {
    var c := CoreStages(version);
    var p0, p1, p2, p3 := [c[0], c[1]], [c[2], c[3]], [c[4], c[5]], [c[6], c[7]];
    assert c == p0 + p1 + p2 + p3;
    AppliesConcat(p0 + p1 + p2, p3);
    AppliesConcat(p0 + p1, p2);
    AppliesConcat(p0, p1);
    StagePair(StageManifest(version, 0), 50000);
    StagePair(StageManifest(version, 1), 10000);
    StagePair(StageManifest(version, 2), 10000);
    StagePair(StageManifest(version, 3), 10000);
  }

  /** The manifests are applied in stage order (cert-manager, core,
      bootstrap, control plane, then the infrastructure file) and the waits
      are 50 s, 10 s, 10 s, 10 s; a run with no Cluster API version applies
      nothing and never waits. */
  lemma {:induction false} PlanStageOrder(inputs: Inputs)
    ensures Applies(Plan(inputs)) == StageManifests(inputs)
    ensures Sleeps(Plan(inputs)) == if inputs.capiVersion == "" then [] else [50000, 10000, 10000, 10000]
  {
    var plan := Plan(inputs);
    var v := inputs.capiVersion;
    if v == "" {
      assert plan == [Locate(Kubectl)];
    } else {
      var tail := if InstallsInfrastructure(inputs)
        then ProviderStage(InfrastructureUrl(inputs.provider, inputs.providerVersion), inputs.provider, inputs)
        else [];
      var head := [Locate(Kubectl)] + CoreStages(v);
      assert plan == head + tail;
      AppliesConcat(head, tail);
      AppliesConcat([Locate(Kubectl)], CoreStages(v));
      assert Applies([Locate(Kubectl)]) == [] && Sleeps([Locate(Kubectl)]) == [];
      CoreStagesProjections(v);
      assert Applies(head) == StageManifests(inputs)[..4];
      assert Sleeps(head) == [50000, 10000, 10000, 10000];
      if InstallsInfrastructure(inputs) {
        ProviderStageProjections(InfrastructureUrl(inputs.provider, inputs.providerVersion), inputs.provider, inputs);
      } else {
        assert Applies(tail) == [] && Sleeps(tail) == [];
      }
    }
  }

  /** Whatever the outcomes, a run applies a prefix of the stage manifests
      in order and waits a prefix of the stage waits. */
  lemma RunStageOrder(inputs: Inputs, outcomes: seq<bool>)
    ensures Applies(Run(Plan(inputs), outcomes).trace) <= StageManifests(inputs)
    ensures Sleeps(Run(Plan(inputs), outcomes).trace) <=
              if inputs.capiVersion == "" then [] else [50000, 10000, 10000, 10000]
  {
    var plan := Plan(inputs);
    PlanStageOrder(inputs);
    RunFollowsPlan(plan, outcomes);
    AppliesOfPrefix(plan, |Run(plan, outcomes).trace|);
  }
}
