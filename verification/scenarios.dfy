/** Three runs worked through end to end: the core stages alone, the core
    stages plus an aws provider with a secret, and a run whose bootstrap
    apply fails. */
module Scenarios {
  import opened Text
  import opened Manifests
  import opened Credentials
  import opened Tools
  import opened Orchestrator
  import opened OrchestratorProperties

  const Home: string := "/home/runner"

  /** A base64-encoded AWS credentials file: the encoding of `[default]`. */
  const AwsSecret: string := "W2RlZmF1bHRd"

  /** Any Cluster API version without an infrastructure provider, every
      step succeeding: four applies in stage order with waits of 50 s, 10 s,
      10 s, 10 s after them, and no download or edit. */
  lemma RunWithoutProvider(inputs: Inputs)
    requires inputs.capiVersion != "" && !InstallsInfrastructure(inputs)
    ensures var x := Run(Plan(inputs), []);
            var v := inputs.capiVersion;
            && x.status == Succeeded
            && Applies(x.trace) == [CertManagerUrl, ReleaseAsset(v, CoreComponents),
                                    ReleaseAsset(v, BootstrapComponents),
                                    ReleaseAsset(v, ControlPlaneComponents)]
            && Sleeps(x.trace) == [50000, 10000, 10000, 10000]
            && forall e | e in x.trace :: !e.Download? && !e.Edit?
  {
    var v := inputs.capiVersion;
    var core := [Locate(Kubectl)] + CoreStages(v);
    assert Plan(inputs) == core;
    RunWithoutFailures(core);
    CoreProjections(v);
  }

  /** What the kubectl lookup and the four core stages apply, wait for, and
      never do. */
  lemma CoreProjections(v: string)
    ensures var core := [Locate(Kubectl)] + CoreStages(v);
            && Applies(core) == [CertManagerUrl, ReleaseAsset(v, CoreComponents),
                                 ReleaseAsset(v, BootstrapComponents),
                                 ReleaseAsset(v, ControlPlaneComponents)]
            && Sleeps(core) == [50000, 10000, 10000, 10000]
            && forall e | e in core :: !e.Download? && !e.Edit?
  {
    AppliesConcat([Locate(Kubectl)], CoreStages(v));
    assert Applies([Locate(Kubectl)]) == [] && Sleeps([Locate(Kubectl)]) == [];
    CoreStagesProjections(v);
    assert [StageManifest(v, 0), StageManifest(v, 1), StageManifest(v, 2), StageManifest(v, 3)]
        == [CertManagerUrl, ReleaseAsset(v, CoreComponents),
            ReleaseAsset(v, BootstrapComponents), ReleaseAsset(v, ControlPlaneComponents)];
  }

  /** Cluster API v1.2.3 and no provider, every step succeeding. */
  lemma CoreOnlyRun()
    ensures var inputs := Inputs("v1.2.3", "", "", "", "", "", Home);
            var x := Run(Plan(inputs), []);
            && x.status == Succeeded
            && Applies(x.trace) == [CertManagerUrl, ReleaseAsset("v1.2.3", CoreComponents),
                                    ReleaseAsset("v1.2.3", BootstrapComponents),
                                    ReleaseAsset("v1.2.3", ControlPlaneComponents)]
            && Sleeps(x.trace) == [50000, 10000, 10000, 10000]
            && forall e | e in x.trace :: !e.Download? && !e.Edit?
  {
    RunWithoutProvider(Inputs("v1.2.3", "", "", "", "", "", Home));
  }

  /** Adding the aws provider v0.5.0 with secret AwsSecret: after the
      control-plane wait the provider manifest is downloaded, its
      credentials placeholder is replaced by AwsSecret in the local file, and
      that file is applied. */
  lemma AwsProviderRun()
    ensures var inputs := Inputs("v1.2.3", "aws", "v0.5.0", AwsSecret, "", "", Home);
            var x := Run(Plan(inputs), []);
            var file := InfrastructureFile(Home);
            && x.status == Succeeded
            && |x.trace| == 15
            && x.trace[9..] == [Locate(Curl), Locate(Sed), Locate(Kubectl),
                                Download(InfrastructureUrl("aws", "v0.5.0"), file),
                                Edit(file, [Rule(AwsCredentials, AwsSecret)]), Apply(file)]
  {
    var inputs := Inputs("v1.2.3", "aws", "v0.5.0", AwsSecret, "", "", Home);
    var plan := Plan(inputs);
    RunOutcomes(plan, []);
    RunFollowsPlan(plan, []);
    PlanLayout(inputs);
  }

  /** The aws edit of any manifest with a base64 secret of at least 29
      characters (any real credentials file) leaves no
      `${AWS_B64ENCODED_CREDENTIALS}` in it, and the secret occurs in it if
      the placeholder did. */
  lemma AwsManifestEdited(manifest: string, secret: string)
    requires IsBase64(secret) && |secret| >= 29
    ensures var edited := ApplyRules(manifest, [Rule(AwsCredentials, secret)]);
            && !Occurs(AwsCredentials, edited)
            && (Occurs(AwsCredentials, manifest) ==> Occurs(secret, edited))
  {
    assert |AwsCredentials| == 29;
    Base64SecretInjected("aws", secret, manifest);
  }

  /** In a manifest `before + placeholder + after` whose first placeholder
      is that one, the aws edit puts the secret exactly there. */
  lemma AwsSecretInPlace(before: string, after: string)
    requires !Occurs(AwsCredentials, before + AwsCredentials[..|AwsCredentials| - 1])
    ensures ApplyRules(before + AwsCredentials + after, [Rule(AwsCredentials, AwsSecret)])
              == before + AwsSecret + ReplaceAll(after, AwsCredentials, AwsSecret)
  {
    SecretAtFirstPlaceholder("aws", AwsSecret, "", "", before, after);
  }

  /** Outcomes: kubectl found, cert-manager and core applied, bootstrap
      apply fails. The run fails at the bootstrap apply, after the core
      wait; the control-plane and infrastructure stages never start. */
  lemma BootstrapFailureRun(provider: string, providerVersion: string, secret: string)
    ensures var inputs := Inputs("v1.2.3", provider, providerVersion, secret, "", "", Home);
            var x := Run(Plan(inputs), [true, true, true, false]);
            && x.status == Failed(Apply(ReleaseAsset("v1.2.3", BootstrapComponents)))
            && x.trace == [Locate(Kubectl), Apply(CertManagerUrl), Sleep(50000),
                           Apply(ReleaseAsset("v1.2.3", CoreComponents)), Sleep(10000),
                           Apply(ReleaseAsset("v1.2.3", BootstrapComponents))]
  {
    var inputs := Inputs("v1.2.3", provider, providerVersion, secret, "", "", Home);
    var plan := Plan(inputs);
    PlanLayout(inputs);
    var outcomes := [true, true, true, false];
    assert plan[0] == Locate(Kubectl);
    assert plan[1] == Apply(StageManifest("v1.2.3", 0)) && plan[2] == Sleep(StageWait(0));
    assert plan[3] == Apply(StageManifest("v1.2.3", 1)) && plan[4] == Sleep(StageWait(1));
    assert plan[5] == Apply(StageManifest("v1.2.3", 2));
    assert Run(plan[5..], [false]) == Execution([plan[5]], Failed(plan[5]));
    assert Run(plan[4..], [false]) == Prepend(plan[4], Run(plan[5..], [false]));
    assert Run(plan[3..], [true, false]) == Prepend(plan[3], Run(plan[4..], [false]));
    assert Run(plan[2..], [true, false]) == Prepend(plan[2], Run(plan[3..], [true, false]));
    assert Run(plan[1..], [true, true, false]) == Prepend(plan[1], Run(plan[2..], [true, false]));
    assert Run(plan, outcomes) == Prepend(plan[0], Run(plan[1..], [true, true, false]));
  }
}
