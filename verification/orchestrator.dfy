/** The provisioning orchestrator: cert-manager, the Cluster API core, the
    kubeadm bootstrap and control-plane providers, then optionally an
    infrastructure provider, each awaited in turn, with fixed waits after
    the first four, halting at the first step that fails.

    Every side effect is an event of the trace: a tool lookup, a
    `kubectl apply`, a sleep, a `curl` download, a `sed` edit. Whether a
    step succeeds is not the orchestrator's to decide: it is read from a
    list of outcomes, one per step that can fail (every step except a
    sleep), in order; steps past the end of the list succeed. */
module Orchestrator {
  import opened Text
  import opened Manifests
  import opened Credentials
  import opened Tools

  /** The action's inputs (an absent input reads as ""), and the runner's home directory. */
  datatype Inputs = Inputs(
    capiVersion: string,
    provider: string,
    providerVersion: string,
    secret: string,
    username: string,
    password: string,
    homeDir: string)

  datatype Event =
    | Locate(tool: Tool)                    // find kubectl, curl or sed, or fail
    | Apply(manifest: string)               // kubectl apply -f manifest
    | Sleep(ms: nat)                        // a fixed wait; never fails
    | Download(url: string, file: string)   // curl -Lo file url
    | Edit(file: string, rules: seq<Rule>)  // sed -ie <rules> file, in place

  datatype Status = Succeeded | Failed(step: Event)

  datatype Execution = Execution(trace: seq<Event>, status: Status)

  const CertManagerWait: nat := 50000
  const ProviderWait: nat := 10000

  /** Where the infrastructure manifest is downloaded, edited and applied from. */
  function InfrastructureFile(homeDir: string): (file: string) {
    JoinPath(homeDir, InfrastructureComponents)
  }

  /** Both `capi-provider` and `capi-provider-version` are given. */
  predicate InstallsInfrastructure(inputs: Inputs) {
    inputs.provider != "" && inputs.providerVersion != ""
  }

  // ---------------------------------------------------------------------
  // What a run intends to do, and what it does given the outcomes.

  /** The four stages every run with a Cluster API version goes through:
      apply a manifest, then wait. */
  function CoreStages(version: string): (stages: seq<Event>) {
    [Apply(CertManagerUrl), Sleep(CertManagerWait),
     Apply(ReleaseAsset(version, CoreComponents)), Sleep(ProviderWait),
     Apply(ReleaseAsset(version, BootstrapComponents)), Sleep(ProviderWait),
     Apply(ReleaseAsset(version, ControlPlaneComponents)), Sleep(ProviderWait)]
  }

  /** The infrastructure stage: find the tools, download the manifest, edit
      it when a secret is given, apply the local file. */
  function ProviderStage(url: string, provider: string, inputs: Inputs): (stage: seq<Event>) {
    var file := InfrastructureFile(inputs.homeDir);
    [Locate(Curl), Locate(Sed), Locate(Kubectl), Download(url, file)]
    + (if inputs.secret != "" then [Edit(file, RulesFor(provider, inputs.secret, inputs.username, inputs.password))] else [])
    + [Apply(file)]
  }

  /** Every step of a run, in order, if none of them fails. */
  function Plan(inputs: Inputs): (plan: seq<Event>) {
    [Locate(Kubectl)]
    + if inputs.capiVersion == "" then []
      else CoreStages(inputs.capiVersion)
           + if InstallsInfrastructure(inputs)
             then ProviderStage(InfrastructureUrl(inputs.provider, inputs.providerVersion), inputs.provider, inputs)
             else []
  }

  /** Outcome `i` of the list: a missing outcome is a success. */
  predicate Succeeds(outcomes: seq<bool>, i: nat) {
    i >= |outcomes| || outcomes[i]
  }

  function Rest(outcomes: seq<bool>): (rest: seq<bool>) {
    if outcomes == [] then [] else outcomes[1..]
  }

  function Prepend(e: Event, x: Execution): (y: Execution) {
    Execution([e] + x.trace, x.status)
  }

  function After(trace: seq<Event>, x: Execution): (y: Execution) {
    Execution(trace + x.trace, x.status)
  }

  /** Runs `plan` step by step, each step that can fail taking the next
      outcome, and stops at the first failure. */
  function Run(plan: seq<Event>, outcomes: seq<bool>): (x: Execution)
    decreases |plan|
  {
    if plan == [] then Execution([], Succeeded)
    else if plan[0].Sleep? then Prepend(plan[0], Run(plan[1..], outcomes))
    else if Succeeds(outcomes, 0) then Prepend(plan[0], Run(plan[1..], Rest(outcomes)))
    else Execution([plan[0]], Failed(plan[0]))
  }

  /** How many steps of `trace` can fail, i.e. take an outcome. */
  function Effects(trace: seq<Event>): (n: nat) {
    if trace == [] then 0 else (if trace[0].Sleep? then 0 else 1) + Effects(trace[1..])
  }

  /** The manifests a trace applies, in order. */
  function Applies(trace: seq<Event>): (manifests: seq<string>) {
    if trace == [] then []
    else (if trace[0].Apply? then [trace[0].manifest] else []) + Applies(trace[1..])
  }

  /** The waits of a trace, in order. */
  function Sleeps(trace: seq<Event>): (waits: seq<nat>) {
    if trace == [] then []
    else (if trace[0].Sleep? then [trace[0].ms] else []) + Sleeps(trace[1..])
  }

  // ---------------------------------------------------------------------
  // The orchestrator itself.

  /** Awaits one step: appends it to the trace and, unless it is a sleep,
      takes its outcome. `todo` is the rest of the plan, starting with `e`. */
  method Perform(e: Event, ghost todo: seq<Event>, trace: seq<Event>, outcomes: seq<bool>)
    returns (next: seq<Event>, remaining: seq<bool>, ok: bool)
    requires todo != [] && todo[0] == e
    ensures next == trace + [e]
    ensures ok == (e.Sleep? || Succeeds(outcomes, 0))
    ensures ok ==> After(trace, Run(todo, outcomes)) == After(next, Run(todo[1..], remaining))
    ensures !ok ==> After(trace, Run(todo, outcomes)) == Execution(next, Failed(e))
  {
    next := trace + [e];
    if e.Sleep? {
      ok, remaining := true, outcomes;
    } else {
      ok, remaining := Succeeds(outcomes, 0), Rest(outcomes);
    }
  }

  /** One Cluster API stage: apply its manifest, then wait `ms`. */
  method ApplyAndWait(url: string, ms: nat, ghost todo: seq<Event>, trace: seq<Event>, outcomes: seq<bool>)
    returns (next: seq<Event>, remaining: seq<bool>, ok: bool)
    requires |todo| >= 2 && todo[0] == Apply(url) && todo[1] == Sleep(ms)
    ensures ok ==> After(trace, Run(todo, outcomes)) == After(next, Run(todo[2..], remaining))
    ensures !ok ==> After(trace, Run(todo, outcomes)) == Execution(next, Failed(Apply(url)))
  {
    next, remaining, ok := Perform(Apply(url), todo, trace, outcomes);
    if ok {
      assert todo[1..][1..] == todo[2..];
      next, remaining, ok := Perform(Sleep(ms), todo[1..], next, remaining);
    }
  }

  /** The three lookups that open installProvider: curl, sed, then kubectl.
      `tail` is the plan after them. */
  method LocateProviderTools(ghost tail: seq<Event>, trace: seq<Event>, outcomes: seq<bool>)
    returns (next: seq<Event>, remaining: seq<bool>, status: Status)
    ensures status.Succeeded? ==>
              After(trace, Run([Locate(Curl), Locate(Sed), Locate(Kubectl)] + tail, outcomes))
                == After(next, Run(tail, remaining))
    ensures status.Failed? ==>
              After(trace, Run([Locate(Curl), Locate(Sed), Locate(Kubectl)] + tail, outcomes))
                == Execution(next, status)
  {
    var outs := outcomes;
    var ok;
    ghost var rest := [Locate(Curl), Locate(Sed), Locate(Kubectl)] + tail;
    next := trace;
    next, outs, ok := Perform(Locate(Curl), rest, next, outs);
    if !ok { return next, outs, Failed(Locate(Curl)); }
    rest := rest[1..];
    next, outs, ok := Perform(Locate(Sed), rest, next, outs);
    if !ok { return next, outs, Failed(Locate(Sed)); }
    rest := rest[1..];
    next, outs, ok := Perform(Locate(Kubectl), rest, next, outs);
    if !ok { return next, outs, Failed(Locate(Kubectl)); }
    rest := rest[1..];
    assert rest == tail;
    remaining, status := outs, Succeeded;
  }

  /** installProvider: the infrastructure stage for manifest `url`. */
  method InstallProvider(url: string, provider: string, inputs: Inputs, trace: seq<Event>,
                         outcomes: seq<bool>, ghost todo: seq<Event>)
    returns (next: seq<Event>, status: Status)
    requires todo == ProviderStage(url, provider, inputs)
    ensures Execution(next, status) == After(trace, Run(todo, outcomes))
  {
    var outs := outcomes;
    var ok;
    ghost var rest := todo[3..];
    assert todo == [Locate(Curl), Locate(Sed), Locate(Kubectl)] + rest;
    next, outs, status := LocateProviderTools(rest, trace, outs);
    if status.Failed? { return; }
    var tempFile := JoinPath(inputs.homeDir, InfrastructureComponents);
    next, outs, ok := Perform(Download(url, tempFile), rest, next, outs);
    if !ok { return next, Failed(Download(url, tempFile)); }
    rest := rest[1..];
    var secret := inputs.secret;
    if secret != "" {
      var replace := RulesFor(provider, secret, inputs.username, inputs.password);
      next, outs, ok := Perform(Edit(tempFile, replace), rest, next, outs);
      if !ok { return next, Failed(Edit(tempFile, replace)); }
      rest := rest[1..];
    }
    next, outs, ok := Perform(Apply(tempFile), rest, next, outs);
    if !ok { return next, Failed(Apply(tempFile)); }
    assert rest[1..] == [];
    assert next + [] == next;
    status := Succeeded;
  }

  /** The four Cluster API stages of installCapi: cert-manager, then the
      core, bootstrap and control-plane components of `version`, each
      applied and awaited. `tail` is the plan after them. */
  method InstallCoreStages(version: string, ghost tail: seq<Event>, trace: seq<Event>, outcomes: seq<bool>)
    returns (next: seq<Event>, remaining: seq<bool>, status: Status)
    ensures status.Succeeded? ==>
              After(trace, Run(CoreStages(version) + tail, outcomes)) == After(next, Run(tail, remaining))
    ensures status.Failed? ==>
              After(trace, Run(CoreStages(version) + tail, outcomes)) == Execution(next, status)
  {
    var outs := outcomes;
    var ok;
    ghost var rest := CoreStages(version) + tail;
    next := trace;
    var url := CertManagerUrl;
    next, outs, ok := ApplyAndWait(url, CertManagerWait, rest, next, outs);
    if !ok { return next, outs, Failed(Apply(url)); }
    rest := rest[2..];

    url := ReleaseAsset(version, CoreComponents);
    next, outs, ok := ApplyAndWait(url, ProviderWait, rest, next, outs);
    if !ok { return next, outs, Failed(Apply(url)); }
    rest := rest[2..];

    url := ReleaseAsset(version, BootstrapComponents);
    next, outs, ok := ApplyAndWait(url, ProviderWait, rest, next, outs);
    if !ok { return next, outs, Failed(Apply(url)); }
    rest := rest[2..];

    url := ReleaseAsset(version, ControlPlaneComponents);
    next, outs, ok := ApplyAndWait(url, ProviderWait, rest, next, outs);
    if !ok { return next, outs, Failed(Apply(url)); }
    rest := rest[2..];
    assert rest == tail;
    remaining, status := outs, Succeeded;
  }

  /** installCapi: the whole run. */
  method InstallCapi(inputs: Inputs, outcomes: seq<bool>) returns (trace: seq<Event>, status: Status)
    ensures Execution(trace, status) == Run(Plan(inputs), outcomes)
  {
    var outs := outcomes;
    var ok;
    ghost var rest := Plan(inputs);
    trace := [];
    assert [] + Run(rest, outs).trace == Run(rest, outs).trace;
    var version := inputs.capiVersion;
    trace, outs, ok := Perform(Locate(Kubectl), rest, trace, outs);
    if !ok { return trace, Failed(Locate(Kubectl)); }
    rest := rest[1..];
    if version != "" {
      ghost var tail := if InstallsInfrastructure(inputs)
        then ProviderStage(InfrastructureUrl(inputs.provider, inputs.providerVersion), inputs.provider, inputs)
        else [];
      assert rest == CoreStages(version) + tail;
      trace, outs, status := InstallCoreStages(version, tail, trace, outs);
      if status.Failed? { return; }
      rest := tail;
      var provider := inputs.provider;
      if provider != "" {
        var providerVersion := inputs.providerVersion;
        if providerVersion != "" {
          var url := InfrastructureUrl(provider, providerVersion);
          trace, status := InstallProvider(url, provider, inputs, trace, outs, rest);
          return;
        }
      }
    }
    assert rest == [];
    assert trace + [] == trace;
    status := Succeeded;
  }
}
