# cluster-api-action, modelled in Dafny

This GitHub Action provisions a Kubernetes management cluster with the
Cluster API. Its `installCapi` routine applies five things in turn, each with
`kubectl apply` and each awaited:

1. cert-manager (pinned to v1.0.2);
2. the Cluster API core components of the requested `capi-version`;
3. the kubeadm bootstrap components;
4. the kubeadm control-plane components;
5. optionally, an infrastructure provider (`capi-provider` at
   `capi-provider-version`).

It waits 50 s after the first stage and 10 s after each of the next three. For
the infrastructure provider it downloads the manifest with `curl` and, when a
`secret` is given, edits the provider's credential placeholders in place with
`sed`. It then applies the local file. A companion action, clusterctl,
downloads the `clusterctl` binary for the runner's OS unless the tool cache
already has it.

The model has these modules:

- `Manifests` builds every manifest URL and parses it back.
- `Credentials` maps a provider and its credentials to substitution rules, and
  models the `sed` edit as a literal replace-all (`Text`).
- `Tools` models how kubectl, curl and sed are looked up.
- `Orchestrator` models `installCapi` and `installProvider` as straight-line
  methods.
  - Each side effect is an event appended to a trace: a tool lookup, an
    apply, a sleep, a download or an edit.
  - Whether a step succeeds is read from a list of outcomes, one per step
    that can fail. Steps past the end of the list succeed.
  - The methods are proved equal to `Run(Plan(inputs), outcomes)`. `Plan` is
    every step in order. `Run` performs them until the first failure.
- `OrchestratorProperties`, `OrchestratorGating` and `Scenarios` prove what
  every run does.
- `Clusterctl` models the download URL, the executable extension and the
  cache-hit/miss logic of `downloadClusterctl`.

Behaviour as coded, which the model follows:

- An empty `capi-version` is not an error. The run looks up kubectl and then
  ends successfully without applying anything.
- The infrastructure manifest is always downloaded to
  `<home>/infrastructure-components.yaml`, and that local file is applied, even
  when nothing is substituted.
- Substitution rules are built only when `secret` is non-empty. This holds for
  vsphere too, even though vsphere substitutes `username` and `password`
  rather than the secret.
- Whenever `secret` is non-empty, the `sed` step runs. For an unknown provider,
  or vsphere with only one of username and password, it runs with no rule.
- curl and sed are looked up only when the infrastructure stage starts. A
  missing curl or sed therefore fails the run after the four core stages have
  been applied.
- For any OS type other than `Linux` and `Darwin`, `getkubectlDownloadURL` has
  no case, so there is no download URL. The download of that undefined URL
  throws, and the action reports `DownloadclusterctlFailed`. So an OS type
  that gets the `.exe` extension can only use a cached clusterctl.

## Model

| member | source | states |
|---|---|---|
| Text.JoinPath | cluster-api/src/index.ts:161 | the joined path is the directory, then at most one `/`, then the file name: exactly one `/` when the directory is non-empty and does not end with `/`, none otherwise |
| Text.FileNameNoSeparator | cluster-api/src/index.ts:57 | the last component of a path, which a tool lookup compares with the executable's name, never contains `/` |
| Text.FileNameSuffix | cluster-api/src/index.ts:57 | the last component is a suffix of the path that is either the whole path or directly follows a `/` |
| Text.JoinPathFileName | cluster-api/src/index.ts:57 | joining a directory and a file name without `/` leaves that file name as the last component of the path |
| Text.ReplaceAllAbsent | cluster-api/src/index.ts:180-181 | a manifest holding no occurrence of the placeholder comes out of the edit unchanged |
| Text.ReplaceAllIdentity | cluster-api/src/index.ts:180-181 | the edit leaves the text unchanged exactly when the placeholder does not occur or is replaced by itself |
| Text.ReplaceAllLength | cluster-api/src/index.ts:168 | every replacement changes the length by the value's length minus the placeholder's |
| Text.OccursIffCounted | cluster-api/src/index.ts:168 | the placeholder occurs exactly when the global replacement replaces at least once |
| Text.ReplaceAllRemoves | cluster-api/src/index.ts:168-172 | after the global replacement no occurrence of the placeholder remains, provided the placeholder is non-empty, neither its first nor its last character appears in the value, and the value does not occur inside the placeholder |
| Text.ReplaceAllPreservesAbsence | cluster-api/src/index.ts:177 | replacing one placeholder never creates an occurrence of another absent placeholder, provided that other placeholder is kept apart from the value in the same way |
| Text.ReplaceAllInserts | cluster-api/src/index.ts:168-172 | if the placeholder occurred, the value occurs somewhere in the result |
| Text.ReplaceAllAtFirst | cluster-api/src/index.ts:168-172 | the first occurrence of the placeholder is replaced in place: the text before it is kept, the value stands where it stood, and the replacement goes on with the text after it |
| Platform.ExecutableExtension | clusterctl/src/index.ts:39-44 | the extension is `.exe` exactly when the OS type begins with `Win`, and empty otherwise |
| Platform.ExecutableName | clusterctl/src/index.ts:31-34 | the executable name is the tool name followed by that extension |
| Manifests.ReleaseAssetRoundTrip | cluster-api/src/index.ts:119-135 | a Cluster API release URL gives back the version it was built from |
| Manifests.ReleaseVersionSound | cluster-api/src/index.ts:119-135 | every URL accepted as a release URL is `.../cluster-api/releases/download/` + version + `/` + artifact |
| Manifests.InfrastructureRoundTrip | cluster-api/src/index.ts:147 | the infrastructure URL of a provider gives back the provider release it was built from |
| Manifests.InfrastructureVersionSound | cluster-api/src/index.ts:147 | every URL accepted for a provider is `cluster-api-provider-` + provider + `/releases/download/` + version + `/infrastructure-components.yaml` |
| Manifests.StageManifestsDistinct | cluster-api/src/index.ts:109-147 | for any version, the five stages apply five different URLs: the fixed cert-manager URL, the three release components and the provider's components |
| Credentials.RulesFor | cluster-api/src/index.ts:164-179 | aws, packet and gcp each get one rule putting the secret in their own placeholder; vsphere gets the username rule then the password rule when both are non-empty; any other case gets no rule; every rule targets a `${...}` placeholder |
| Credentials.ApplyRulesAbsent | cluster-api/src/index.ts:180-181 | the edit leaves the manifest unchanged when it has no rule or none of the placeholders occurs |
| Credentials.ApplyRulesPreservesAbsence | cluster-api/src/index.ts:177 | applying the rules in order never reintroduces an absent placeholder, provided the placeholder is non-empty, neither its first nor its last character appears in each rule's value, and each rule's value does not occur inside the placeholder |
| Credentials.ApplyRulesResolves | cluster-api/src/index.ts:177-181 | after the rules are applied in order, no placeholder of any rule remains, provided every placeholder is kept apart from every value: its first and last characters do not appear in the value and the value does not occur inside it |
| Credentials.CredentialsInjected | cluster-api/src/index.ts:164-181 | for a non-empty secret whose values are kept apart from every targeted placeholder (as above), the edit removes every targeted placeholder; for aws, packet and gcp the secret occurs in the result if the placeholder occurred; a manifest without placeholders is unchanged |
| Credentials.SecretAtFirstPlaceholder | cluster-api/src/index.ts:167-172 | for aws, packet and gcp, any secret is written exactly where the first placeholder stood, with the text before it untouched |
| Credentials.Base64Separated | cluster-api/src/index.ts:164-172 | a base64 credential at least as long as a `${...}` placeholder is kept apart from it, so the removal lemmas apply to it |
| Credentials.Base64SecretInjected | cluster-api/src/index.ts:164-172 | for aws, packet and gcp with such a base64 secret, the edit removes the placeholder, and the secret occurs in the result if the placeholder occurred |
| Tools.FirstCachedDir | cluster-api/src/index.ts:51-52 | the cache directory used is the one of the first cached version, or none |
| Tools.Resolve | cluster-api/src/index.ts:48-87 | a tool on the PATH is used as found; otherwise the executable in the first cached version's directory, joined with at most one `/` and with the executable as its last component; the lookup fails with that tool's "is not installed" message exactly when neither exists |
| Clusterctl.DownloadUrl | clusterctl/src/index.ts:10-19 | there is a URL exactly for Linux and Darwin, the `clusterctl-linux-amd64` or `clusterctl-darwin-amd64` asset of the requested release |
| Clusterctl.DownloadUrlVersion | clusterctl/src/index.ts:10-44 | the URL gives back the requested version, and an OS type that gets `.exe` gets no URL |
| Clusterctl.DownloadClusterctl | clusterctl/src/index.ts:21-37 | a cache hit only makes the cached `clusterctl` + extension mode 777 and returns it; a miss first downloads the OS's URL; with no URL or a failed download nothing else happens and the result is `DownloadclusterctlFailed`; otherwise the file is cached under `clusterctl` + extension, a failed caching is its own error, and on success the newly cached executable is made mode 777 and returned |
| Orchestrator.Perform | cluster-api/src/index.ts:112-115 | awaiting a step appends it to the trace; a sleep always succeeds, any other step takes the next outcome, and a failure ends the run at that step |
| Orchestrator.ApplyAndWait | cluster-api/src/index.ts:118-124 | a stage applies its manifest and, only if that succeeds, waits |
| Orchestrator.InstallCoreStages | cluster-api/src/index.ts:109-140 | the four Cluster API stages run in order, each apply followed by its wait, stopping at the first failing apply |
| Orchestrator.LocateProviderTools | cluster-api/src/index.ts:157-159 | the provider stage looks up curl, then sed, then kubectl, stopping at the first tool not found |
| Orchestrator.InstallProvider | cluster-api/src/index.ts:156-185 | the infrastructure stage performs exactly the fail-fast run of its plan |
| Orchestrator.InstallCapi | cluster-api/src/index.ts:105-154 | the whole run performs exactly the fail-fast run of the plan for its inputs |
| OrchestratorProperties.RunFollowsPlan | cluster-api/src/index.ts:105-154 | a run performs a prefix of its plan: all of it on success; on failure it stops at the failing step, which is not a sleep, and nothing after it runs |
| OrchestratorProperties.RunOutcomes | cluster-api/src/index.ts:105-154 | a run succeeds exactly when every step that can fail succeeds; a failed run failed on its last step after all earlier steps succeeded |
| OrchestratorProperties.PlanLayout | cluster-api/src/index.ts:105-149 | with a version, the kubectl lookup comes first; then stage k's apply sits right before its wait; then the infrastructure stage, only when both provider inputs are given |
| OrchestratorProperties.PlanStageOrder | cluster-api/src/index.ts:109-148 | the applies are cert-manager, core, bootstrap and control plane, then the infrastructure file; the waits are 50000, 10000, 10000 and 10000 ms; with no version there are none |
| OrchestratorProperties.RunStageOrder | cluster-api/src/index.ts:109-148 | whatever the outcomes, a run applies a prefix of that order and waits a prefix of those waits |
| OrchestratorGating.NoVersionNoInstall | cluster-api/src/index.ts:106-108 | with an empty `capi-version` only the kubectl lookup happens, and the run fails exactly when that lookup fails |
| OrchestratorGating.StageGating | cluster-api/src/index.ts:109-149 | along any run, each stage starts only after the previous stage's wait; a run that stops right after an apply failed on that apply; the infrastructure stage is reached only with both provider inputs, and only after the control-plane wait |
| OrchestratorGating.ProviderStageLayout | cluster-api/src/index.ts:156-185 | the provider stage looks up curl, sed and kubectl, then downloads the URL to `infrastructure-components.yaml` in the home directory (joined with at most one `/`); it edits that file exactly when a secret is given, even with no rule; its only apply comes last and targets the local file |
| Scenarios.RunWithoutProvider | cluster-api/src/index.ts:105-143 | for any version without both provider inputs, a run whose steps all succeed applies the four core manifests in order with waits of 50000, 10000, 10000 and 10000 ms, and never downloads or edits |
| Scenarios.CoreOnlyRun | cluster-api/src/index.ts:105-141 | v1.2.3 with no provider applies the four core manifests in order with waits of 50000, 10000, 10000 and 10000 ms, and never downloads or edits |
| Scenarios.AwsProviderRun | cluster-api/src/index.ts:142-185 | adding aws v0.5.0 with the base64 secret `W2RlZmF1bHRd` ends the run with the lookups, the download, the `${AWS_B64ENCODED_CREDENTIALS}` edit with that secret and the apply of the local file |
| Scenarios.AwsManifestEdited | cluster-api/src/index.ts:167-168 | for any base64 secret of at least 29 characters, the aws edit leaves no `${AWS_B64ENCODED_CREDENTIALS}` and the secret occurs in the result if the placeholder did |
| Scenarios.AwsSecretInPlace | cluster-api/src/index.ts:167-168 | in a manifest whose first `${AWS_B64ENCODED_CREDENTIALS}` follows a given prefix, the aws edit keeps that prefix and puts the secret right after it |
| Scenarios.BootstrapFailureRun | cluster-api/src/index.ts:126-137 | when the bootstrap apply fails, the run fails there after the core wait; the control-plane and infrastructure stages never start |

## Left out

- `getKubeconfig`, `setContext` and `run` are not modelled. They obtain and write a kubeconfig, read `RUNNER_TEMP`, use `Date.now()`, write files and issue runner commands: environment and file-system I/O.
- Real tool discovery (`io.which`, `toolCache.findAllVersions`, `toolCache.find`) is not modelled. Its results are parameters of `Tools.Resolve`. In the orchestrator, a lookup is a step whose success is read from the outcome list.
- What `kubectl`, `curl` and `sed` do, and how `ToolRunner.exec` runs them, is not modelled. A step that exits non-zero is taken to reject, which `ToolRunner.exec` does by default. Its success or failure is an input outcome.
- The edit is a literal, whole-text, left-to-right replace-all. The model does not cover these parts of the real `sed` call:
  - how the `s/…/…/g;s/…/…/g` script is rendered and parsed: a secret, username or password containing `/`, `&`, `\` or a newline would be misread by `sed`;
  - `sed` working line by line: this matches the whole-text model only for values without newlines;
  - the `-ie` flag also leaving a backup copy of the file with suffix `e`.
- What `sed` does when it gets no script is not modelled: with no rule, `replace` is `undefined`. The edit step still runs, and its success is read from the outcome list like any other step's.
- The file's content is not carried through the trace. The trace says which rules were applied to which file, and `Credentials.ApplyRules` gives the content that edit produces.
- The waits are not timed: only their durations are recorded. The `core.debug` progress messages and the `if (url)` test at cluster-api/src/index.ts:110 (always true) are not modelled.
- `os.homedir()` and `os.type()` are not called: they are parameters.
- `Text.JoinPath` models `path.join` only for two plain components and the `/` separator. It does not model normalisation of `.`, `..` or repeated separators, or the `\` separator Node uses on Windows.
- In clusterctl, `downloadTool`, `cacheFile`, `find`, `chmodSync`, `setOutput` and `run` are not modelled. Their results are parameters, and a failing `chmodSync` is not modelled.
- Text.ReplaceAllRemoves: the source promises nothing here. A literal global replacement can form a new placeholder out of text around the value. One example is `${${A}}` with placeholder `${A}` replaced by `A`. So the lemma needs the value to be kept apart from the placeholder (`Text.Separated`). That condition holds for a base64 secret no shorter than the placeholder (`Credentials.Base64Separated`). It does not hold for a value that occurs inside the placeholder's name, nor for a value containing `$` or `}`.
- Credentials.CredentialsInjected: needs every value kept apart from every targeted placeholder, as above. It states only that the secret occurs somewhere; `Credentials.SecretAtFirstPlaceholder` gives its position. For vsphere, the lemma proves only that both placeholders are gone, not where the username and password end up.
