/** Where each manifest the orchestrator applies comes from. Pure string
    construction; nothing here touches the network. */
module Manifests {
  import opened Wrappers

  /** cert-manager is pinned to release v1.0.2 whatever Cluster API version is asked for. */
  const CertManagerUrl: string :=
    "https://github.com/jetstack/cert-manager/releases/download/v1.0.2/cert-manager.yaml"

  /** Prefix of every asset of a Cluster API release. */
  const ReleaseDownloads: string := "https://github.com/kubernetes-sigs/cluster-api/releases/download/"

  /** Prefix of an infrastructure provider's repository. */
  const ProviderRepository: string := "https://github.com/kubernetes-sigs/cluster-api-provider-"

  const CoreComponents: string := "cluster-api-components.yaml"
  const BootstrapComponents: string := "bootstrap-components.yaml"
  const ControlPlaneComponents: string := "control-plane-components.yaml"
  const InfrastructureComponents: string := "infrastructure-components.yaml"

  /** The download URL of asset `file` of Cluster API release `version`. */
  function ReleaseAsset(version: string, file: string): (url: string) {
    ReleaseDownloads + version + "/" + file
  }

  /** Reads the release version back out of the download URL of asset `file`;
      None when the URL is not such a download URL. */
  function ReleaseVersion(url: string, file: string): (version: Option<string>) {
    var suffix := "/" + file;
    if |url| >= |ReleaseDownloads| + |suffix| && ReleaseDownloads <= url
       && url[|url| - |suffix|..] == suffix
    then Some(url[|ReleaseDownloads|..|url| - |suffix|])
    else None
  }

  /** The manifest of infrastructure provider `provider` at release `version`. */
  function InfrastructureUrl(provider: string, version: string): (url: string) {
    ProviderRepository + provider + "/releases/download/" + version + "/" + InfrastructureComponents
  }

  /** Reads the provider release back out of an infrastructure URL, given the provider. */
  function InfrastructureVersion(url: string, provider: string): (version: Option<string>) {
    var head := ProviderRepository + provider + "/releases/download/";
    var suffix := "/" + InfrastructureComponents;
    if |url| >= |head| + |suffix| && head <= url && url[|url| - |suffix|..] == suffix
    then Some(url[|head|..|url| - |suffix|])
    else None
  }

  /** A release asset URL gives back the version it was built from. */
  lemma ReleaseAssetRoundTrip(version: string, file: string)
    ensures ReleaseVersion(ReleaseAsset(version, file), file) == Some(version)
  {
    var url := ReleaseAsset(version, file);
    var suffix := "/" + file;
    assert url == ReleaseDownloads + version + suffix;
    assert url[|url| - |suffix|..] == suffix;
    assert url[|ReleaseDownloads|..|url| - |suffix|] == version;
  }

  /** Whatever ReleaseVersion accepts is exactly the release asset URL of the
      version it returns. */
  lemma ReleaseVersionSound(url: string, file: string, version: string)
    requires ReleaseVersion(url, file) == Some(version)
    ensures ReleaseAsset(version, file) == url
  {
    var suffix := "/" + file;
    var n := |url| - |suffix|;
    assert url[..|ReleaseDownloads|] == ReleaseDownloads;
    assert url[|ReleaseDownloads|..n] == version;
    assert url == url[..|ReleaseDownloads|] + url[|ReleaseDownloads|..n] + url[n..];
    assert ReleaseAsset(version, file) == ReleaseDownloads + version + suffix;
  }

  /** An infrastructure URL gives back the provider release it was built from. */
  lemma InfrastructureRoundTrip(provider: string, version: string)
    ensures InfrastructureVersion(InfrastructureUrl(provider, version), provider) == Some(version)
  {
    var url := InfrastructureUrl(provider, version);
    var head := ProviderRepository + provider + "/releases/download/";
    var suffix := "/" + InfrastructureComponents;
    assert url == head + version + suffix;
    assert url[|url| - |suffix|..] == suffix;
    assert url[|head|..|url| - |suffix|] == version;
  }

  /** Whatever InfrastructureVersion accepts is the infrastructure URL of that
      provider and the version it returns. */
  lemma InfrastructureVersionSound(url: string, provider: string, version: string)
    requires InfrastructureVersion(url, provider) == Some(version)
    ensures InfrastructureUrl(provider, version) == url
  {
    var head := ProviderRepository + provider + "/releases/download/";
    var suffix := "/" + InfrastructureComponents;
    var n := |url| - |suffix|;
    assert url[..|head|] == head;
    assert url[|head|..n] == version;
    assert url == url[..|head|] + url[|head|..n] + url[n..];
    assert InfrastructureUrl(provider, version) == head + version + suffix;
  }

  lemma LiteralFacts()
    ensures |CertManagerUrl| == 83 && |ReleaseDownloads| == 65 && |ProviderRepository| == 56
    ensures ReleaseDownloads[46] == '/' && ProviderRepository[46] == '-'
  {
  }

  /** For one Cluster API version the five stages apply five different
      manifests: cert-manager, the three release components and any
      infrastructure provider's components. */
  lemma StageManifestsDistinct(version: string, provider: string, providerVersion: string)
    ensures var urls := [CertManagerUrl, ReleaseAsset(version, CoreComponents),
                         ReleaseAsset(version, BootstrapComponents),
                         ReleaseAsset(version, ControlPlaneComponents),
                         InfrastructureUrl(provider, providerVersion)];
            forall i, j :: 0 <= i < j < |urls| ==> urls[i] != urls[j]
  {
    var core := ReleaseAsset(version, CoreComponents);
    var bootstrap := ReleaseAsset(version, BootstrapComponents);
    var controlPlane := ReleaseAsset(version, ControlPlaneComponents);
    var infra := InfrastructureUrl(provider, providerVersion);
    LiteralFacts();
    // the pinned cert-manager URL is shorter than any of the others, and the
    // three release assets differ in length
    assert |core| == |ReleaseDownloads| + |version| + 28;
    assert |bootstrap| == |ReleaseDownloads| + |version| + 26;
    assert |controlPlane| == |ReleaseDownloads| + |version| + 30;
    // an infrastructure repository name continues `cluster-api` with `-`, a release with `/`
    assert core[46] == '/' && bootstrap[46] == '/' && controlPlane[46] == '/' && infra[46] == '-';
  }
}
