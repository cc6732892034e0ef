/** The clusterctl installer: which release asset to download for the
    runner's OS type, and the cache-hit / cache-miss decision that yields
    the path of the clusterctl executable. The OS type, the tool cache and
    the download are parameters. */
module Clusterctl {
  import opened Wrappers
  import opened Text
  import opened Platform
  import opened Manifests

  const ToolName: string := "clusterctl"
  const LinuxAsset: string := "clusterctl-linux-amd64"
  const DarwinAsset: string := "clusterctl-darwin-amd64"

  /** The release asset for this OS type: Linux and Darwin only; any other
      OS type falls out of the switch with no URL. */
  function DownloadUrl(osType: string, version: string): (url: Option<string>)
    ensures url.Some? <==> osType == "Linux" || osType == "Darwin"
    ensures osType == "Linux" ==> url == Some(ReleaseAsset(version, LinuxAsset))
    ensures osType == "Darwin" ==> url == Some(ReleaseAsset(version, DarwinAsset))
  {
    match osType
    case "Linux" => Some(ReleaseAsset(version, LinuxAsset))
    case "Darwin" => Some(ReleaseAsset(version, DarwinAsset))
    case _ => None
  }

  /** The downloaded asset is the one of the requested release, and an OS
      type that gets the `.exe` extension gets no URL at all. */
  lemma DownloadUrlVersion(osType: string, version: string)
    ensures DownloadUrl(osType, version).Some? ==>
              var asset := if osType == "Linux" then LinuxAsset else DarwinAsset;
              ReleaseVersion(DownloadUrl(osType, version).value, asset) == Some(version)
    ensures ExecutableExtension(osType) == ".exe" ==> DownloadUrl(osType, version) == None
  {
    ReleaseAssetRoundTrip(version, LinuxAsset);
    ReleaseAssetRoundTrip(version, DarwinAsset);
    if ExecutableExtension(osType) == ".exe" {
      assert osType[0] == 'W' && "Linux"[0] == 'L' && "Darwin"[0] == 'D';
    }
  }

  datatype DownloadError = DownloadclusterctlFailed | CacheFailed

  /** The tool-cache operations the installer performs. */
  datatype CacheCall =
    | DownloadTool(url: Option<string>)
    | CacheFile(source: string, target: string, tool: string, version: string)
    | Chmod(path: string, mode: string)

  /** Installs clusterctl `version`. `found` is the tool cache's directory
      for that version ("" on a miss); `fetched` is where the download left
      the file (None when it fails); `cachedDir` is where caching put it
      (None when caching fails). A download of no URL fails. */
  method DownloadClusterctl(version: string, osType: string, found: string,
                            fetched: Option<string>, cachedDir: Option<string>)
    returns (result: Result<string, DownloadError>, calls: seq<CacheCall>)
    // A cache hit only makes the cached executable runnable.
    ensures found != "" ==>
              && result == Ok(JoinPath(found, ExecutableName(ToolName, osType)))
              && calls == [Chmod(result.value, "777")]
    // A miss downloads first; with no URL or a failed download nothing else happens.
    ensures found == "" && (DownloadUrl(osType, version).None? || fetched.None?) ==>
              && result == Err(DownloadclusterctlFailed)
              && calls == [DownloadTool(DownloadUrl(osType, version))]
    // A successful download is cached under the executable's name.
    ensures found == "" && DownloadUrl(osType, version).Some? && fetched.Some? && cachedDir.None? ==>
              && result == Err(CacheFailed)
              && calls == [DownloadTool(DownloadUrl(osType, version)),
                           CacheFile(fetched.value, ExecutableName(ToolName, osType), ToolName, version)]
    ensures found == "" && DownloadUrl(osType, version).Some? && fetched.Some? && cachedDir.Some? ==>
              && result == Ok(JoinPath(cachedDir.value, ExecutableName(ToolName, osType)))
              && calls == [DownloadTool(DownloadUrl(osType, version)),
                           CacheFile(fetched.value, ExecutableName(ToolName, osType), ToolName, version),
                           Chmod(result.value, "777")]
  {
    calls := [];
    var cachedToolpath := found;
    var downloadPath := "";
    if cachedToolpath == "" {
      var url := DownloadUrl(osType, version);
      calls := calls + [DownloadTool(url)];
      if url.None? || fetched.None? {
        return Err(DownloadclusterctlFailed), calls;
      }
      downloadPath := fetched.value;
      calls := calls + [CacheFile(downloadPath, ExecutableName(ToolName, osType), ToolName, version)];
      assert calls == [DownloadTool(url), CacheFile(downloadPath, ExecutableName(ToolName, osType), ToolName, version)];
      if cachedDir.None? {
        return Err(CacheFailed), calls;
      }
      cachedToolpath := cachedDir.value;
    }
    var clusterPath := JoinPath(cachedToolpath, ExecutableName(ToolName, osType));
    calls := calls + [Chmod(clusterPath, "777")];
    result := Ok(clusterPath);
  }
}
