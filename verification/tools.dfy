/** Where the orchestrator finds kubectl, curl and sed: on the PATH, else in
    the runner's tool cache under the first cached version, else nowhere.
    The PATH search and the cache are parameters. */
module Tools {
  import opened Wrappers
  import opened Text
  import opened Platform

  datatype Tool = Kubectl | Curl | Sed

  function ToolName(tool: Tool): (name: string) {
    match tool
    case Kubectl => "kubectl"
    case Curl => "curl"
    case Sed => "sed"
  }

  /** The message of the error a missing tool raises. */
  function MissingMessage(tool: Tool): (message: string) {
    match tool
    case Kubectl => "Kubectl is not installed"
    case Curl => "curl is not installed"
    case Sed => "sed is not installed"
  }

  /** The cache directory of the first cached version, or "" when there is
      no cached version or the cache has no entry for it. `cache` maps a
      version to its directory. */
  function FirstCachedDir(versions: seq<string>, cache: map<string, string>): (dir: string)
    ensures dir != "" ==> |versions| > 0 && versions[0] in cache && dir == cache[versions[0]]
    ensures |versions| > 0 && versions[0] in cache ==> dir == cache[versions[0]]
  {
    if |versions| > 0 && versions[0] in cache then cache[versions[0]] else ""
  }

  /** Resolves a tool from what the PATH search found (`onPath`, "" when
      nothing) and the tool cache: the PATH wins; otherwise the executable
      inside the first cached version's directory; otherwise the tool's
      "is not installed" error. */
  function Resolve(tool: Tool, onPath: string, versions: seq<string>, cache: map<string, string>,
                   osType: string): (r: Result<string, string>)
    ensures r.Err? <==> onPath == "" && FirstCachedDir(versions, cache) == ""
    ensures r.Err? ==> r.error == MissingMessage(tool)
    ensures onPath != "" ==> r == Ok(onPath)
    ensures r.Ok? && onPath == "" ==>
              var dir := FirstCachedDir(versions, cache);
              var exe := ExecutableName(ToolName(tool), osType);
              && dir <= r.value
              && |r.value| > |exe|
              && r.value[|r.value| - |exe|..] == exe
              && (r.value == dir + exe || r.value == dir + "/" + exe)
              && FileName(r.value) == exe
  {
    if onPath != "" then Ok(onPath)
    else
      var dir := FirstCachedDir(versions, cache);
      if dir == "" then Err(MissingMessage(tool))
      else
        var exe := ExecutableName(ToolName(tool), osType);
        ExecutableHasNoSeparator(tool, osType);
        JoinPathFileName(dir, exe);
        Ok(JoinPath(dir, exe))
  }

  /** A tool's executable name is a plain file name. */
  lemma ExecutableHasNoSeparator(tool: Tool, osType: string)
    ensures '/' !in ExecutableName(ToolName(tool), osType)
  {
    var ext := ExecutableExtension(osType);
    assert ext == "" || ext == ".exe";
    assert ExecutableName(ToolName(tool), osType) == ToolName(tool) + ext;
  }
}
