/** What the runner's operating-system type decides: the suffix of an
    executable file name. The OS type (Node's `os.type()`) is a parameter. */
module Platform {

  /** `.exe` on an OS type that begins with `Win`, nothing elsewhere. */
  function ExecutableExtension(osType: string): (ext: string)
    ensures ext == ".exe" <==> "Win" <= osType
    ensures ext == "" <==> !("Win" <= osType)
  {
    if "Win" <= osType then ".exe" else ""
  }

  /** The file name of a tool's executable on this OS type. */
  function ExecutableName(tool: string, osType: string): (name: string)
    ensures tool <= name
    ensures |name| == |tool| + |ExecutableExtension(osType)|
    ensures name[|tool|..] == ExecutableExtension(osType)
  {
    tool + ExecutableExtension(osType)
  }
}
