/**
 * What the launchers hand to the operating system when they start a child,
 * and the exit status a Windows process reports.
 */
module Process {
  import opened CStrings

  /** A process exit code: a 32-bit unsigned `DWORD`. */
  type ExitCode = x: int | 0 <= x < 0x1_0000_0000

  const EXIT_SUCCESS: ExitCode := 0
  const EXIT_FAILURE: ExitCode := 1

  /** The arguments of `CreateProcessW` that matter: the command line and the working directory (`None` inherits). */
  datatype Launch = Launch(commandLine: seq<char>, workingDirectory: Option<seq<char>>)
}
