/**
 * The statically configured launcher: the target and the working directory are
 * fixed when it is built, and every run forwards to them.
 */
module StaticShim {
  import opened CStrings
  import opened Process
  import opened CommandLine

  /** The build-time settings `EXE` and `WD`. */
  datatype Config = Config(exe: seq<char>, wd: Option<seq<char>>)

  /** The settings when the build supplies none: `cmd`, started in the inherited working directory. */
  const DEFAULT_CONFIG: Config := Config("cmd", None)

  /**
   * One run: the command line is rebuilt around the configured target and the child
   * is started in the configured directory. The run fails, launching nothing, when
   * `argv0` is not in the command line or the launch fails; otherwise it ends with
   * the child's own exit code.
   */
  method Run(config: Config, argv0: seq<char>, commandLine: seq<char>, launchOk: bool, childExit: ExitCode)
    returns (exit: ExitCode, launched: Option<Launch>)
    requires IsCString(config.exe) && IsCString(commandLine)
    ensures ForwardedTail(commandLine, argv0).None? ==> exit == EXIT_FAILURE && launched == None
    ensures ForwardedTail(commandLine, argv0).Some? && !launchOk ==> exit == EXIT_FAILURE && launched == None
    ensures ForwardedTail(commandLine, argv0).Some? && launchOk ==>
              exit == childExit
              && launched == Some(Launch(config.exe + ForwardedTail(commandLine, argv0).value, config.wd))
  {
    var ncl := Reconstruct(commandLine, argv0, config.exe);
    if ncl.None? {
      return EXIT_FAILURE, None;
    }
    if !launchOk {
      return EXIT_FAILURE, None;
    }
    launched := Some(Launch(ncl.value, config.wd));
    exit := childExit;
  }

  /** Run bare, with no arguments after its name, the default build starts plain `cmd`. */
  lemma DefaultRunsBareCmd(name: seq<char>)
    ensures ForwardedTail(name, name) == Some([])
    ensures DEFAULT_CONFIG.exe + ForwardedTail(name, name).value == "cmd"
  {
  }
}
