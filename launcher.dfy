/**
 * The self-shimming launcher. At start-up it looks for its own `:Shim` stream:
 * without one it is the creator, which copies itself and writes the record into
 * the copy's stream; with one it is the forwarder, which reads the record and
 * starts the target with the arguments it was given.
 *
 * The operating system is a set of parameters: the module path it reports, the
 * streams that can be opened, whether each copy, open, write, read and launch
 * succeeds, the raw command line and the child's exit code. What the launcher
 * does to the outside world is returned as a list of effects.
 */
module Launcher {
  import opened CStrings
  import opened Process
  import opened Metadata
  import opened Setup
  import opened CommandLine

  /** An action with an effect outside the process, in the order it happens. */
  datatype Effect =
    | CopiedSelf(source: seq<char>, target: seq<char>)
    | CreatedStream(path: seq<char>)
    | WroteStream(path: seq<char>, bytes: seq<char>)
    | Spawned(child: Launch)

  /** Which of the creator's file operations succeed. */
  datatype SetupHost = SetupHost(copyOk: bool, openOk: bool, writeOk: bool)

  /** What the forwarder gets from the system: the read's success, its command line, and the child. */
  datatype ForwardHost = ForwardHost(readOk: bool, commandLine: seq<char>, launchOk: bool, childExit: ExitCode)

  /** The whole environment of one run. */
  datatype Host = Host(
    modulePath: Option<seq<char>>,
    streams: map<seq<char>, seq<char>>,
    setup: SetupHost,
    forward: ForwardHost)

  /** Every argument is a C string, as the C runtime hands them over. */
  predicate ArgumentsAreCStrings(argv: seq<seq<char>>) {
    forall i :: 0 <= i < |argv| ==> IsCString(argv[i])
  }

  /** The output file the creator writes: the `/O` value, or the name derived from the target. */
  function OutputName(exe: seq<char>, out: Option<seq<char>>): seq<char> {
    if out.Some? then out.value else DefaultOutputName(exe)
  }

  /**
   * What a creator run does. Help (asked for, or no target given) succeeds and touches
   * nothing; otherwise the copy, the stream's creation and the write happen in that
   * order, and the first one that fails ends the run with failure.
   */
  ghost predicate CreateBehaviour(argv: seq<seq<char>>, self: seq<char>, host: SetupHost,
                                  exit: ExitCode, effects: seq<Effect>)
  {
    match ParseSetup(argv)
    case Help => exit == EXIT_SUCCESS && effects == []
    case Request(exe, wd, out) =>
      var target := OutputName(exe, out);
      var stream := target + STREAM_SUFFIX;
      if !host.copyOk then exit == EXIT_FAILURE && effects == []
      else if !host.openOk then exit == EXIT_FAILURE && effects == [CopiedSelf(self, target)]
      else if !host.writeOk then
        exit == EXIT_FAILURE && effects == [CopiedSelf(self, target), CreatedStream(stream)]
      else
        exit == EXIT_SUCCESS
        && effects == [CopiedSelf(self, target), CreatedStream(stream), WroteStream(stream, Encode(exe, wd))]
  }

  /**
   * What a forwarder run does with the stream content `stored`. It fails without
   * launching anything when the read fails, when `argv0` is not in the command line or
   * when the launch fails; otherwise it starts the decoded target with the forwarded
   * tail and the decoded working directory, and succeeds whatever the child returns.
   */
  ghost predicate ShimBehaviour(argv0: seq<char>, stored: seq<char>, host: ForwardHost,
                                exit: ExitCode, effects: seq<Effect>)
  {
    if !host.readOk then exit == EXIT_FAILURE && effects == []
    else
      var rec := Decode(Received(stored));
      match ForwardedTail(host.commandLine, argv0)
      case None => exit == EXIT_FAILURE && effects == []
      case Some(tail) =>
        if !host.launchOk then exit == EXIT_FAILURE && effects == []
        else exit == EXIT_SUCCESS && effects == [Spawned(Launch(rec.exe + tail, rec.wd))]
  }

  /** The creator: parse, name the output, copy self there, write the record to its stream. */
  method Create(argv: seq<seq<char>>, self: seq<char>, host: SetupHost) returns (exit: ExitCode, effects: seq<Effect>)
    requires ArgumentsAreCStrings(argv)
    ensures CreateBehaviour(argv, self, host, exit, effects)
  {
    var parsed := ParseArguments(argv);
    if parsed.Help? {
      return EXIT_SUCCESS, [];
    }
    var exe, wd := parsed.exe, parsed.wd;
    FlagValuesAreCStrings(Arguments(argv), 'E', 'e');
    FlagValuesAreCStrings(Arguments(argv), 'D', 'd');
    FlagValuesAreCStrings(Arguments(argv), 'O', 'o');
    var out := if parsed.out.Some? then parsed.out.value else DefaultOutputName(exe);
    if !host.copyOk {
      return EXIT_FAILURE, [];
    }
    effects := [CopiedSelf(self, out)];
    var stream := StreamPath(out);
    if !host.openOk {
      return EXIT_FAILURE, effects;
    }
    effects := effects + [CreatedStream(stream)];
    var bytes := EncodeRecord(exe, wd);
    if !host.writeOk {
      return EXIT_FAILURE, effects;
    }
    effects := effects + [WroteStream(stream, bytes)];
    exit := EXIT_SUCCESS;
  }

  /** A flag's value is the tail of an argument, so it is a C string when the arguments are. */
  lemma FlagValuesAreCStrings(args: seq<seq<char>>, upper: char, lower: char)
    requires ArgumentsAreCStrings(args)
    ensures LastFlag(args, upper, lower).Some? ==> IsCString(LastFlag(args, upper, lower).value)
  {
  }

  /** The forwarder: read and split the record, rebuild the command line, start the target. */
  method Shim(argv: seq<seq<char>>, stored: seq<char>, host: ForwardHost) returns (exit: ExitCode, effects: seq<Effect>)
    requires |argv| >= 1 && IsCString(host.commandLine)
    ensures ShimBehaviour(argv[0], stored, host, exit, effects)
  {
    if !host.readOk {
      return EXIT_FAILURE, [];
    }
    var rec := ReadRecord(stored);
    var ncl := Reconstruct(host.commandLine, argv[0], rec.exe);
    if ncl.None? {
      return EXIT_FAILURE, [];
    }
    if !host.launchOk {
      return EXIT_FAILURE, [];
    }
    effects := [Spawned(Launch(ncl.value, rec.wd))];
    exit := EXIT_SUCCESS;
  }

  /**
   * `GetModuleFileNameW` into a buffer of `size` characters: the path and its
   * terminator when they fit; otherwise the path cut to `size - 1` characters, and
   * `size` is returned; 0 when the path cannot be had.
   */
  method GetModuleFileName(file: array<char>, size: nat, modulePath: Option<seq<char>>) returns (length: nat)
    requires 0 < size <= file.Length
    requires modulePath.Some? ==> IsCString(modulePath.value)
    modifies file
    ensures length <= size
    ensures modulePath.None? ==> length == 0
    ensures modulePath.Some? && |modulePath.value| >= size ==> length == size
    ensures modulePath.Some? && |modulePath.value| < size ==>
              length == |modulePath.value| && file[..length] == modulePath.value
  {
    if modulePath.None? {
      return 0;
    }
    var path := modulePath.value;
    if |path| < size {
      CopyString(file, 0, size, path);
      length := |path|;
    } else {
      CopyString(file, 0, size, path[..size - 1]);
      length := size;
    }
  }

  /** Finding the own path fails when the system reports none, an empty one, or one cut short. */
  predicate SelfPathFails(modulePath: Option<seq<char>>) {
    modulePath.None? || |modulePath.value| == 0 || |modulePath.value| >= PATH_LENGTH - 5
  }

  /**
   * Start-up: the own path, with room left for `:Shim`, names the stream that is
   * probed. When it cannot be opened the suffix is cut off again and the run creates a
   * shim from the own path; when it can, the run forwards using the stream's content.
   */
  method Start(argv: seq<seq<char>>, host: Host) returns (exit: ExitCode, effects: seq<Effect>)
    requires |argv| >= 1 && ArgumentsAreCStrings(argv)
    requires host.modulePath.Some? ==> IsCString(host.modulePath.value)
    requires IsCString(host.forward.commandLine)
    ensures SelfPathFails(host.modulePath) ==> exit == EXIT_FAILURE && effects == []
    ensures !SelfPathFails(host.modulePath) && host.modulePath.value + STREAM_SUFFIX !in host.streams ==>
              CreateBehaviour(argv, host.modulePath.value, host.setup, exit, effects)
    ensures !SelfPathFails(host.modulePath) && host.modulePath.value + STREAM_SUFFIX in host.streams ==>
              ShimBehaviour(argv[0], host.streams[host.modulePath.value + STREAM_SUFFIX], host.forward, exit, effects)
  {
    var file := new char[PATH_LENGTH];
    var length := GetModuleFileName(file, PATH_LENGTH - 5, host.modulePath);
    if length == 0 || length == PATH_LENGTH - 5 {
      return EXIT_FAILURE, [];
    }
    ghost var path := host.modulePath.value;
    CopyString(file, length, 6, STREAM_SUFFIX);
    file[length + 5] := NUL;
    ghost var probed := file[..];
    assert probed == (path + STREAM_SUFFIX) + [NUL] + probed[length + 6..];
    CStringOfTerminated(path + STREAM_SUFFIX, probed[length + 6..]);
    CStringOfText(path + STREAM_SUFFIX);
    var streamPath := CString(file[..]);
    if streamPath !in host.streams {
      file[length] := NUL;
      assert file[..] == path + [NUL] + file[length + 1..];
      CStringOfTerminated(path, file[length + 1..]);
      CStringOfText(path);
      var self := CString(file[..]);
      exit, effects := Create(argv, self, host.setup);
    } else {
      exit, effects := Shim(argv, host.streams[streamPath], host.forward);
    }
  }

  /**
   * A creator run that wrote a record succeeded, had a target, and wrote exactly the
   * encoded target and working directory into the output's `:Shim` stream.
   */
  lemma CreatorWritesEncodedRecord(argv: seq<seq<char>>, self: seq<char>, setup: SetupHost,
                                   exit: ExitCode, effects: seq<Effect>, stream: seq<char>, stored: seq<char>)
    requires CreateBehaviour(argv, self, setup, exit, effects)
    requires WroteStream(stream, stored) in effects
    ensures ParseSetup(argv).Request? && exit == EXIT_SUCCESS
    ensures stored == Encode(ParseSetup(argv).exe, ParseSetup(argv).wd)
    ensures stream == OutputName(ParseSetup(argv).exe, ParseSetup(argv).out) + STREAM_SUFFIX
  {
  }

  /**
   * A forwarder run over a well-formed record whose read and launch succeed and whose
   * name occurs in its command line launches exactly the encoded target, followed by
   * the forwarded tail, in the encoded working directory.
   */
  lemma ForwarderLaunchesEncodedRecord(exe: seq<char>, wd: Option<seq<char>>, argv0: seq<char>,
                                       forward: ForwardHost, exit: ExitCode, effects: seq<Effect>)
    requires IsCString(exe) && SEPARATOR !in exe
    requires wd.Some? ==> IsCString(wd.value)
    requires |exe| + WdLength(wd) + 1 <= READ_LIMIT
    requires forward.readOk && forward.launchOk && ForwardedTail(forward.commandLine, argv0).Some?
    requires ShimBehaviour(argv0, Encode(exe, wd), forward, exit, effects)
    ensures exit == EXIT_SUCCESS
    ensures effects == [Spawned(Launch(exe + ForwardedTail(forward.commandLine, argv0).value, wd))]
  {
    RoundTrip(exe, wd);
  }

  /**
   * Creation then forwarding: a shim created from `argv` whose record was written
   * launches, when run, exactly the target and working directory it was given, with
   * the forwarded tail of its own command line, provided the target holds no separator
   * and the record fits in one read.
   */
  lemma {:induction false} CreatedShimLaunchesItsTarget(
    argv: seq<seq<char>>, self: seq<char>, setup: SetupHost, exit: ExitCode, effects: seq<Effect>,
    stream: seq<char>, stored: seq<char>,
    argv0: seq<char>, forward: ForwardHost, exit': ExitCode, effects': seq<Effect>)
    requires ArgumentsAreCStrings(argv)
    requires ParseSetup(argv).Request?
    requires SEPARATOR !in ParseSetup(argv).exe
    requires |ParseSetup(argv).exe| + WdLength(ParseSetup(argv).wd) + 1 <= READ_LIMIT
    requires CreateBehaviour(argv, self, setup, exit, effects)
    requires WroteStream(stream, stored) in effects
    requires ShimBehaviour(argv0, stored, forward, exit', effects')
    requires forward.readOk && forward.launchOk && ForwardedTail(forward.commandLine, argv0).Some?
    ensures exit == EXIT_SUCCESS && exit' == EXIT_SUCCESS
    ensures effects' == [Spawned(Launch(ParseSetup(argv).exe + ForwardedTail(forward.commandLine, argv0).value,
                                         ParseSetup(argv).wd))]
  {
    var args := Arguments(argv);
    assert ArgumentsAreCStrings(args) by {
      assert forall i :: 0 <= i < |args| ==> args[i] == argv[i + 1];
    }
    FlagValuesAreCStrings(args, 'E', 'e');
    FlagValuesAreCStrings(args, 'D', 'd');
    var request := ParseSetup(argv);
    CreatorWritesEncodedRecord(argv, self, setup, exit, effects, stream, stored);
    ForwarderLaunchesEncodedRecord(request.exe, request.wd, argv0, forward, exit', effects');
  }
}
