/**
 * The string handling of the creator: its command-line flags, the output name
 * it derives when none is given, and the name of the stream it writes.
 */
module Setup {
  import opened CStrings

  /** The output name used when the target path has no directory part. */
  const DEFAULT_OUTPUT: seq<char> := "shim.out"

  /** The name of the stream the record is kept in, appended to a file path. */
  const STREAM_SUFFIX: seq<char> := ":Shim"

  /** `arg` starts with `/` and one of the two spellings of a flag letter. */
  predicate IsFlag(arg: seq<char>, upper: char, lower: char) {
    |arg| >= 2 && arg[0] == '/' && (arg[1] == upper || arg[1] == lower)
  }

  /** The arguments after the program name. */
  function Arguments(argv: seq<seq<char>>): seq<seq<char>> {
    if argv == [] then [] else argv[1..]
  }

  /** Some argument asks for help. */
  predicate AsksForHelp(args: seq<seq<char>>) {
    exists i :: 0 <= i < |args| && IsFlag(args[i], '?', '?')
  }

  /**
   * The value a flag ends up with: the text after the first two characters of the
   * last argument that carries it, or `None` when no argument does.
   */
  function LastFlag(args: seq<seq<char>>, upper: char, lower: char): (r: Option<seq<char>>)
    ensures r.None? <==> forall i :: 0 <= i < |args| ==> !IsFlag(args[i], upper, lower)
    ensures r.Some? ==> exists i :: 0 <= i < |args| && IsFlag(args[i], upper, lower)
                                    && r.value == args[i][2..]
                                    && forall j :: i < j < |args| ==> !IsFlag(args[j], upper, lower)
  {
    if args == [] then None
    else if IsFlag(args[|args| - 1], upper, lower) then Some(args[|args| - 1][2..])
    else
      var r := LastFlag(args[..|args| - 1], upper, lower);
      assert forall i :: 0 <= i < |args| - 1 ==> args[..|args| - 1][i] == args[i];
      r
  }

  /** What the creator is asked to do. */
  datatype SetupRequest =
    | Help
    | Request(exe: seq<char>, wd: Option<seq<char>>, out: Option<seq<char>>)

  /** The request `argv` makes: help when asked for or when no target is given. */
  function ParseSetup(argv: seq<seq<char>>): SetupRequest {
    var args := Arguments(argv);
    if AsksForHelp(args) then Help
    else match LastFlag(args, 'E', 'e')
      case None => Help
      case Some(exe) => Request(exe, LastFlag(args, 'D', 'd'), LastFlag(args, 'O', 'o'))
  }

  /**
   * The creator's argument loop: each argument after the program name is matched
   * against `/?`, `/E`, `/D` and `/O` in either case; help stops the loop.
   */
  method ParseArguments(argv: seq<seq<char>>) returns (r: SetupRequest)
    ensures r == ParseSetup(argv)
    ensures r.Help? <==> AsksForHelp(Arguments(argv))
                         || forall i :: 0 <= i < |Arguments(argv)| ==> !IsFlag(Arguments(argv)[i], 'E', 'e')
  {
    ghost var args := Arguments(argv);
    var exe: Option<seq<char>> := None;
    var wd: Option<seq<char>> := None;
    var out: Option<seq<char>> := None;
    var i := 1;
    while i < |argv|
      invariant 1 <= i && i - 1 <= |args|
      invariant !AsksForHelp(args[..i - 1])
      invariant exe == LastFlag(args[..i - 1], 'E', 'e')
      invariant wd == LastFlag(args[..i - 1], 'D', 'd')
      invariant out == LastFlag(args[..i - 1], 'O', 'o')
    {
      var arg := argv[i];
      assert args[..i] == args[..i - 1] + [arg];
      assert args[..i][..i - 1] == args[..i - 1];
      if IsFlag(arg, '?', '?') {
        assert args[i - 1] == arg;
        return Help;
      } else if IsFlag(arg, 'E', 'e') {
        exe := Some(arg[2..]);
      } else if IsFlag(arg, 'D', 'd') {
        wd := Some(arg[2..]);
      } else if IsFlag(arg, 'O', 'o') {
        out := Some(arg[2..]);
      }
      assert !AsksForHelp(args[..i]) by {
        assert forall k :: 0 <= k < i - 1 ==> args[..i][k] == args[..i - 1][k];
      }
      i := i + 1;
    }
    assert args[..i - 1] == args;
    if exe.None? {
      return Help;
    }
    r := Request(exe.value, wd, out);
  }

  /** A path separator of either kind. */
  predicate IsPathSeparator(c: char) {
    c == '\\' || c == '/'
  }

  /**
   * The output name derived from the target path: what follows whichever separator
   * comes last (the one with the shorter remainder), or `shim.out` without any.
   */
  function DefaultOutputName(exe: seq<char>): (out: seq<char>)
    ensures '\\' !in exe && '/' !in exe ==> out == DEFAULT_OUTPUT
    ensures '\\' in exe || '/' in exe ==>
              |out| < |exe| && out == exe[|exe| - |out|..]
              && IsPathSeparator(exe[|exe| - |out| - 1])
              && '\\' !in out && '/' !in out
    ensures IsCString(exe) ==> IsCString(out)
  {
    var back := FindLast(exe, '\\');
    var forward := FindLast(exe, '/');
    if back.None? && forward.None? then DEFAULT_OUTPUT
    else if back.None? then exe[forward.value + 1..]
    else if forward.None? then exe[back.value + 1..]
    else if |exe| - back.value < |exe| - forward.value then exe[back.value + 1..]
    else exe[forward.value + 1..]
  }

  lemma DefaultOutputNameExample()
    ensures DefaultOutputName("C:\\tools\\foo.exe") == "foo.exe"
  {
    var exe: seq<char> := "C:\\tools\\foo.exe";
    assert exe[8] == '\\';
    assert forall j :: 8 < j < |exe| ==> exe[j] != '\\';
    assert '/' !in exe;
    assert exe[9..] == "foo.exe";
  }

  /**
   * The stream path of a file: a buffer with room for the path, the suffix and a
   * terminator, into which the path is copied and the suffix over its terminator.
   */
  method StreamPath(path: seq<char>) returns (stream: seq<char>)
    requires IsCString(path)
    ensures stream == path + STREAM_SUFFIX
  {
    var lenWout := |path| + 1;
    var sout := new char[lenWout + 5];
    CopyString(sout, 0, lenWout, path);
    CopyString(sout, lenWout - 1, 6, STREAM_SUFFIX);
    assert sout[..] == path + STREAM_SUFFIX + [NUL] + [];
    CStringOfTerminated(path + STREAM_SUFFIX, []);
    CStringOfText(path + STREAM_SUFFIX);
    stream := CString(sout[..]);
  }
}
