/**
 * The command-line reconstructor shared by both launchers: the program's own
 * name is located in the raw command line, and whatever follows it, from the
 * next space on, is appended verbatim to the target program's name.
 */
module CommandLine {
  import opened CStrings

  const SPACE: char := ' '

  /** `i` is where `p` first occurs in `s`. */
  predicate FirstOccurrence(s: seq<char>, p: seq<char>, i: nat) {
    OccursAt(s, p, i) && forall j: nat :: j < i ==> !OccursAt(s, p, j)
  }

  /**
   * The arguments forwarded to the target: the rest of the command line from the first
   * space after the first occurrence of `argv0`, or nothing when no space follows it.
   * `None` when `argv0` does not occur at all.
   */
  function ForwardedTail(cl: seq<char>, argv0: seq<char>): (tail: Option<seq<char>>)
    ensures tail.None? <==> forall i: nat :: !OccursAt(cl, argv0, i)
    ensures tail.Some? ==> tail.value == [] || tail.value[0] == SPACE
    ensures tail.Some? ==> |tail.value| <= |cl| && tail.value == cl[|cl| - |tail.value|..]
    ensures tail.Some? ==> exists i: nat :: FirstOccurrence(cl, argv0, i)
                                            && i + |argv0| <= |cl| - |tail.value|
                                            && SPACE !in cl[i + |argv0|..|cl| - |tail.value|]
  {
    match Find(cl, argv0)
    case None => None
    case Some(i) =>
      match FindChar(cl, SPACE, i + |argv0|)
      case None =>
        assert FirstOccurrence(cl, argv0, i);
        Some([])
      case Some(j) =>
        assert FirstOccurrence(cl, argv0, i);
        Some(cl[j..])
  }

  /**
   * The buffer the new command line is built in: sized for the target and the tail
   * plus a terminator, filled by a string copy and, when there is a tail, a string append.
   */
  method BuildCommandLine(exe: seq<char>, tail: Option<seq<char>>) returns (ncl: seq<char>)
    requires IsCString(exe) && (tail.Some? ==> IsCString(tail.value))
    ensures ncl == exe + (if tail.Some? then tail.value else [])
  {
    var buffer: array<char>;
    if tail.None? {
      var size := |exe| + 1;
      buffer := new char[size];
      CopyString(buffer, 0, size, exe);
      CStringOfTerminated(exe, []);
      CStringOfText(exe);
    } else {
      var size := |exe| + |tail.value| + 1;
      buffer := new char[size];
      CopyString(buffer, 0, size, exe);
      assert buffer[..size] == exe + [NUL] + buffer[|exe| + 1..];
      CStringOfTerminated(exe, buffer[|exe| + 1..]);
      CStringOfText(exe);
      AppendString(buffer, size, tail.value);
    }
    ncl := CString(buffer[..]);
  }

  /**
   * The new command line: the target `exe` followed by the forwarded tail, or `None`
   * (and no command line at all) when `argv0` is not found in `cl`.
   */
  method Reconstruct(cl: seq<char>, argv0: seq<char>, exe: seq<char>) returns (ncl: Option<seq<char>>)
    requires IsCString(cl) && IsCString(exe)
    ensures ncl.None? <==> ForwardedTail(cl, argv0).None?
    ensures ncl.Some? ==> ncl.value == exe + ForwardedTail(cl, argv0).value
  {
    var found := Find(cl, argv0);
    if found.None? {
      return None;
    }
    var pos := found.value + |argv0|;
    var space := FindChar(cl, SPACE, pos);
    var line: seq<char>;
    if space.None? {
      line := BuildCommandLine(exe, None);
    } else {
      line := BuildCommandLine(exe, Some(cl[space.value..]));
    }
    ncl := Some(line);
  }

  /** The tail keeps the leading space and everything after it; a bare invocation forwards nothing. */
  lemma ForwardedTailExamples()
    ensures ForwardedTail("shim.exe bar baz", "shim.exe") == Some(" bar baz")
    ensures ForwardedTail("shim.exe", "shim.exe") == Some([])
  {
  }

  /** An unquoted invocation: whatever follows the name, from its leading space on, is forwarded. */
  lemma PlainInvocation(name: seq<char>, args: seq<char>)
    requires args == [] || args[0] == SPACE
    ensures ForwardedTail(name + args, name) == Some(args)
  {
  }

  /**
   * A quoted invocation: the closing quote after the name is dropped, and the
   * arguments are forwarded from their leading space on, exactly as typed.
   */
  lemma {:induction false} QuotedInvocation(name: seq<char>, args: seq<char>)
    requires name != [] && '"' !in name
    requires args == [] || args[0] == SPACE
    ensures ForwardedTail(['"'] + name + ['"'] + args, name) == Some(args)
  {
    var cl := ['"'] + name + ['"'] + args;
    assert cl[0] == '"' != name[0];
    assert cl[1..1 + |name|] == name;
    assert OccursAt(cl, name, 1);
    assert FindFrom(cl, name, 0) == Some(1);
    assert cl[1 + |name|] == '"';
    if args != [] {
      assert cl[2 + |name|] == SPACE;
      assert FindChar(cl, SPACE, 1 + |name|) == Some(2 + |name|);
      assert cl[2 + |name|..] == args;
    } else {
      assert FindChar(cl, SPACE, 1 + |name|) == None;
    }
  }
}
