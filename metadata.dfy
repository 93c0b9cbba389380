/**
 * The metadata record a shim carries in its `:Shim` stream: the target
 * program, optionally followed by `|` and the working directory.
 */
module Metadata {
  import opened CStrings

  /** The longest path the launcher expects, in characters. */
  const PATH_LENGTH: nat := 65535

  /** The character between the target and the working directory. */
  const SEPARATOR: char := '|'

  /** How many bytes the forwarder asks for: two paths and the separator. */
  const READ_LIMIT: nat := 2 * PATH_LENGTH + 1

  /** The buffer they are read into: one more, for the terminator. */
  const READ_BUFFER_SIZE: nat := 2 * PATH_LENGTH + 2

  /** The decoded record: the target, and the working directory if one was set. */
  datatype Record = Record(exe: seq<char>, wd: Option<seq<char>>)

  /** The length of an optional working directory (0 when there is none). */
  function WdLength(wd: Option<seq<char>>): nat {
    if wd.Some? then |wd.value| else 0
  }

  /**
   * The bytes written to the stream: the target and the separator and the working
   * directory, or, without a working directory, the target and its terminator.
   */
  function Encode(exe: seq<char>, wd: Option<seq<char>>): seq<char> {
    match wd
    case None => exe + [NUL]
    case Some(dir) => exe + [SEPARATOR] + dir
  }

  /** What one read of the stream returns: its first `READ_LIMIT` bytes at most. */
  function Received(stored: seq<char>): (data: seq<char>)
    ensures |data| <= READ_LIMIT < READ_BUFFER_SIZE
    ensures data <= stored
    ensures |stored| <= READ_LIMIT ==> data == stored
  {
    if |stored| <= READ_LIMIT then stored else stored[..READ_LIMIT]
  }

  /**
   * How the forwarder reads the bytes it received: the C string they start with is
   * split at its first separator, if any.
   */
  function Decode(data: seq<char>): (r: Record)
    ensures IsCString(r.exe) && SEPARATOR !in r.exe
    ensures r.wd.Some? ==> IsCString(r.wd.value)
    ensures r.wd.None? <==> SEPARATOR !in CString(data)
    ensures CString(data) == r.exe + (if r.wd.Some? then [SEPARATOR] + r.wd.value else [])
  {
    var text := CString(data);
    match FindChar(text, SEPARATOR, 0)
    case None => Record(text, None)
    case Some(k) =>
      assert text == text[..k] + [SEPARATOR] + text[k + 1..];
      Record(text[..k], Some(text[k + 1..]))
  }

  /**
   * The creator's encoding: the target is copied into a buffer of
   * `|exe| + |wd| + 2` characters, the separator and the working directory after it,
   * and all but the last character of the buffer are written.
   */
  method EncodeRecord(exe: seq<char>, wd: Option<seq<char>>) returns (written: seq<char>)
    requires IsCString(exe) && (wd.Some? ==> IsCString(wd.value))
    ensures written == Encode(exe, wd)
    ensures |written| == |exe| + WdLength(wd) + 1
  {
    var lenExe := |exe|;
    var lenWd := WdLength(wd);
    var buffer := new char[lenExe + lenWd + 1 + 1];
    CopyString(buffer, 0, lenExe + 1, exe);
    if wd.Some? {
      buffer[lenExe] := SEPARATOR;
      CopyString(buffer, lenExe + 1, lenWd + 1, wd.value);
    }
    written := buffer[..lenExe + lenWd + 1];
  }

  /**
   * The forwarder's decoding, in place: at most `READ_LIMIT` bytes are read into the
   * buffer and terminated, and the first separator before the terminator, if any,
   * is overwritten by a terminator so that the buffer holds two C strings.
   */
  method ReadRecord(stored: seq<char>) returns (rec: Record)
    ensures rec == Decode(Received(stored))
  {
    var buffer := new char[READ_BUFFER_SIZE];
    var data := Received(stored);
    var bytes := |data|;
    ghost var before := buffer[..];
    CopyBytes(buffer, 0, data);
    assert buffer[..] == data + before[bytes..];
    buffer[bytes] := NUL;
    TerminatedRead(before, data);
    ghost var filled := buffer[..];
    var text := CString(buffer[..]);
    var sep := FindChar(text, SEPARATOR, 0);
    var wd: Option<seq<char>> := None;
    if sep.Some? {
      var k := sep.value;
      buffer[k] := NUL;
      SplitInPlace(filled, k);
      wd := Some(CString(buffer[k + 1..]));
    }
    rec := Record(CString(buffer[..]), wd);
  }

  /** Bytes copied to the front of a buffer and terminated there read back as their own C string. */
  lemma TerminatedRead(before: seq<char>, data: seq<char>)
    requires |data| < |before|
    ensures CString((data + before[|data|..])[|data| := NUL]) == CString(data)
  {
    var filled := (data + before[|data|..])[|data| := NUL];
    assert filled == data + [NUL] + before[|data| + 1..];
    CStringOfTerminated(data, before[|data| + 1..]);
  }

  /** Overwriting a character of a C string with a terminator leaves two C strings. */
  lemma SplitInPlace(buffer: seq<char>, k: nat)
    requires k < |CString(buffer)|
    ensures CString(buffer[k := NUL]) == CString(buffer)[..k]
    ensures CString(buffer[k := NUL][k + 1..]) == CString(buffer)[k + 1..]
  {
    var text := CString(buffer);
    var split := buffer[k := NUL];
    assert split == text[..k] + [NUL] + buffer[k + 1..];
    CStringOfTerminated(text[..k], buffer[k + 1..]);
    CStringOfText(text[..k]);
    assert split[k + 1..] == buffer[k + 1..];
    CStringFrom(buffer, k + 1);
  }

  /**
   * A record read back decodes to what was encoded, provided the target holds no
   * separator and the encoding fits in one read; the working directory may hold one.
   */
  lemma RoundTrip(exe: seq<char>, wd: Option<seq<char>>)
    requires IsCString(exe) && SEPARATOR !in exe
    requires wd.Some? ==> IsCString(wd.value)
    requires |exe| + WdLength(wd) + 1 <= READ_LIMIT
    ensures Decode(Received(Encode(exe, wd))) == Record(exe, wd)
  {
  }

  /**
   * The ambiguity of the format: a target that holds the separator is cut at it, and
   * the rest of it is read as a working directory whether or not one was set.
   */
  lemma SeparatorInTargetIsMisread(exe: seq<char>, wd: Option<seq<char>>)
    requires IsCString(exe) && SEPARATOR in exe
    requires wd.Some? ==> IsCString(wd.value)
    requires |exe| + WdLength(wd) + 1 <= READ_LIMIT
    ensures var r := Decode(Received(Encode(exe, wd)));
            |r.exe| < |exe| && r.exe == exe[..|r.exe|] && r.wd.Some?
  {
  }
}
