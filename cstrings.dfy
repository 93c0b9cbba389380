/**
 * The C runtime string primitives both launchers are built from.
 *
 * A C string lives in a character buffer and ends at the first NUL. Here the
 * text of a C string is a `seq<char>` without NUL; `CString(buffer)` recovers
 * that text from a buffer. Narrow and wide characters are one alphabet.
 */
module CStrings {

  datatype Option<+T> = None | Some(value: T)

  /** The terminator of every C string. */
  const NUL: char := '\0'

  /** Text that can be held by a C string: it contains no terminator. */
  predicate IsCString(s: seq<char>) {
    NUL !in s
  }

  /** `p` occurs in `s` starting at position `i`. */
  predicate OccursAt(s: seq<char>, p: seq<char>, i: nat) {
    i + |p| <= |s| && s[i..i + |p|] == p
  }

  /** `wcsstr` started at position `from`: the first position at or after `from` where `p` occurs. */
  function FindFrom(s: seq<char>, p: seq<char>, from: nat): (r: Option<nat>)
    ensures r.Some? ==> from <= r.value && OccursAt(s, p, r.value)
    ensures r.Some? ==> forall j: nat :: from <= j < r.value ==> !OccursAt(s, p, j)
    ensures r.None? ==> forall j: nat :: from <= j ==> !OccursAt(s, p, j)
    decreases |s| - from
  {
    if |s| < from + |p| then None
    else if OccursAt(s, p, from) then Some(from)
    else FindFrom(s, p, from + 1)
  }

  /** `wcsstr(s, p)`: the first occurrence of `p` in `s` (an empty `p` occurs at 0). */
  function Find(s: seq<char>, p: seq<char>): Option<nat> {
    FindFrom(s, p, 0)
  }

  /** `wcschr`/`strchr` started at position `from`: the first position at or after `from` holding `c`. */
  function FindChar(s: seq<char>, c: char, from: nat): (r: Option<nat>)
    ensures r.Some? ==> from <= r.value < |s| && s[r.value] == c
    ensures r.Some? ==> forall j :: from <= j < r.value ==> s[j] != c
    ensures r.None? ==> forall j :: from <= j < |s| ==> s[j] != c
    decreases |s| - from
  {
    if |s| <= from then None
    else if s[from] == c then Some(from)
    else FindChar(s, c, from + 1)
  }

  /** The first `c` at or after `from` is at `k` when `k` holds one and nothing between does. */
  lemma FindCharAt(s: seq<char>, c: char, from: nat, k: nat)
    requires from <= k < |s| && s[k] == c
    requires forall j :: from <= j < k ==> s[j] != c
    ensures FindChar(s, c, from) == Some(k)
  {
  }

  /** `strrchr(s, c)`: the last position holding `c`. */
  function FindLast(s: seq<char>, c: char): (r: Option<nat>)
    ensures r.Some? ==> r.value < |s| && s[r.value] == c
    ensures r.Some? ==> forall j :: r.value < j < |s| ==> s[j] != c
    ensures r.None? <==> c !in s
  {
    if s == [] then None
    else if s[|s| - 1] == c then Some(|s| - 1)
    else FindLast(s[..|s| - 1], c)
  }

  /** The C string at the start of `buffer`: everything before its first NUL, or all of it. */
  function CString(buffer: seq<char>): (s: seq<char>)
    ensures IsCString(s)
    ensures s <= buffer
    ensures |s| < |buffer| ==> buffer[|s|] == NUL
  {
    match FindChar(buffer, NUL, 0)
    case None => buffer
    case Some(n) => buffer[..n]
  }

  /** A NUL-free prefix that is followed by NUL (or by nothing) is the C string of the buffer. */
  lemma CStringUnique(buffer: seq<char>, s: seq<char>)
    requires IsCString(s) && s <= buffer
    requires |s| < |buffer| ==> buffer[|s|] == NUL
    ensures CString(buffer) == s
  {
  }

  /** Text without NUL is its own C string. */
  lemma CStringOfText(s: seq<char>)
    requires IsCString(s)
    ensures CString(s) == s
  {
  }

  /** What follows a terminator never belongs to the C string. */
  lemma CStringOfTerminated(p: seq<char>, rest: seq<char>)
    ensures CString(p + [NUL] + rest) == CString(p)
  {
    var c := CString(p);
    var b := p + [NUL] + rest;
    assert c <= b by {
      assert c == b[..|c|];
    }
    CStringUnique(b, c);
  }

  /** The C string that starts `m` characters into a buffer is the rest of the buffer's C string. */
  lemma CStringFrom(buffer: seq<char>, m: nat)
    requires m <= |CString(buffer)|
    ensures CString(buffer[m..]) == CString(buffer)[m..]
  {
  }

  /** The part of `ReadFile` and of the string copies that moves characters into a buffer. */
  method CopyBytes(dst: array<char>, at: nat, src: seq<char>)
    requires at + |src| <= dst.Length
    modifies dst
    ensures dst[..] == old(dst[..at]) + src + old(dst[at + |src|..])
  {
    var i := 0;
    while i < |src|
      invariant 0 <= i <= |src|
      invariant dst[..] == old(dst[..at]) + src[..i] + old(dst[at + i..])
    {
      dst[at + i] := src[i];
      assert src[..i + 1] == src[..i] + [src[i]];
      i := i + 1;
    }
    assert src[..i] == src;
  }

  /**
   * `strcpy_s(dst + at, size, src)` (and `wcscpy_s`): the text and its terminator are
   * written at `at`. The call is only legal when they fit in the `size` characters
   * that start there, and those lie inside the buffer.
   */
  method CopyString(dst: array<char>, at: nat, size: nat, src: seq<char>)
    requires IsCString(src) && |src| < size && at + size <= dst.Length
    modifies dst
    ensures dst[..] == old(dst[..at]) + src + [NUL] + old(dst[at + |src| + 1..])
  {
    CopyBytes(dst, at, src);
    dst[at + |src|] := NUL;
  }

  /**
   * `wcscat_s(dst, size, src)`: `src` is written over the terminator of the C string
   * held by `dst`. The call is only legal when that terminator lies among the first
   * `size` characters and the joined text and its terminator fit there too.
   */
  method AppendString(dst: array<char>, size: nat, src: seq<char>)
    requires IsCString(src) && size <= dst.Length
    requires |CString(dst[..size])| + |src| < size
    modifies dst
    ensures CString(dst[..]) == old(CString(dst[..])) + src
  {
    ghost var before := dst[..];
    var n := |CString(dst[..size])|;
    assert before[..size][..n] == before[..n];
    assert before == before[..n] + [NUL] + before[n + 1..];
    CStringOfTerminated(before[..n], before[n + 1..]);
    CStringOfText(before[..n]);
    CopyString(dst, n, size - n, src);
    assert dst[..] == (before[..n] + src) + [NUL] + before[n + |src| + 1..];
    CStringOfTerminated(before[..n] + src, before[n + |src| + 1..]);
    CStringOfText(before[..n] + src);
  }
}
