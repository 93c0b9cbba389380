# Shim launchers, modelled in Dafny

This project models the string and buffer handling of two small Windows launchers.

**`Shim.cpp` is the self-shimming launcher.** At start-up it appends `:Shim` to its own path and tries to open that alternate data stream.
- If the stream does not open, it runs as the creator. It parses `/E<path>`, `/D<dir>` and `/O<out>`. It derives an output name when `/O` is missing, copies itself to that file and writes the record `exe` or `exe|wd` into the copy's `:Shim` stream.
- If the stream opens, it runs as the forwarder. It reads and splits the record, rebuilds the command line around the target and starts it.

**`shim.cpp` is the statically configured launcher.** Its target `EXE` and working directory `WD` are fixed at build time. It always forwards.

Both launchers rebuild the child's command line the same way. They find the first occurrence of `argv[0]` in the raw command line. From the first space after that occurrence, they append the rest of the line verbatim to the target's name.

## Modules

- `cstrings.dfy` (`CStrings`): the C runtime primitives the code uses.
  - `wcsstr` is `FindFrom`/`Find`. `wcschr`/`strchr` is `FindChar`. `strrchr` is `FindLast`.
  - "The C string at the start of a buffer" is `CString`.
  - `strcpy_s`/`wcscpy_s` is `CopyString` and `wcscat_s` is `AppendString`. Both work on `array<char>` buffers, and their `requires` are the C11 bounds conditions. Every call site in the model is therefore proved not to overrun its buffer.
- `process.dfy` (`Process`): exit codes (32-bit `DWORD`s) and what is passed to `CreateProcessW`.
- `command_line.dfy` (`CommandLine`): the command-line reconstructor shared by both launchers.
- `metadata.dfy` (`Metadata`): the record format, with the creator's encoding and the forwarder's in-place decoding over arrays.
- `setup.dfy` (`Setup`): the creator's flag loop, the default output name and the stream path.
- `launcher.dfy` (`Launcher`): `Create`, `Shim` and `main` of `Shim.cpp`.
  - The operating system is a `Host` value: the module path it reports, the streams that can be opened, whether each copy, open, write, read and launch succeeds, the raw command line and the child's exit code.
  - What a run does to the outside world is returned as a list of `Effect`s.
- `static_shim.dfy` (`StaticShim`): `main` of `shim.cpp`. `EXE`/`WD` are a `Config` value, and `DEFAULT_CONFIG` carries the build defaults `cmd` and no directory.

## Code and design description disagree

The model follows the code in each of these cases.

- **Forwarder exit status.** The design says the forwarder's exit code is the child's. `Shim.cpp:205-216` reads the child's exit code and then returns `EXIT_SUCCESS` whatever it was. `Launcher.ShimBehaviour` states this. Only `shim.cpp:101` passes the child's code on (`StaticShim.Run`).
- **Launch failure.** The design asks for a launch-failure status that cannot be confused with a child's. Both programs return `EXIT_FAILURE` (1), which a child can also return.
- **Worked example.** A design example expects `shim.exe /Efoo.exe bar baz` to forward ` bar baz`. The code forwards everything from the first space after the name, which here is ` /Efoo.exe bar baz`. `CommandLine.PlainInvocation` states the general rule.
- **Separator in the target.** The design says a target holding the `|` separator must be rejected at creation. The code writes it anyway, and the forwarder then misreads it (`Metadata.SeparatorInTargetIsMisread`).

## Model

| member | source | states |
|---|---|---|
| `CStrings.FindFrom` | Shim.cpp:160 | `wcsstr`: the result is a position at or after the start where the needle occurs, and none occurs before it. `None` exactly when it occurs nowhere from there on. |
| `CStrings.FindChar` | Shim.cpp:166 | `wcschr`/`strchr`: the first position at or after the start holding the character. `None` exactly when none does. |
| `CStrings.FindLast` | Shim.cpp:58-59 | `strrchr`: a position holding the character with none after it. `None` iff the character does not occur. |
| `CStrings.CString` | Shim.cpp:140-143 | The C string at the start of a buffer: a NUL-free prefix followed by NUL, or the whole buffer. |
| `CStrings.CStringOfTerminated` | Shim.cpp:140 | Whatever follows a written terminator is not part of the C string. |
| `CStrings.CStringFrom` | Shim.cpp:147 | A pointer into a C string names the rest of that C string. |
| `CStrings.CopyString` | Shim.cpp:104 | `strcpy_s`: only legal when the text and its terminator fit in the stated size inside the buffer. Writes them there and nothing else. |
| `CStrings.AppendString` | shim.cpp:62 | `wcscat_s`: only legal when the joined string and its terminator fit in the stated size. The buffer's C string becomes the old one followed by the appended text. |
| `Setup.LastFlag` | Shim.cpp:41-51 | A flag's value is the text after the first two characters of the LAST argument carrying `/X` or `/x`. It is `None` iff no argument carries the flag, so other arguments change nothing. |
| `Setup.ParseArguments` | Shim.cpp:37-54 | The argument loop yields help iff some argument starts with `/?` or none starts with `/E`/`/e`. Otherwise it yields the last `/E`, `/D` and `/O` values. |
| `Setup.DefaultOutputName` | Shim.cpp:56-70 | Without `\` and `/` in the target, the name is `shim.out`. Otherwise it is the suffix after the last separator of either kind. That suffix holds no separator and is empty when the target ends in one. |
| `Setup.DefaultOutputNameExample` | Shim.cpp:57-69 | `C:\tools\foo.exe` yields `foo.exe`. |
| `Setup.StreamPath` | Shim.cpp:90-93 | The buffer of `|out| + 6` characters holds exactly `out` followed by `:Shim`. |
| `Metadata.Received` | Shim.cpp:134-140 | One read returns a prefix of the stream of at most `2*PATH_LENGTH+1` bytes, so the terminator index lies inside the `2*PATH_LENGTH+2` buffer. A stream that fits is read whole. |
| `Metadata.EncodeRecord` | Shim.cpp:101-110 | The written bytes are `exe` `\|` `wd`, or `exe` and NUL without a directory. Their length is `lenExe + lenWd + 1`, and the `lenExe + lenWd + 2` buffer is not overrun. |
| `Metadata.Decode` | Shim.cpp:140-148 | `exe` holds no separator. The working directory is absent iff no `\|` comes before the first NUL. Otherwise `exe`, the separator and `wd` together are exactly the text before the first NUL. |
| `Metadata.ReadRecord` | Shim.cpp:133-148 | Reading into the buffer, terminating it and splitting it in place at the first `\|` yields `Decode` of the bytes received. |
| `Metadata.SplitInPlace` | Shim.cpp:144-147 | Overwriting a character of a C string with NUL leaves the part before it and the part after it as two C strings. |
| `Metadata.RoundTrip` | Shim.cpp:101-148 | Decoding what was encoded gives back the target and working directory when the target holds neither `\|` nor NUL, the directory holds no NUL and the record fits in one read. The directory may hold `\|`. |
| `Metadata.SeparatorInTargetIsMisread` | Shim.cpp:101-148 | A target holding `\|` decodes to a proper prefix of itself, and a working directory appears whether or not one was written. |
| `CommandLine.ForwardedTail` | shim.cpp:39-47 | `None` iff `argv0` never occurs. Otherwise the tail is empty or starts with a space and is a suffix of the command line. No space lies between the end of the FIRST occurrence of `argv0` and the tail's start. |
| `CommandLine.BuildCommandLine` | shim.cpp:49-63 | The buffer of `wcslen(EXE) + wcslen(tail) + 1` characters ends up holding exactly the target followed by the tail. |
| `CommandLine.Reconstruct` | Shim.cpp:159-179 | No command line at all iff `argv0` is not in the raw command line. Otherwise the target followed by the forwarded tail, which is the target alone when no space follows. |
| `CommandLine.PlainInvocation` | shim.cpp:40-47 | For a command line made of the name and then arguments starting with a space, exactly those arguments are forwarded. Nothing is forwarded when there are none. |
| `CommandLine.QuotedInvocation` | shim.cpp:40-47 | For a quoted name, the closing quote is dropped and the arguments are forwarded from their leading space, exactly as typed. |
| `CommandLine.ForwardedTailExamples` | Shim.cpp:159-166 | `shim.exe bar baz` forwards ` bar baz`, and `shim.exe` alone forwards nothing. |
| `Launcher.Create` | Shim.cpp:27-122 | Help succeeds with no copy and no write. Otherwise it copies to the output name, then creates the output's `:Shim` stream, then writes the encoded record. The first step that fails ends the run with `EXIT_FAILURE`. |
| `Launcher.Shim` | Shim.cpp:124-217 | Failure with no launch if the read fails, `argv0` is missing or the launch fails. Otherwise it spawns the decoded target followed by the tail, in the decoded directory, and returns `EXIT_SUCCESS` whatever the child's code. |
| `Launcher.GetModuleFileName` | Shim.cpp:229-230 | The system call's result: the path length when the path fits, the buffer size when it is cut, 0 when there is none. |
| `Launcher.Start` | Shim.cpp:219-253 | It fails when the own path is missing, empty or `PATH_LENGTH-5` characters or longer. Otherwise it forwards iff `path:Shim` opens. When it does not, the creator is given the own path with `:Shim` cut off again. |
| `Launcher.CreatorWritesEncodedRecord` | Shim.cpp:90-110 | A creator run that wrote a record succeeded with a target. It wrote exactly the encoded target and working directory into the output name followed by `:Shim`. |
| `Launcher.ForwarderLaunchesEncodedRecord` | Shim.cpp:133-206 | A forwarder reading a record with no `\|` in its target, which fits one read, launches exactly that target followed by the forwarded tail, in that working directory, and succeeds. |
| `Launcher.CreatedShimLaunchesItsTarget` | Shim.cpp:101-206 | A record written by a creator run makes a later forwarder run launch exactly the parsed target and working directory, followed by its own forwarded tail. |
| `StaticShim.Run` | shim.cpp:21-102 | Failure with no launch if `argv0` is missing or the launch fails. Otherwise it launches `EXE` and the tail in `WD`, and the exit status is the child's exit code. |
| `StaticShim.DefaultRunsBareCmd` | shim.cpp:11-19 | The default build run with no arguments starts exactly `cmd`. |

## Left out

- The Win32 calls are parameters of the model, never executed.
  - `CopyFileW`, `CreateFileW`, `WriteFile` and `CreateProcessW` are success flags.
  - `ReadFile` is a success flag plus the stream's content.
  - `GetCommandLineW` is a value.
  - `WaitForSingleObject`/`GetExitCodeProcess` are the child's exit code.
  - `GetModuleFileNameW` is an optional path.
- NTFS alternate streams are a map from stream path to content. Opening a stream succeeds iff its path is a key. As in the code, any failure to open it counts as "no stream".
- `mbstowcs_s` conversions are the identity: narrow and wide characters are one alphabet.
- `printf`/`fprintf` diagnostics and the help text are not modelled. `PrintHelp` is modelled only by its exit status.
- `new`/`delete` and handle closing are not modelled. Neither is the handle leak on the error paths.
- The `#ifndef` build-time defaults are a `Config` value and the constant `DEFAULT_CONFIG`.
- `ReadFile` is assumed to return the whole stream up to the requested count. It never returns fewer bytes. `WriteFile` writes all or nothing.
- `GetModuleFileName`: the Windows XP behaviour of leaving a cut-off path unterminated is not modelled.
- `CopyString`: the bytes after the written terminator are kept. The debug C runtime may fill them, but no caller reads them.
- Exit codes: `main`'s `int` return is taken to be the process's 32-bit exit code, so the `DWORD`-to-`int` conversion in `shim.cpp:101` is the identity on the exit status.
