# Pcap_DNSProxy logging front-end, in Dafny

This project models the logging front-end of Pcap_DNSProxy
(`Source/Pcap_DNSProxy/PrintLog.cpp`). It covers four parts:

- `PrintError` decides whether a record is rejected (returns false, no output),
  suppressed (returns true, no output) or written. When written, it builds the line
  `"[Tag] " + message + code suffix + location suffix + ".\n"`.
- `ErrorCodeToMessage` appends the description of a platform status code.
- `WriteScreenAndFile` is modelled as a state machine. Its state is the start-up
  time, the screen output and the log file lines. It takes the start-up time once,
  writes the screen, rotates the file by deleting it and appends to the file in a
  fixed order.
- Two lookups: `ReadTextPrintLog` and `DNSCurvePrintLog`.

Files, one module each:

- `wrappers.dfy`: `Option`.
- `log_types.dfy`: build switches (platform, `ENABLE_PCAP`, `ENABLE_LIBSODIUM`),
  levels, categories, configuration, the unreachable-network codes and the entries
  written to a sink.
- `file_names.dfy`: the location suffix and the Windows loop that collapses doubled
  backslashes. `Squeeze` is its reference definition.
- `error_codes.dfy`: `ErrorCodeToMessage` and its reference definition `WithErrorCode`.
- `formatter.dfy`: the filter and the line builder of `PrintError`. `Compose` is
  their reference definition.
- `log_writer.dfy`: the pure `Write` and `PrintErrorSpec` definitions and the class
  `Logger`. `Logger` holds `StartupTime`, the screen and the file, and its methods
  `WriteScreenAndFile`, `PrintError` and `ReadTextPrintLog` are proved against
  those definitions.
- `log_properties.dfy`: start-up banner at most once over any run, rotation and
  write order, agreement of the two sinks.
- `dnscurve.dfy`: the DNSCurve server labels.

Inputs from the environment are parameters:

- The clock result (`localtime_s` / `localtime_r`; nothing on failure).
- The size `stat` reports (nothing when it fails).
- Whether the deletion succeeds and whether the file opens.
- The system message lookup, a function from the cast code to optional text.

Behaviour of the code worth knowing:

- Category tags are the ones the code writes: `[IPFilter Error]`, `[Pcap Error]`,
  `[DNSCurve Error]`, `[SOCKS Error]`, `[HTTP Error]`.
- The code suffix has no space before `[%d]`: `": <text>[%d]"`.
- The file sink is written on every call. No path check guards it.
- The macOS build has no screen guard, so it always prints to the screen.
- `StartupTime` is cleared when the clock is read, before either sink is written.
  If the deletion fails, the file never receives the banner.
- An out-of-range file index makes `FileList_*.at()` throw; the model returns that as
  the outcome `OutOfRangeThrown`.

## Model

| member | source | states |
|---|---|---|
| FileNames.FindDoubleBackslash | Source/Pcap_DNSProxy/PrintLog.cpp:55-56 | `find(L"\\\\")`: if it returns an index, a doubled backslash starts there and none starts earlier; it returns nothing exactly when the text holds no doubled backslash |
| FileNames.CollapseDoubleBackslash | Source/Pcap_DNSProxy/PrintLog.cpp:54-57 | the erase loop ends (the length drops on every pass) and returns `Squeeze` of its input: no doubled backslash is left and the text is never longer |
| FileNames.EraseOneOfPairKeepsSqueeze | Source/Pcap_DNSProxy/PrintLog.cpp:56 | erasing one backslash of a doubled pair does not change the squeezed text, which is the loop invariant |
| FileNames.SqueezeIsPairFree | Source/Pcap_DNSProxy/PrintLog.cpp:55-56 | the reference result never contains `\\` twice in a row |
| FileNames.SqueezeFixesPairFree | Source/Pcap_DNSProxy/PrintLog.cpp:55-56 | a file name without doubled backslashes passes through unchanged |
| FileNames.SqueezeIdempotent | Source/Pcap_DNSProxy/PrintLog.cpp:55-56 | collapsing twice gives the same text as collapsing once |
| FileNames.SqueezeAfterPlainPrefix | Source/Pcap_DNSProxy/PrintLog.cpp:52-56 | the `" in "` prefix survives the collapse, so only the file name is collapsed |
| FileNames.LocationSuffixShape | Source/Pcap_DNSProxy/PrintLog.cpp:51-61 | the location suffix is `" in "`, the file name (collapsed on Windows) and `"(Line %u)"` only when the line is positive; on Windows it has no doubled backslash |
| ErrorCodes.AsDword | Source/Pcap_DNSProxy/PrintLog.cpp:350 | the `(DWORD)` cast lands in 0 .. 2^32-1 and agrees with the code modulo 2^32 |
| ErrorCodes.AsInt32 | Source/Pcap_DNSProxy/PrintLog.cpp:370 | the `(int)` cast lands in the 32-bit signed range, agrees with the code modulo 2^32 and keeps codes already in range |
| ErrorCodes.ErrorCodeToMessage | Source/Pcap_DNSProxy/PrintLog.cpp:334-382 | the in-place appends and `pop_back`s produce exactly `WithErrorCode` on every platform and lookup result |
| ErrorCodes.WithErrorCodeKeepsMessage | Source/Pcap_DNSProxy/PrintLog.cpp:339-378 | a zero code leaves the message unchanged, and only a zero code does; otherwise the message stays a prefix, a failed lookup yields `message + ": %d"`, and a found text ends the result with `"[%d]"` |
| ErrorCodes.WithErrorCodeIsSuffix | Source/Pcap_DNSProxy/PrintLog.cpp:339-378 | the appended code suffix does not depend on the message: the result is always the message followed by the suffix an empty message would get |
| ErrorCodes.WithErrorCodeStripsWindowsTail | Source/Pcap_DNSProxy/PrintLog.cpp:358-378 | on Windows the last two characters of the looked-up text are dropped before `"[%d]"`; on POSIX the text is kept whole |
| Formatter.Tag | Source/Pcap_DNSProxy/PrintLog.cpp:64-135 | the category switch has a tag exactly for the known categories, with packet capture and DNSCurve only when built in; every tag has the form `"[...] "` |
| Formatter.BuildLocation | Source/Pcap_DNSProxy/PrintLog.cpp:40-62 | building `FileNameString` by appends and the collapse loop gives the reference location suffix, which starts with `" in "` |
| Formatter.ComposeLine | Source/Pcap_DNSProxy/PrintLog.cpp:31-142 | the imperative checks, switch and appends of `PrintError` give the verdict and line of `Compose`, whose filter `Filtered` models the checks at 32-47 and whose `Unreachable` models the network-error rule at 98 with `NetUnreachable`/`HostUnreachable` |
| Formatter.RejectedExactly | Source/Pcap_DNSProxy/PrintLog.cpp:32-134 | false with no output exactly when (`Filtered`) logging is off, the level is above the configured one, the message is null or empty, the file name is given but empty, or the category is unknown to the build |
| Formatter.SuppressedExactly | Source/Pcap_DNSProxy/PrintLog.cpp:95-102 | true with no output exactly when the checks pass and a network error with the net- or host-unreachable code arrives below level 3 |
| Formatter.EmittedLineShape | Source/Pcap_DNSProxy/PrintLog.cpp:105-142 | a packet-capture line is exactly tag and message; any other line is exactly tag, message, the code suffix (which depends only on the code), the location suffix and `".\n"`, so with no code it is tag, message, location suffix, `".\n"` |
| Formatter.AppendDetails | Source/Pcap_DNSProxy/PrintLog.cpp:138-142 | after tag and message the line gets the code suffix, the location suffix when there is one, and `".\n"`, in that order |
| Formatter.WindowsLocationCollapsed | Source/Pcap_DNSProxy/PrintLog.cpp:51-142 | on Windows an emitted line with a file name is tag, message, code suffix, `" in "`, the name with every backslash run collapsed, the line placeholder when the line is positive, and `".\n"`; the collapsed location has no doubled backslash |
| Formatter.NoticeExample | Source/Pcap_DNSProxy/PrintLog.cpp:67-142 | a level-1 notice `"Test"` with no code, file or line becomes exactly `"[Notice] Test.\n"` |
| LogWriter.Arity | Source/Pcap_DNSProxy/PrintLog.cpp:201-208 | the code is passed exactly when it is non-zero and the line exactly when it is positive, each with its own value |
| LogWriter.Write | Source/Pcap_DNSProxy/PrintLog.cpp:149-304 | returns true exactly when the clock is read, a needed deletion succeeds and the file opens; a clock failure changes nothing; otherwise the start-up time is consumed; a failed deletion leaves the file as it was. The rotation condition `Rotates` models 217-226 and 238 (size at least `LogMaxSize`, and non-zero on Windows); the screen guard `ScreenEnabled` models 174-178 (`IsConsole` on Windows, `!IsDaemon` on Linux, no guard on macOS) |
| LogWriter.ReadTextRequest | Source/Pcap_DNSProxy/PrintLog.cpp:390-408 | an unknown input type does nothing; an index past the file list throws; otherwise the record names that list's file under the hosts, IP filter or parameter category |
| LogWriter.Logger.WriteScreenAndFile | Source/Pcap_DNSProxy/PrintLog.cpp:149-304 | the method's new start-up time, screen and file and its result are those of `Write` |
| LogWriter.Logger.PrintError | Source/Pcap_DNSProxy/PrintLog.cpp:23-146 | the method's result and new state are those of `Compose` followed, for an emitted line, by `Write` |
| LogWriter.Logger.ReadTextPrintLog | Source/Pcap_DNSProxy/PrintLog.cpp:385-411 | an unknown type or a thrown `at()` leaves the state alone; otherwise it is `PrintError` at level 2, code 0, message "Data of a line is too short", with the selected file name and the line |
| LogProperties.WriteBannerBudget | Source/Pcap_DNSProxy/PrintLog.cpp:165-266 | one write only appends to the screen; it writes a banner on a sink only by spending the pending start-up time |
| LogProperties.RunBannerBudget | Source/Pcap_DNSProxy/PrintLog.cpp:165-266 | over any sequence of `PrintError` calls, banners written plus start-up time still pending never grows, on either sink |
| LogProperties.BannerAtMostOnce | Source/Pcap_DNSProxy/PrintLog.cpp:165-266 | over any sequence of calls, the screen gains at most one banner and none if the start-up time was not set; the file never holds more banners than before plus one |
| LogProperties.StartupTakenOnce | Source/Pcap_DNSProxy/PrintLog.cpp:166-171 | after one write that read the clock, `StartupTime` is 0 and a second write adds no banner to either sink |
| LogProperties.BannerOnlyWhenStartupSet | Source/Pcap_DNSProxy/PrintLog.cpp:173-295 | the screen gains the banner (only if the start-up time was set), the time stamp and the message; a successful file write appends banner, deletion notice, time stamp and message, in that order, to the earlier content (append mode, 250/252), or to an empty file after a rotation |
| LogProperties.DeleteFailureWritesNoFile | Source/Pcap_DNSProxy/PrintLog.cpp:226-245 | when the rotation's deletion fails, the call returns false and the file is unchanged |
| LogProperties.RotatedFileStartsFresh | Source/Pcap_DNSProxy/PrintLog.cpp:226-295 | after a rotation the file holds only the optional banner, the "old log file was deleted" notice, the time stamp and the message |
| LogProperties.SinksAgree | Source/Pcap_DNSProxy/PrintLog.cpp:173-295 | the screen output does not depend on the file's fate, and both sinks end with the same message and arguments |
| LogProperties.NoOutputWithoutEmit | Source/Pcap_DNSProxy/PrintLog.cpp:31-135 | a rejected record returns false and a suppressed one true, and neither touches the start-up time, the screen or the file |
| LogProperties.ReadTextLine | Source/Pcap_DNSProxy/PrintLog.cpp:390-408 | a short-line report writes nothing below level 2 or for an empty file name; otherwise it writes tag, "Data of a line is too short", the location suffix and `".\n"`, with no code |
| DNSCurve.ServerLabel | Source/Pcap_DNSProxy/PrintLog.cpp:419-438 | the label is empty exactly for an unknown server type; every other label starts with its address family and ends with `"Server "` |
| DNSCurve.ServerLabelInjective | Source/Pcap_DNSProxy/PrintLog.cpp:420-437 | distinct server types get distinct labels |
| DNSCurve.DNSCurvePrintLog | Source/Pcap_DNSProxy/PrintLog.cpp:415-441 | the out-parameter is cleared and then set to the label, so its old content is always discarded |

## Left out

- Console and file I/O (`vfwprintf_s`, `fwprintf_s`, `fopen`, `_wfopen_s`, `fclose`, `stat`, `GetFileAttributesExW`, `DeleteFileW`, `remove`) is modelled only as entries appended to two sequences. The stat, delete and open results are inputs.
- `PrintToScreen` is modelled only as the entries it appends to the screen. Its `IsInnerLock` choice of lock is left out with the locks.
- printf-style expansion is left out. `%d`, `%u` and the time-stamp fields stay opaque, and the model records only which arguments are passed. It does not capture how a `%` inside a message or file name would be read.
- Clock and time zone handling is left out. The clock result is an input, and a failure returns false.
- The mutexes `ScreenLock` and `ErrorLogLock`, and races on `StartupTime` between threads, are left out. The model is single-threaded.
- `FormatMessageW`, `LocalFree`, `strerror` and `MBSToWCSString` are represented by the `lookup` parameter.
- Message and file names are Dafny strings. A C string cut short by an embedded NUL, and the file's text encoding, are not modelled.
- The file size is not kept in the state. It comes from `stat`, because the size of a written line depends on printf expansion and encoding.
- PrintLog.h and the header that defines `LOG_LEVEL_*`, `WSAENETUNREACH` and `WSAEHOSTUNREACH` are not part of this model. The levels are taken as 0 to 3. The unreachable codes are 10051 and 10065 on Windows, 101 and 113 on Linux, and 51 and 65 on macOS.
