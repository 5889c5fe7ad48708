/**
 * The vocabulary of the logging front-end of Pcap_DNSProxy (PrintLog.cpp):
 * build switches, configured levels, log categories, the lines written to
 * the two sinks and the argument lists handed to the printf-style writers.
 */
module LogTypes {

  /** The three `PLATFORM_*` builds the source distinguishes with `#if`. */
  datatype Platform = Windows | Linux | MacOS

  /** The preprocessor switches that change behaviour: the platform and the
      optional packet-capture (`ENABLE_PCAP`) and DNSCurve
      (`ENABLE_LIBSODIUM`) features. */
  datatype Build = Build(platform: Platform, pcap: bool, libsodium: bool)

  /** Log levels `LOG_LEVEL_0` .. `LOG_LEVEL_3`; higher is more verbose. */
  const LOG_LEVEL_0: nat := 0
  const LOG_LEVEL_1: nat := 1
  const LOG_LEVEL_2: nat := 2
  const LOG_LEVEL_3: nat := 3

  /** The `ErrorType` argument of `PrintError`. `Unrecognized` stands for
      every value the switch has no case for. */
  datatype LogType =
    | Notice
    | SystemError
    | ParameterError
    | IPFilterError
    | HostsError
    | NetworkError
    | PcapError
    | DNSCurveError
    | SocksError
    | HttpError
    | Unrecognized

  /** The process-wide settings the front-end reads: `Parameter.PrintLogLevel`,
      `Parameter.LogMaxSize`, `GlobalRunningStatus.IsConsole` (Windows) and
      `GlobalRunningStatus.IsDaemon` (Linux). */
  datatype Config = Config(
    build: Build,
    printLogLevel: nat,
    logMaxSize: nat,
    isConsole: bool,
    isDaemon: bool)

  /** Whether the screen sink is written. Windows asks `IsConsole`, Linux asks
      `!IsDaemon`; the macOS build has no guard at all, so it always prints. */
  predicate ScreenEnabled(cfg: Config)
  {
    match cfg.build.platform
    case Windows => cfg.isConsole
    case Linux => !cfg.isDaemon
    case MacOS => true
  }

  /** "Network unreachable" and "host unreachable": the WinSock codes on
      Windows, the `errno` values the POSIX builds map them to. */
  function NetUnreachable(p: Platform): int
  {
    match p
    case Windows => 10051
    case Linux => 101
    case MacOS => 51
  }

  function HostUnreachable(p: Platform): int
  {
    match p
    case Windows => 10065
    case Linux => 113
    case MacOS => 65
  }

  /** The broken-down local time (`tm`) that every written line is stamped
      with; its rendering is left to the printf-style writer. */
  datatype Clock = Clock(year: int, month: int, day: int, hour: int, minute: int, second: int)

  /** Which trailing numbers are handed to the printf-style writer together
      with a message, in the order the source passes them. */
  datatype Args =
    | NoArgs
    | CodeArg(code: int)
    | LineArg(line: nat)
    | CodeAndLineArgs(code: int, line: nat)

  /** One write to a sink: the start-up banner, the rotation notice, the
      time-stamp prefix, or a message format with its arguments. */
  datatype Entry =
    | StartedNotice(at: Clock)
    | DeletedNotice(at: Clock)
    | TimePrefix(at: Clock)
    | Formatted(format: string, args: Args)
}
