/**
 * The write path of the logging front-end: `WriteScreenAndFile` as a state
 * machine over the start-up time, the screen and the log file, `PrintError`
 * on top of it, and `ReadTextPrintLog`. The clock, `stat`, the deletion and
 * the opening of the file are inputs (`Env`); what the sinks receive is a
 * sequence of `Entry` values, the printf-style expansion being left out.
 */
module LogWriter {
  import opened Wrappers
  import opened LogTypes
  import opened Formatter

  /** What the outside world answers during one write: the local time
      (`localtime_s`/`localtime_r`, nothing on failure), the size `stat`
      reports for the log file (nothing when it fails), and whether deleting
      and opening the file succeed. */
  datatype Env = Env(clock: Option<Clock>, stat: Option<int>, deleteOk: bool, openOk: bool)

  /** `GlobalRunningStatus.StartupTime`, everything written to the screen,
      and the lines of the log file. */
  datatype LogState = LogState(startupTime: int, screen: seq<Entry>, file: seq<Entry>)

  /** The new state and the boolean the source returns. */
  datatype Outcome = Outcome(state: LogState, ok: bool)

  /** The banner is still owed. */
  function Pending(s: LogState): nat
  {
    if s.startupTime > 0 then 1 else 0
  }

  /** The trailing arguments passed with a message: the code and the line,
      each only when it is non-zero, in that order. */
  function Arity(code: int, line: nat): (a: Args)
    ensures (a.CodeArg? || a.CodeAndLineArgs?) <==> code != 0
    ensures (a.LineArg? || a.CodeAndLineArgs?) <==> line > 0
    ensures (a.CodeArg? || a.CodeAndLineArgs?) ==> a.code == code
    ensures (a.LineArg? || a.CodeAndLineArgs?) ==> a.line == line
  {
    if line > 0 && code != 0 then CodeAndLineArgs(code, line)
    else if line > 0 then LineArg(line)
    else if code != 0 then CodeArg(code)
    else NoArgs
  }

  /** The log file is deleted before the write when `stat` succeeds and the
      size has reached `LogMaxSize`; Windows also asks for a non-empty file. */
  predicate Rotates(cfg: Config, stat: Option<int>)
  {
    match stat
    case None => false
    case Some(size) => (cfg.build.platform == Windows ==> size > 0) && size >= cfg.logMaxSize
  }

  function Banner(pending: bool, t: Clock): seq<Entry>
  {
    if pending then [StartedNotice(t)] else []
  }

  function RotationNotice(deleted: bool, t: Clock): seq<Entry>
  {
    if deleted then [DeletedNotice(t)] else []
  }

  function MessageLines(t: Clock, message: string, code: int, line: nat): seq<Entry>
  {
    [TimePrefix(t), Formatted(message, Arity(code, line))]
  }

  /** Reference definition of `WriteScreenAndFile`. */
  function Write(cfg: Config, s: LogState, message: string, code: int, line: nat, env: Env): (r: Outcome)
    ensures r.ok <==> env.clock.Some? && (Rotates(cfg, env.stat) ==> env.deleteOk) && env.openOk
    ensures env.clock.None? ==> r.state == s
    ensures env.clock.Some? ==> r.state.startupTime == (if s.startupTime > 0 then 0 else s.startupTime)
    ensures env.clock.Some? && Rotates(cfg, env.stat) && !env.deleteOk ==> r.state.file == s.file
  {
    match env.clock
    case None => Outcome(s, false)
    case Some(t) =>
      var pending := s.startupTime > 0;
      var screen :=
        if ScreenEnabled(cfg) then s.screen + Banner(pending, t) + MessageLines(t, message, code, line)
        else s.screen;
      var consumed := LogState(if pending then 0 else s.startupTime, screen, s.file);
      var deleted := Rotates(cfg, env.stat);
      if deleted && !env.deleteOk then Outcome(consumed, false)
      else
        var kept := if deleted then [] else s.file;
        if !env.openOk then Outcome(consumed.(file := kept), false)
        else
          Outcome(consumed.(file := kept + Banner(pending, t) + RotationNotice(deleted, t)
                                    + MessageLines(t, message, code, line)), true)
  }

  /** Reference definition of `PrintError`: compose, then write. */
  function PrintErrorSpec(
    cfg: Config, s: LogState, level: nat, t: LogType, message: Option<string>, code: int,
    fileName: Option<string>, line: nat, lookup: int -> Option<string>, env: Env): Outcome
  {
    match Compose(cfg, level, t, message, code, fileName, line, lookup)
    case Rejected => Outcome(s, false)
    case Suppressed => Outcome(s, true)
    case Emit(text) => Write(cfg, s, text, code, line, env)
  }

  /** The sources `ReadTextPrintLog` reports for: hosts files, IP filter
      files, configuration files (read normally or in monitor mode). */
  datatype ReadSource = ReadHosts | ReadIPFilter | ReadParameter | ReadParameterMonitor | ReadOther

  /** `FileList_Hosts`, `FileList_IPFilter` and `FileList_Config`, as the
      file names they hold. */
  datatype FileLists = FileLists(hosts: seq<string>, ipFilter: seq<string>, config: seq<string>)

  /** What `ReadTextPrintLog` asks of `PrintError`: nothing, a failed
      `at()` (it throws `std::out_of_range`), or a record. */
  datatype ReadRequest = NoRequest | IndexOutOfRange | Request(logType: LogType, fileName: string)

  /** What a call of `ReadTextPrintLog` came to. */
  datatype ReadOutcome = Ignored | OutOfRangeThrown | Printed(ok: bool)

  const LINE_TOO_SHORT: string := "Data of a line is too short"

  function FileListOf(source: ReadSource, lists: FileLists): seq<string>
  {
    match source
    case ReadHosts => lists.hosts
    case ReadIPFilter => lists.ipFilter
    case ReadParameter => lists.config
    case ReadParameterMonitor => lists.config
    case ReadOther => []
  }

  function ReadLogType(source: ReadSource): LogType
  {
    match source
    case ReadHosts => HostsError
    case ReadIPFilter => IPFilterError
    case ReadParameter => ParameterError
    case ReadParameterMonitor => ParameterError
    case ReadOther => Unrecognized
  }

  /** The dispatch of `ReadTextPrintLog`: an unknown source does nothing, an
      index past its file list throws, any other call reports the file the
      index names under the source's category. */
  function ReadTextRequest(source: ReadSource, fileIndex: nat, lists: FileLists): (r: ReadRequest)
    ensures r.NoRequest? <==> source == ReadOther
    ensures r.IndexOutOfRange? <==> source != ReadOther && fileIndex >= |FileListOf(source, lists)|
    ensures r.Request? ==>
      && fileIndex < |FileListOf(source, lists)|
      && r.fileName == FileListOf(source, lists)[fileIndex]
      && r.logType == ReadLogType(source)
      && r.logType in {HostsError, IPFilterError, ParameterError}
  {
    if source == ReadOther then NoRequest
    else
      var files := FileListOf(source, lists);
      if fileIndex < |files| then Request(ReadLogType(source), files[fileIndex])
      else IndexOutOfRange
  }

  /** The logger's process-wide state and its three entry points. */
  class Logger {
    const cfg: Config
    var startupTime: int
    var screen: seq<Entry>
    var file: seq<Entry>

    function State(): LogState
      reads this
    {
      LogState(startupTime, screen, file)
    }

    /** A process that recorded its start-up time and finds `file` already
        in its log. */
    constructor (cfg: Config, startupTime: int, file: seq<Entry>)
      ensures this.cfg == cfg
      ensures State() == LogState(startupTime, [], file)
    {
      this.cfg := cfg;
      this.startupTime := startupTime;
      this.screen := [];
      this.file := file;
    }

    /** `WriteScreenAndFile`: read the clock, take the start-up time once,
        write the screen, rotate the file, then append to it in a fixed
        order. */
    method WriteScreenAndFile(message: string, code: int, line: nat, env: Env) returns (ok: bool)
      modifies this
      ensures Outcome(State(), ok) == Write(cfg, old(State()), message, code, line, env)
    {
      if env.clock.None? {
        return false;
      }
      var t := env.clock.value;

      var logStartupTime := 0;
      if startupTime > 0 {
        logStartupTime := startupTime;
        startupTime := 0;
      }

      if ScreenEnabled(cfg) {
        if logStartupTime > 0 {
          screen := screen + [StartedNotice(t)];
        }
        screen := screen + [TimePrefix(t)];
        screen := screen + [Formatted(message, Arity(code, line))];
      }

      var isFileDeleted := false;
      if Rotates(cfg, env.stat) {
        if env.deleteOk {
          file := [];
          isFileDeleted := true;
        } else {
          return false;
        }
      }

      if env.openOk {
        if logStartupTime > 0 {
          file := file + [StartedNotice(t)];
        }
        if isFileDeleted {
          file := file + [DeletedNotice(t)];
        }
        file := file + [TimePrefix(t)];
        file := file + [Formatted(message, Arity(code, line))];
      } else {
        return false;
      }
      return true;
    }

    /** `PrintError`: decide, build the line, and hand it to the sinks. */
    method PrintError(
      level: nat, t: LogType, message: Option<string>, code: int,
      fileName: Option<string>, line: nat, lookup: int -> Option<string>, env: Env)
      returns (ok: bool)
      modifies this
      ensures Outcome(State(), ok)
        == PrintErrorSpec(cfg, old(State()), level, t, message, code, fileName, line, lookup, env)
    {
      var v := ComposeLine(cfg, level, t, message, code, fileName, line, lookup);
      match v
      case Rejected => ok := false;
      case Suppressed => ok := true;
      case Emit(text) => ok := WriteScreenAndFile(text, code, line, env);
    }

    /** `ReadTextPrintLog`: a "line too short" record at level 2 with no
        code, naming the file the index selects. */
    method ReadTextPrintLog(
      source: ReadSource, fileIndex: nat, line: nat, lists: FileLists,
      lookup: int -> Option<string>, env: Env)
      returns (outcome: ReadOutcome)
      modifies this
      ensures match ReadTextRequest(source, fileIndex, lists)
        case NoRequest => outcome == Ignored && State() == old(State())
        case IndexOutOfRange => outcome == OutOfRangeThrown && State() == old(State())
        case Request(lt, name) =>
          outcome.Printed? &&
          Outcome(State(), outcome.ok)
            == PrintErrorSpec(cfg, old(State()), LOG_LEVEL_2, lt, Some(LINE_TOO_SHORT), 0,
                              Some(name), line, lookup, env)
    {
      var request := ReadTextRequest(source, fileIndex, lists);
      match request
      case NoRequest => outcome := Ignored;
      case IndexOutOfRange => outcome := OutOfRangeThrown;
      case Request(lt, name) =>
        var ok := PrintError(LOG_LEVEL_2, lt, Some(LINE_TOO_SHORT), 0, Some(name), line, lookup, env);
        outcome := Printed(ok);
    }
  }
}
