/**
 * The front half of `PrintError`: the level, message and file-name checks,
 * the category switch with its network-error suppression, and the assembly
 * of the line handed to the sinks.
 */
module Formatter {
  import opened Wrappers
  import opened LogTypes
  import opened FileNames
  import opened ErrorCodes

  /** What `PrintError` decides before any sink is touched: return false
      with no output, return true with no output, or write a line. */
  datatype Verdict = Rejected | Suppressed | Emit(line: string)

  /** The category switch: the tag of each category the build knows. The
      packet-capture and DNSCurve cases exist only when their features are
      compiled in; every other value hits `default`. */
  function Tag(b: Build, t: LogType): (tag: Option<string>)
    ensures tag.None? <==> (t == Unrecognized || (t == PcapError && !b.pcap) || (t == DNSCurveError && !b.libsodium))
    ensures tag.Some? ==> |tag.value| >= 3 && tag.value[0] == '[' && tag.value[|tag.value| - 2..] == "] "
  {
    match t
    case Notice => Some("[Notice] ")
    case SystemError => Some("[System Error] ")
    case ParameterError => Some("[Parameter Error] ")
    case IPFilterError => Some("[IPFilter Error] ")
    case HostsError => Some("[Hosts Error] ")
    case NetworkError => Some("[Network Error] ")
    case PcapError => if b.pcap then Some("[Pcap Error] ") else None
    case DNSCurveError => if b.libsodium then Some("[DNSCurve Error] ") else None
    case SocksError => Some("[SOCKS Error] ")
    case HttpError => Some("[HTTP Error] ")
    case Unrecognized => None
  }

  /** The checks made before anything is built: logging switched off, a level
      above the configured one, a null or empty message, an empty file name. */
  predicate Filtered(cfg: Config, level: nat, message: Option<string>, fileName: Option<string>)
  {
    || cfg.printLogLevel == LOG_LEVEL_0
    || level > cfg.printLogLevel
    || message.None?
    || message.value == []
    || fileName == Some([])
  }

  /** Transient unreachable-network errors are dropped below level 3. */
  predicate Unreachable(cfg: Config, t: LogType, code: int)
  {
    && t == NetworkError
    && cfg.printLogLevel < LOG_LEVEL_3
    && (code == NetUnreachable(cfg.build.platform) || code == HostUnreachable(cfg.build.platform))
  }

  /** Reference definition of the decision and of the line: tag, message,
      code suffix, location suffix and `".\n"`; a packet-capture line is the
      tag and the message only. */
  function Compose(
    cfg: Config, level: nat, t: LogType, message: Option<string>, code: int,
    fileName: Option<string>, line: nat, lookup: int -> Option<string>): Verdict
  {
    if Filtered(cfg, level, message, fileName) then Rejected
    else
      match Tag(cfg.build, t)
      case None => Rejected
      case Some(tag) =>
        if Unreachable(cfg, t, code) then Suppressed
        else if t == PcapError then Emit(tag + message.value)
        else
          var p := cfg.build.platform;
          Emit(WithErrorCode(p, code, tag + message.value, lookup)
               + LocationSuffix(p, fileName, line) + ".\n")
  }

  /** The `FileNameString` that `PrintError` builds for a non-empty file
      name: `" in "` and the name, the Windows collapse loop, then the line
      placeholder. */
  method BuildLocation(p: Platform, name: string, line: nat) returns (s: string)
    ensures s == LocationSuffix(p, Some(name), line)
    ensures |s| >= 4 && s[..4] == " in "
  {
    s := [];
    s := s + " in ";
    s := s + name;
    assert s == " in " + name;
    if p == Windows {
      s := CollapseDoubleBackslash(s);
      SqueezeAfterPlainPrefix(" in ", name);
    }
    if line > 0 {
      s := s + "(Line %u)";
    }
  }

  /** `PrintError` up to its call of `WriteScreenAndFile`, building the line
      by repeated appends as the source does. */
  method ComposeLine(
    cfg: Config, level: nat, t: LogType, message: Option<string>, code: int,
    fileName: Option<string>, line: nat, lookup: int -> Option<string>)
    returns (v: Verdict)
    ensures v == Compose(cfg, level, t, message, code, fileName, line, lookup)
  {
    if cfg.printLogLevel == LOG_LEVEL_0 || level > cfg.printLogLevel || message.None? {
      return Rejected;
    }
    var errorMessage := message.value;
    if errorMessage == [] {
      return Rejected;
    }
    errorMessage := [];

    var fileNameString: string := [];
    if fileName.Some? {
      fileNameString := fileNameString + fileName.value;
      if fileNameString == [] {
        return Rejected;
      }
      fileNameString := BuildLocation(cfg.build.platform, fileName.value, line);
    }
    assert fileNameString == LocationSuffix(cfg.build.platform, fileName, line);
    assert fileNameString == [] <==> fileName.None?;

    var tag := Tag(cfg.build, t);
    if tag.None? {
      return Rejected;
    }
    if t == NetworkError {
      var p := cfg.build.platform;
      if cfg.printLogLevel < LOG_LEVEL_3 && (code == NetUnreachable(p) || code == HostUnreachable(p)) {
        return Suppressed;
      }
    }
    errorMessage := errorMessage + tag.value;
    assert errorMessage == tag.value;
    if t == PcapError {
      errorMessage := errorMessage + message.value;
      return Emit(errorMessage);
    }

    errorMessage := errorMessage + message.value;
    assert errorMessage == tag.value + message.value;
    errorMessage := AppendDetails(cfg.build.platform, code, errorMessage, fileNameString, lookup);
    return Emit(errorMessage);
  }

  /** The end of `PrintError`'s line: the code suffix, the location suffix
      when there is one, and `".\n"`. */
  method AppendDetails(p: Platform, code: int, head: string, location: string, lookup: int -> Option<string>)
    returns (r: string)
    ensures r == WithErrorCode(p, code, head, lookup) + location + ".\n"
  {
    r := ErrorCodeToMessage(p, code, head, lookup);
    if location != [] {
      r := r + location;
    }
    r := r + ".\n";
  }

  /** The record is dropped with a false result exactly when a check fails
      or the category is not one the build knows. */
  lemma RejectedExactly(
    cfg: Config, level: nat, t: LogType, message: Option<string>, code: int,
    fileName: Option<string>, line: nat, lookup: int -> Option<string>)
    ensures Compose(cfg, level, t, message, code, fileName, line, lookup).Rejected?
      <==> Filtered(cfg, level, message, fileName) || Tag(cfg.build, t).None?
  {
  }

  /** The record is dropped with a true result exactly when it passes the
      checks and is an unreachable-network error below level 3. */
  lemma SuppressedExactly(
    cfg: Config, level: nat, t: LogType, message: Option<string>, code: int,
    fileName: Option<string>, line: nat, lookup: int -> Option<string>)
    ensures Compose(cfg, level, t, message, code, fileName, line, lookup).Suppressed?
      <==> !Filtered(cfg, level, message, fileName) && Unreachable(cfg, t, code)
  {
  }

  /** Shape of an emitted line. A packet-capture line is the tag and the
      message. Any other line is the tag, the message, the code suffix (which
      depends only on the code), the location suffix and `".\n"`. */
  lemma EmittedLineShape(
    cfg: Config, level: nat, t: LogType, message: Option<string>, code: int,
    fileName: Option<string>, line: nat, lookup: int -> Option<string>)
    requires Compose(cfg, level, t, message, code, fileName, line, lookup).Emit?
    ensures message.Some? && message.value != [] && Tag(cfg.build, t).Some?
    ensures var v := Compose(cfg, level, t, message, code, fileName, line, lookup).line;
      var head := Tag(cfg.build, t).value + message.value;
      var p := cfg.build.platform;
      && (t == PcapError ==> v == head)
      && (t != PcapError ==>
            v == head + WithErrorCode(p, code, [], lookup) + LocationSuffix(p, fileName, line) + ".\n")
      && (t != PcapError && code == 0 ==>
            v == head + LocationSuffix(p, fileName, line) + ".\n")
  {
    var head := Tag(cfg.build, t).value + message.value;
    if t != PcapError {
      WithErrorCodeIsSuffix(cfg.build.platform, code, head, lookup);
    }
  }

  lemma LocationInLine(head: string, c: string, loc: string, mid: string, lp: string)
    requires loc == " in " + mid + lp
    ensures head + c + loc + ".\n" == head + c + " in " + mid + lp + ".\n"
  {
  }

  /** On Windows an emitted line with a file name carries `" in "`, the name
      with every run of backslashes collapsed to one, and the line
      placeholder, right before `".\n"`; that part has no doubled backslash. */
  lemma WindowsLocationCollapsed(
    cfg: Config, level: nat, t: LogType, message: Option<string>, code: int,
    name: string, line: nat, lookup: int -> Option<string>)
    requires cfg.build.platform == Windows
    requires Compose(cfg, level, t, message, code, Some(name), line, lookup).Emit?
    requires t != PcapError
    ensures var v := Compose(cfg, level, t, message, code, Some(name), line, lookup).line;
      var head := Tag(cfg.build, t).value + message.value;
      && v == head + WithErrorCode(Windows, code, [], lookup)
              + " in " + Squeeze(name) + (if line > 0 then "(Line %u)" else "") + ".\n"
      && !HasDoubleBackslash(Squeeze(" in " + name))
      && Squeeze(" in " + name) == " in " + Squeeze(name)
  {
    EmittedLineShape(cfg, level, t, message, code, Some(name), line, lookup);
    LocationSuffixShape(Windows, name, line);
    SqueezeAfterPlainPrefix(" in ", name);
    LocationInLine(Tag(cfg.build, t).value + message.value, WithErrorCode(Windows, code, [], lookup),
                   LocationSuffix(Windows, Some(name), line), Squeeze(name),
                   if line > 0 then "(Line %u)" else "");
  }

  /** `PrintError(LOG_LEVEL_1, LOG_MESSAGE_NOTICE, L"Test", 0, nullptr, 0)`
      with logging on yields exactly `"[Notice] Test.\n"`. */
  lemma NoticeExample(cfg: Config, lookup: int -> Option<string>)
    requires cfg.printLogLevel >= LOG_LEVEL_1
    ensures Compose(cfg, LOG_LEVEL_1, Notice, Some("Test"), 0, None, 0, lookup) == Emit("[Notice] Test.\n")
  {
  }
}
