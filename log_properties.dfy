/**
 * Properties of the write path: the start-up banner is written at most once
 * per sink over any sequence of `PrintError` calls, deletion failure stops
 * the file write, the file receives its lines in a fixed order, and both
 * sinks get the same message and arguments.
 */
module LogProperties {
  import opened Wrappers
  import opened LogTypes
  import opened FileNames
  import opened Formatter
  import opened LogWriter

  /** Number of start-up banners among some written entries. */
  function Banners(lines: seq<Entry>): nat
  {
    if lines == [] then 0
    else (if lines[0].StartedNotice? then 1 else 0) + Banners(lines[1..])
  }

  lemma {:induction false} BannersAppend(a: seq<Entry>, b: seq<Entry>)
    ensures Banners(a + b) == Banners(a) + Banners(b)
  {
    if a == [] {
      assert a + b == b;
    } else {
      assert (a + b)[0] == a[0];
      assert (a + b)[1..] == a[1..] + b;
      BannersAppend(a[1..], b);
    }
  }

  lemma BannersOfLines(pending: bool, deleted: bool, t: Clock, message: string, code: int, line: nat)
    ensures Banners(Banner(pending, t)) == (if pending then 1 else 0)
    ensures Banners(RotationNotice(deleted, t)) == 0
    ensures Banners(MessageLines(t, message, code, line)) == 0
  {
    var m := MessageLines(t, message, code, line);
    assert m[1..][1..] == [];
    if deleted {
      assert RotationNotice(deleted, t)[1..] == [];
    }
    if pending {
      assert Banner(pending, t)[1..] == [];
    }
  }

  /** Banners of a block appended after `prefix`. */
  lemma BannersAfter(prefix: seq<Entry>, pending: bool, deleted: bool, t: Clock, message: string, code: int, line: nat)
    ensures Banners(prefix + Banner(pending, t) + RotationNotice(deleted, t) + MessageLines(t, message, code, line))
         == Banners(prefix) + (if pending then 1 else 0)
    ensures Banners(prefix + Banner(pending, t) + MessageLines(t, message, code, line))
         == Banners(prefix) + (if pending then 1 else 0)
  {
    var b := Banner(pending, t);
    var n := RotationNotice(deleted, t);
    var m := MessageLines(t, message, code, line);
    BannersOfLines(pending, deleted, t, message, code, line);
    BannersAppend(prefix + b + n, m);
    BannersAppend(prefix + b, n);
    BannersAppend(prefix, b);
    BannersAppend(prefix + b, m);
  }

  /** One write keeps the screen as a prefix and pays for every banner it
      writes on a sink with the pending start-up time. */
  lemma WriteBannerBudget(cfg: Config, s: LogState, message: string, code: int, line: nat, env: Env)
    ensures var r := Write(cfg, s, message, code, line, env).state;
      && |s.screen| <= |r.screen| && r.screen[..|s.screen|] == s.screen
      && Pending(r) <= Pending(s)
      && Banners(r.screen) + Pending(r) <= Banners(s.screen) + Pending(s)
      && Banners(r.file) + Pending(r) <= Banners(s.file) + Pending(s)
  {
    if env.clock.Some? {
      var t := env.clock.value;
      var pending := s.startupTime > 0;
      var deleted := Rotates(cfg, env.stat);
      BannersAfter(s.screen, pending, deleted, t, message, code, line);
      BannersAfter([], pending, deleted, t, message, code, line);
      BannersAfter(s.file, pending, deleted, t, message, code, line);
      assert [] + Banner(pending, t) == Banner(pending, t);
    }
  }

  /** One call of `PrintError`, recorded for a run. */
  datatype Call = Call(
    level: nat, logType: LogType, message: Option<string>, code: int,
    fileName: Option<string>, line: nat, env: Env)

  function Step(cfg: Config, s: LogState, c: Call, lookup: int -> Option<string>): LogState
  {
    PrintErrorSpec(cfg, s, c.level, c.logType, c.message, c.code, c.fileName, c.line, lookup, c.env).state
  }

  /** The state after a sequence of `PrintError` calls. */
  function Run(cfg: Config, s: LogState, calls: seq<Call>, lookup: int -> Option<string>): LogState
    decreases |calls|
  {
    if calls == [] then s else Run(cfg, Step(cfg, s, calls[0], lookup), calls[1..], lookup)
  }

  lemma {:induction false} RunBannerBudget(cfg: Config, s: LogState, calls: seq<Call>, lookup: int -> Option<string>)
    ensures var r := Run(cfg, s, calls, lookup);
      && |s.screen| <= |r.screen| && r.screen[..|s.screen|] == s.screen
      && Pending(r) <= Pending(s)
      && Banners(r.screen) + Pending(r) <= Banners(s.screen) + Pending(s)
      && Banners(r.file) + Pending(r) <= Banners(s.file) + Pending(s)
    decreases |calls|
  {
    if calls != [] {
      var c := calls[0];
      var s1 := Step(cfg, s, c, lookup);
      match Compose(cfg, c.level, c.logType, c.message, c.code, c.fileName, c.line, lookup) {
        case Rejected =>
        case Suppressed =>
        case Emit(text) => WriteBannerBudget(cfg, s, text, c.code, c.line, c.env);
      }
      RunBannerBudget(cfg, s1, calls[1..], lookup);
    }
  }

  /** However many calls are made, the screen gains at most one start-up
      banner, and none when the start-up time was already taken; the file
      never holds more banners than it started with plus one. */
  lemma BannerAtMostOnce(cfg: Config, s: LogState, calls: seq<Call>, lookup: int -> Option<string>)
    ensures var r := Run(cfg, s, calls, lookup);
      && |s.screen| <= |r.screen| && r.screen[..|s.screen|] == s.screen
      && Banners(r.screen[|s.screen|..]) <= Pending(s)
      && Banners(r.file) <= Banners(s.file) + Pending(s)
  {
    var r := Run(cfg, s, calls, lookup);
    RunBannerBudget(cfg, s, calls, lookup);
    assert r.screen == s.screen + r.screen[|s.screen|..];
    BannersAppend(s.screen, r.screen[|s.screen|..]);
  }

  /** Once a write has read the clock, the start-up time is spent: a second
      write adds no banner to either sink. */
  lemma StartupTakenOnce(
    cfg: Config, s: LogState, m1: string, code1: int, line1: nat, env1: Env,
    m2: string, code2: int, line2: nat, env2: Env)
    requires s.startupTime >= 0 && env1.clock.Some?
    ensures var s1 := Write(cfg, s, m1, code1, line1, env1).state;
      var s2 := Write(cfg, s1, m2, code2, line2, env2).state;
      && s1.startupTime == 0
      && Banners(s2.screen) == Banners(s1.screen)
      && Banners(s2.file) <= Banners(s1.file)
  {
    var s1 := Write(cfg, s, m1, code1, line1, env1).state;
    var s2 := Write(cfg, s1, m2, code2, line2, env2).state;
    WriteBannerBudget(cfg, s1, m2, code2, line2, env2);
    assert s2.screen == s1.screen + s2.screen[|s1.screen|..];
    BannersAppend(s1.screen, s2.screen[|s1.screen|..]);
  }

  /** What one write adds to each sink. The screen gains the banner (only
      when the start-up time was set), the time stamp and the message. A
      successful file write appends to the file as it was (or to an empty
      file after a rotation) the banner, the deletion notice, the time stamp
      and the message, in that order. */
  lemma BannerOnlyWhenStartupSet(cfg: Config, s: LogState, message: string, code: int, line: nat, env: Env)
    requires env.clock.Some?
    ensures var r := Write(cfg, s, message, code, line, env);
      var t := env.clock.value;
      && (ScreenEnabled(cfg) ==> r.state.screen[|s.screen|..] == Banner(s.startupTime > 0, t) + MessageLines(t, message, code, line))
      && (!ScreenEnabled(cfg) ==> r.state.screen == s.screen)
      && (r.ok ==> r.state.file
                   == (if Rotates(cfg, env.stat) then [] else s.file)
                      + Banner(s.startupTime > 0, t) + RotationNotice(Rotates(cfg, env.stat), t)
                      + MessageLines(t, message, code, line))
  {
    var r := Write(cfg, s, message, code, line, env);
    var t := env.clock.value;
    var b := Banner(s.startupTime > 0, t);
    var n := RotationNotice(Rotates(cfg, env.stat), t);
    var m := MessageLines(t, message, code, line);
    if ScreenEnabled(cfg) {
      assert r.state.screen == s.screen + (b + m);
    }
    if r.ok {
      var kept := if Rotates(cfg, env.stat) then [] else s.file;
      assert r.state.file == kept + (b + n + m);
    }
  }

  /** A failed deletion returns false before the file is opened: the file is
      as it was and nothing is appended to it. */
  lemma DeleteFailureWritesNoFile(cfg: Config, s: LogState, message: string, code: int, line: nat, env: Env)
    requires env.clock.Some? && Rotates(cfg, env.stat) && !env.deleteOk
    ensures var r := Write(cfg, s, message, code, line, env);
      !r.ok && r.state.file == s.file
  {
  }

  /** After a rotation the file holds only this write: the optional banner,
      the "old log file was deleted" notice, the time stamp and the message. */
  lemma RotatedFileStartsFresh(cfg: Config, s: LogState, message: string, code: int, line: nat, env: Env)
    requires env.clock.Some? && Rotates(cfg, env.stat) && env.deleteOk && env.openOk
    ensures var t := env.clock.value;
      Write(cfg, s, message, code, line, env).state.file
        == Banner(s.startupTime > 0, t)
           + [DeletedNotice(t), TimePrefix(t), Formatted(message, Arity(code, line))]
  {
  }

  /** The screen does not depend on what happens to the file, and both sinks
      end with the same message and the same arguments. */
  lemma SinksAgree(cfg: Config, s: LogState, message: string, code: int, line: nat, env: Env, other: Env)
    requires env.clock.Some? && other.clock == env.clock
    ensures Write(cfg, s, message, code, line, env).state.screen
         == Write(cfg, s, message, code, line, other).state.screen
    ensures var r := Write(cfg, s, message, code, line, env);
      r.ok && ScreenEnabled(cfg) ==>
        r.state.screen[|r.state.screen| - 1] == r.state.file[|r.state.file| - 1]
          == Formatted(message, Arity(code, line))
  {
  }

  /** `PrintError` leaves every sink alone when it rejects or suppresses. */
  lemma NoOutputWithoutEmit(
    cfg: Config, s: LogState, level: nat, t: LogType, message: Option<string>, code: int,
    fileName: Option<string>, line: nat, lookup: int -> Option<string>, env: Env)
    ensures var v := Compose(cfg, level, t, message, code, fileName, line, lookup);
      var r := PrintErrorSpec(cfg, s, level, t, message, code, fileName, line, lookup, env);
      && (v.Rejected? ==> r == Outcome(s, false))
      && (v.Suppressed? ==> r == Outcome(s, true))
  {
  }

  /** A "line too short" report writes nothing and returns false below
      level 2 or for an empty file name. Otherwise it writes the tag, "Data of
      a line is too short", the location suffix (the name, collapsed on
      Windows, and `"(Line %u)"` only when the line is positive) and `".\n"`,
      with code 0, so the line is its only argument when it is positive. */
  lemma ReadTextLine(cfg: Config, s: LogState, source: ReadSource, fileIndex: nat, line: nat,
                     lists: FileLists, lookup: int -> Option<string>, env: Env)
    requires ReadTextRequest(source, fileIndex, lists).Request?
    ensures var req := ReadTextRequest(source, fileIndex, lists);
      var r := PrintErrorSpec(cfg, s, LOG_LEVEL_2, req.logType, Some(LINE_TOO_SHORT), 0,
                              Some(req.fileName), line, lookup, env);
      && (cfg.printLogLevel < LOG_LEVEL_2 || req.fileName == [] ==> r == Outcome(s, false))
      && (cfg.printLogLevel >= LOG_LEVEL_2 && req.fileName != [] ==>
            r == Write(cfg, s,
                       Tag(cfg.build, req.logType).value + LINE_TOO_SHORT
                         + LocationSuffix(cfg.build.platform, Some(req.fileName), line) + ".\n",
                       0, line, env))
  {
    var req := ReadTextRequest(source, fileIndex, lists);
    if cfg.printLogLevel >= LOG_LEVEL_2 && req.fileName != [] {
      EmittedLineShape(cfg, LOG_LEVEL_2, req.logType, Some(LINE_TOO_SHORT), 0,
                       Some(req.fileName), line, lookup);
    }
  }
}
