/** Loggers and their reconfiguration by the listener of the `logs` variable. */
module LogConfig {
  import opened Tasks
  import opened Formatting

  const DELETED_LEVEL := 100

  const DEFAULT_PATTERN := "%d{%Y-%m-%d %H:%M:%S}%T%t%T%N%T%F%T[%p]%T[%c]%T%f:%l%T%m%n"

  const DEBUG := 1

  datatype Kind = FileAppender(file: string) | StdoutAppender

  /** `LogAppenderDefine`, of the two types that the configuration admits; an empty formatter is none. */
  datatype AppenderDefine = AppenderDefine(kind: Kind, level: int, formatter: string)

  /** `LogDefine`, without the name, by which the set is ordered. */
  datatype LogDefine = LogDefine(level: int, formatter: string, appenders: seq<AppenderDefine>)

  type Config = map<string, LogDefine>

  /** An appender, with the pattern of its formatter; without `hasFormatter` the formatter comes from the logger. */
  datatype Appender = Appender(kind: Kind, level: int, formatter: Option<string>, hasFormatter: bool)

  datatype LoggerView = LoggerView(level: int, formatter: string, appenders: seq<Appender>)

  /** A logger that has just been created. */
  const CREATED := LoggerView(DEBUG, DEFAULT_PATTERN, [])

  /** The root logger at the start. */
  const ROOT := CREATED.(appenders := [Appender(StdoutAppender, DEBUG, Some(DEFAULT_PATTERN), false)])

  // ----- The effect on one logger -----

  /** The pattern is given, and the scanner accepts it. */
  ghost predicate Usable(pattern: string) {
    pattern != "" && !IsError(pattern)
  }

  ghost function Adopt(formatter: string, pattern: string): string {
    if Usable(pattern) then pattern else formatter
  }

  /** The appender that a definition gives to a logger with this formatter. */
  ghost function Made(d: AppenderDefine, formatter: string): Appender {
    if Usable(d.formatter) then Appender(d.kind, d.level, Some(d.formatter), true)
    else Appender(d.kind, d.level, Some(formatter), false)
  }

  ghost function MadeAll(ds: seq<AppenderDefine>, formatter: string): seq<Appender> {
    seq(|ds|, i requires 0 <= i < |ds| => Made(ds[i], formatter))
  }

  ghost function Configured(v: LoggerView, d: LogDefine): LoggerView {
    var formatter := Adopt(v.formatter, d.formatter);
    LoggerView(d.level, formatter, MadeAll(d.appenders, formatter))
  }

  ghost function Retired(v: LoggerView): LoggerView {
    v.(level := DELETED_LEVEL, appenders := [])
  }

  function OrCreated(v: Option<LoggerView>): LoggerView {
    if v.Some? then v.value else CREATED
  }

  /** What one notification does to the logger of a name. */
  ghost function Notified(v: Option<LoggerView>, name: string, before: Config, after: Config): Option<LoggerView> {
    if name in after then
      if name in before && before[name] == after[name] then v else Some(Configured(OrCreated(v), after[name]))
    else if name in before then Some(Retired(OrCreated(v)))
    else v
  }

  // ----- Objects -----

  class Logger {
    const m_name: string
    var m_level: int
    var m_formatter: string
    var m_appenders: seq<Appender>

    constructor (name: string)
      ensures m_name == name && View() == CREATED
    {
      m_name, m_level, m_formatter, m_appenders := name, DEBUG, DEFAULT_PATTERN, [];
    }

    function View(): LoggerView
      reads this
    {
      LoggerView(m_level, m_formatter, m_appenders)
    }

    /** The logger has this pattern, and so has each of the appenders `before` without a formatter of its own. */
    predicate FormattedBy(pattern: string, before: seq<Appender>)
      reads this
    {
      && m_formatter == pattern && |m_appenders| == |before|
      && forall i | 0 <= i < |before| ::
           m_appenders[i] == if before[i].hasFormatter then before[i] else before[i].(formatter := Some(pattern))
    }

    method SetLevel(level: int)
      modifies this
      ensures View() == old(View()).(level := level)
    {
      m_level := level;
    }

    /** The formatter goes to the appenders that have none of their own. */
    method SetFormatter(pattern: string)
      modifies this
      ensures m_level == old(m_level) && FormattedBy(pattern, old(m_appenders))
    {
      m_formatter := pattern;
      for i := 0 to |m_appenders|
        invariant m_level == old(m_level) && m_formatter == pattern && |m_appenders| == |old(m_appenders)|
        invariant forall j | 0 <= j < |m_appenders| ::
          m_appenders[j] == if j >= i || old(m_appenders)[j].hasFormatter then old(m_appenders)[j]
                            else old(m_appenders)[j].(formatter := Some(pattern))
      {
        if !m_appenders[i].hasFormatter {
          m_appenders := m_appenders[i := m_appenders[i].(formatter := Some(pattern))];
        }
      }
    }

    /** A pattern with an error leaves the logger as it is. */
    method SetPattern(pattern: string)
      modifies this
      ensures IsError(pattern) ==> View() == old(View())
      ensures !IsError(pattern) ==> m_level == old(m_level) && FormattedBy(pattern, old(m_appenders))
    {
      var formatter := new LogFormatter(pattern);
      if formatter.m_error {
        return;
      }
      SetFormatter(pattern);
    }

    /** An appender without a formatter gets the logger's. */
    method AddAppender(appender: Appender)
      modifies this
      ensures
        var a := if appender.formatter.None? then appender.(formatter := Some(old(m_formatter))) else appender;
        View() == old(View()).(appenders := old(m_appenders) + [a])
    {
      var a := appender;
      if a.formatter.None? {
        a := a.(formatter := Some(m_formatter));
      }
      m_appenders := m_appenders + [a];
    }

    method ClearAppenders()
      modifies this
      ensures View() == old(View()).(appenders := [])
    {
      m_appenders := [];
    }

    /** One appender of a definition. */
    method AddDefined(d: AppenderDefine)
      modifies this
      ensures View() == old(View()).(appenders := old(m_appenders) + [Made(d, old(m_formatter))])
    {
      var ap := Appender(d.kind, d.level, None, false);
      if d.formatter != "" {
        var fmt := new LogFormatter(d.formatter);
        if !fmt.m_error {
          ap := ap.(formatter := Some(d.formatter), hasFormatter := true);
        }
      }
      AddAppender(ap);
    }

    /** What the listener does to the logger of a new or changed definition. */
    method Define(d: LogDefine)
      modifies this
      ensures View() == Configured(old(View()), d)
    {
      SetLevel(d.level);
      if d.formatter != "" {
        SetPattern(d.formatter);
      }
      ClearAppenders();
      ghost var formatter := m_formatter;
      for i := 0 to |d.appenders|
        invariant m_level == d.level && m_formatter == formatter
        invariant m_appenders == MadeAll(d.appenders[..i], formatter)
      {
        AddDefined(d.appenders[i]);
      }
      assert d.appenders[..|d.appenders|] == d.appenders;
    }

    /** What the listener does to the logger of a definition that has gone. */
    method Retire()
      modifies this
      ensures View() == Retired(old(View()))
    {
      SetLevel(DELETED_LEVEL);
      ClearAppenders();
    }
  }

  class LoggerManager {
    var m_loggers: map<string, Logger>

    /** No two names share a logger. */
    ghost predicate Valid()
      reads this
    {
      forall a, b | a in m_loggers && b in m_loggers && a != b :: m_loggers[a] != m_loggers[b]
    }

    ghost function Look(name: string): Option<LoggerView>
      reads this, m_loggers.Values
    {
      if name in m_loggers then Some(m_loggers[name].View()) else None
    }

    /** The root logger, with an appender for the standard output. */
    constructor ()
      ensures Valid() && fresh(m_loggers.Values)
      ensures m_loggers.Keys == {"root"}
      ensures forall n :: Look(n) == if n == "root" then Some(ROOT) else None
    {
      var root := new Logger("root");
      m_loggers := map["root" := root];
      new;
      root.AddAppender(Appender(StdoutAppender, DEBUG, None, false));
      assert m_loggers.Keys == {"root"} && m_loggers["root"] == root;
      assert m_loggers.Values <= {root};
      assert root.View() == ROOT;
    }

    method GetLogger(name: string) returns (logger: Logger)
      requires Valid()
      modifies this
      ensures Valid() && name in m_loggers && m_loggers[name] == logger && m_loggers == old(m_loggers)[name := logger]
      ensures if name in old(m_loggers) then logger == old(m_loggers)[name]
              else fresh(logger) && logger.View() == CREATED
    {
      if name in m_loggers {
        return m_loggers[name];
      }
      logger := new Logger(name);
      m_loggers := m_loggers[name := logger];
    }

    method DefineLogger(name: string, d: LogDefine)
      requires Valid()
      modifies this, m_loggers.Values
      ensures Valid() && fresh(m_loggers.Values - old(m_loggers.Values))
      ensures forall n :: Look(n) == if n == name then Some(Configured(OrCreated(old(Look(name))), d)) else old(Look(n))
    {
      var logger := GetLogger(name);
      logger.Define(d);
    }

    method RetireLogger(name: string)
      requires Valid()
      modifies this, m_loggers.Values
      ensures Valid() && fresh(m_loggers.Values - old(m_loggers.Values))
      ensures forall n :: Look(n) == if n == name then Some(Retired(OrCreated(old(Look(name))))) else old(Look(n))
    {
      var logger := GetLogger(name);
      logger.Retire();
    }

    /** The first loop of the listener: definitions that are new or have changed. */
    method DefineAll(before: Config, after: Config)
      requires Valid()
      modifies this, m_loggers.Values
      ensures Valid() && fresh(m_loggers.Values - old(m_loggers.Values))
      ensures forall n :: Look(n) == if n in after then Notified(old(Look(n)), n, before, after) else old(Look(n))
    {
      var todo := after.Keys;
      while todo != {}
        invariant Valid() && fresh(m_loggers.Values - old(m_loggers.Values)) && todo <= after.Keys
        invariant forall n ::
                    Look(n) ==
                    if n in after && n !in todo then Notified(old(Look(n)), n, before, after) else old(Look(n))
        decreases |todo|
      {
        var name :| name in todo;
        todo := todo - {name};
        if name in before && before[name] == after[name] {
          continue;
        }
        DefineLogger(name, after[name]);
      }
    }

    /** The second loop: definitions that have gone. */
    method RetireAll(before: Config, after: Config)
      requires Valid()
      modifies this, m_loggers.Values
      ensures Valid() && fresh(m_loggers.Values - old(m_loggers.Values))
      ensures forall n ::
                Look(n) == if n in before && n !in after then Some(Retired(OrCreated(old(Look(n))))) else old(Look(n))
    {
      var todo := before.Keys;
      while todo != {}
        invariant Valid() && fresh(m_loggers.Values - old(m_loggers.Values)) && todo <= before.Keys
        invariant forall n | n in before && n !in todo && n !in after ::
                  Look(n) == Some(Retired(OrCreated(old(Look(n)))))
        invariant forall n | n !in before || n in todo || n in after :: Look(n) == old(Look(n))
        decreases |todo|
      {
        var name :| name in todo;
        todo := todo - {name};
        if name !in after {
          RetireLogger(name);
        }
      }
    }

    /** The listener. */
    method OnChange(before: Config, after: Config)
      requires Valid()
      modifies this, m_loggers.Values
      ensures Valid() && fresh(m_loggers.Values - old(m_loggers.Values))
      ensures forall n :: Look(n) == Notified(old(Look(n)), n, before, after)
    {
      DefineAll(before, after);
      RetireAll(before, after);
    }
  }

  /** `ConfigVar::setValue`, with the listener of the loggers. */
  class LogsVar {
    var m_val: Config
    const manager: LoggerManager

    constructor (manager: LoggerManager)
      ensures m_val == map[] && this.manager == manager
    {
      m_val := map[];
      this.manager := manager;
    }

    method SetValue(v: Config)
      requires manager.Valid()
      modifies this`m_val, manager, manager.m_loggers.Values
      ensures manager.Valid() && m_val == v && fresh(manager.m_loggers.Values - old(manager.m_loggers.Values))
      ensures forall n :: manager.Look(n) == Notified(old(manager.Look(n)), n, old(m_val), v)
    {
      if v == m_val {
        return;
      }
      manager.OnChange(m_val, v);
      m_val := v;
    }

    /** One update after the other. */
    method SetValues(cs: seq<Config>)
      requires manager.Valid()
      modifies this`m_val, manager, manager.m_loggers.Values
      ensures manager.Valid() && m_val == Last(old(m_val), cs)
      ensures forall n :: manager.Look(n) == Evolved(old(manager.Look(n)), n, old(m_val), cs)
    {
      assert cs[0..] == cs;
      for i := 0 to |cs|
        invariant manager.Valid() && fresh(manager.m_loggers.Values - old(manager.m_loggers.Values))
        invariant Last(m_val, cs[i..]) == Last(old(m_val), cs)
        invariant forall n ::
                    Evolved(manager.Look(n), n, m_val, cs[i..]) == Evolved(old(manager.Look(n)), n, old(m_val), cs)
      {
        assert cs[i..][0] == cs[i] && cs[i..][1..] == cs[i + 1..];
        SetValue(cs[i]);
      }
    }
  }

  // ----- Sequences of updates -----

  /** A logger after a sequence of updates. */
  ghost function Evolved(v: Option<LoggerView>, name: string, current: Config, cs: seq<Config>): Option<LoggerView>
    decreases |cs|
  {
    if cs == [] then v else Evolved(Notified(v, name, current, cs[0]), name, cs[0], cs[1..])
  }

  function Last(current: Config, cs: seq<Config>): Config
    decreases |cs|
  {
    if cs == [] then current else Last(cs[0], cs[1..])
  }

  predicate Mentioned(name: string, cs: seq<Config>) {
    exists i | 0 <= i < |cs| :: name in cs[i]
  }

  /** The logger as the last configuration alone would make it, from a new one. */
  ghost function FromScratch(d: LogDefine): LoggerView {
    Configured(CREATED, d)
  }

  /** The same appender, up to a formatter that only comes from the logger. */
  predicate SameAppender(a: Appender, b: Appender) {
    a.kind == b.kind && a.level == b.level && a.hasFormatter == b.hasFormatter
      && (a.hasFormatter ==> a.formatter == b.formatter)
  }

  /**
    * The appender that a definition describes: its kind and level, and its own formatter where its pattern is usable.
    */
  ghost predicate AsDefined(a: Appender, d: AppenderDefine) {
    && a.kind == d.kind && a.level == d.level && a.formatter.Some?
    && (a.hasFormatter <==> Usable(d.formatter)) && (a.hasFormatter ==> a.formatter == Some(d.formatter))
  }

  /** The level and the appenders of a logger follow a definition. */
  ghost predicate Follows(v: Option<LoggerView>, d: LogDefine) {
    && v.Some? && v.value.level == d.level
    && v.value.appenders == MadeAll(d.appenders, v.value.formatter)
    && (Usable(d.formatter) ==> v.value.formatter == d.formatter)
  }

  ghost predicate Emptied(v: Option<LoggerView>) {
    v.Some? && v.value.level == DELETED_LEVEL && v.value.appenders == []
  }

  /** What holds of a logger while the current configuration is `current`. */
  ghost predicate UpToDate(start: Option<LoggerView>, v: Option<LoggerView>, name: string, current: Config,
                           mentioned: bool) {
    if name in current then mentioned && Follows(v, current[name])
    else if mentioned then Emptied(v)
    else v == start
  }

  lemma {:induction false} EvolvedIsUpToDate(start: Option<LoggerView>, v: Option<LoggerView>, name: string,
                                             current: Config, mentioned: bool, cs: seq<Config>)
    requires UpToDate(start, v, name, current, mentioned)
    ensures UpToDate(start, Evolved(v, name, current, cs), name, Last(current, cs), mentioned || Mentioned(name, cs))
    decreases |cs|
  {
    if cs != [] {
      assert Mentioned(name, cs) <==> name in cs[0] || Mentioned(name, cs[1..]) by {
        assert forall i | 0 <= i < |cs| - 1 :: cs[1..][i] == cs[i + 1];
        if name !in cs[0] && Mentioned(name, cs) {
          var i :| 0 <= i < |cs| && name in cs[i];
          assert name in cs[1..][i - 1];
        }
      }
      EvolvedIsUpToDate(start, Notified(v, name, current, cs[0]), name, cs[0], mentioned || name in cs[0], cs[1..]);
    }
  }

  /**
    * After any sequence of updates: a logger in the last configuration has the level and the appenders that this
    * configuration alone would give it; one that was dropped has no appenders and level 100; the others are untouched.
    */
  lemma IncrementalIsRebuild(v: Option<LoggerView>, name: string, cs: seq<Config>)
    ensures
      var e, last := Evolved(v, name, map[], cs), Last(map[], cs);
      if name in last then
        var d, s := last[name], FromScratch(last[name]);
        && e.Some? && e.value.level == d.level && |e.value.appenders| == |d.appenders|
        && (forall i | 0 <= i < |d.appenders| :: AsDefined(e.value.appenders[i], d.appenders[i]))
        && e.value.level == s.level && |s.appenders| == |d.appenders|
        && forall i | 0 <= i < |d.appenders| :: SameAppender(e.value.appenders[i], s.appenders[i])
      else if Mentioned(name, cs) then Emptied(e)
      else e == v
  {
    EvolvedIsUpToDate(v, v, name, map[], false, cs);
  }

  /** The latest usable pattern that the configurations gave a logger, or the one it had. */
  ghost function Latest(formatter: string, name: string, cs: seq<Config>): string
    decreases |cs|
  {
    if cs == [] then formatter
    else Latest(if name in cs[0] then Adopt(formatter, cs[0][name].formatter) else formatter, name, cs[1..])
  }

  lemma {:induction false} EvolvedFormatter(start: Option<LoggerView>, v: Option<LoggerView>, name: string,
                                            current: Config, mentioned: bool, cs: seq<Config>)
    requires UpToDate(start, v, name, current, mentioned)
    ensures OrCreated(Evolved(v, name, current, cs)).formatter == Latest(OrCreated(v).formatter, name, cs)
    decreases |cs|
  {
    if cs != [] {
      var v' := Notified(v, name, current, cs[0]);
      assert UpToDate(start, v', name, cs[0], mentioned || name in cs[0]);
      EvolvedFormatter(start, v', name, cs[0], mentioned || name in cs[0], cs[1..]);
    }
  }

  /**
    * The whole logger, with every formatter in use, is as the last configuration alone would make it exactly when the
    * latest usable pattern of the history is the one that this configuration would use.
    */
  lemma FullRebuildIff(v: Option<LoggerView>, name: string, cs: seq<Config>)
    requires name in Last(map[], cs)
    ensures
      var d := Last(map[], cs)[name];
      Evolved(v, name, map[], cs) == Some(FromScratch(d))
      <==> Latest(OrCreated(v).formatter, name, cs) == Adopt(DEFAULT_PATTERN, d.formatter)
  {
    EvolvedIsUpToDate(v, v, name, map[], false, cs);
    EvolvedFormatter(v, v, name, map[], false, cs);
  }

  /** A formatter that the configuration no longer gives stays in force. */
  lemma FormatterIsNotReset(d: LogDefine)
    requires Usable(d.formatter) && d.formatter != DEFAULT_PATTERN
    ensures
      var cs := [map["a" := d], map["a" := d.(formatter := "")]];
      Evolved(None, "a", map[], cs) != Some(FromScratch(d.(formatter := "")))
  {
    var d' := d.(formatter := "");
    var c1, c2 := map["a" := d], map["a" := d'];
    var v1 := Notified(None, "a", map[], c1);
    assert v1 == Some(Configured(CREATED, d));
    var v2 := Notified(v1, "a", c1, c2);
    assert v2 == Some(Configured(v1.value, d')) && v2.value.formatter == d.formatter;
    assert [c1, c2][1..] == [c2] && [c2][1..] == [];
    assert Evolved(v1, "a", c1, [c2]) == Evolved(v2, "a", c2, []);
  }
}
