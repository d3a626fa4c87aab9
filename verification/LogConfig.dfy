/** The listener that brings the loggers in line with a new logging configuration. */
module LogConfig {

  const ROOT := "root"
  const UNKNOW := 0
  const DEFAULT_LEVEL := UNKNOW
  const DEFAULT_PATTERN := "%d{%Y-%m-%d %H:%M:%S}%t%T%t%N%t%C%t[%p]%t[%c]%t%f:%l%t%m%n"

  datatype AppenderConfig = AppenderConfig(kind: string, level: int, pattern: string, fileName: string)

  datatype LoggerConfig = LoggerConfig(level: int, pattern: string, appenders: seq<AppenderConfig>)

  type Config = map<string, LoggerConfig>

  datatype Target = Console | File(name: string)

  /** A layout is shared by all who ask for its pattern, so the pattern stands for it. */
  datatype Appender = Appender(target: Target, level: int, layout: string)

  datatype Settings = Settings(level: int, pattern: string, layout: string, appenders: seq<Appender>, valid: bool)

  // ----- A logger set up from scratch -----

  /** The level and the layout of an appender are its own where its configuration has them, and the logger's
      otherwise. */
  function BuiltAppender(target: Target, c: AppenderConfig, level: int, layout: string): Appender {
    Appender(target, if c.level != UNKNOW then c.level else level, if c.pattern == "" then layout else c.pattern)
  }

  /** An appender of unknown kind is left out, and one whose file cannot be made. */
  function BuiltAppenders(
      cs: seq<AppenderConfig>, level: int, layout: string, creatable: string -> bool): (r: seq<Appender>)
  {
    if cs == [] then []
    else
      var c := cs[|cs| - 1];
      BuiltAppenders(cs[..|cs| - 1], level, layout, creatable) +
      if c.kind == "ConsoleAppender" then [BuiltAppender(Console, c, level, layout)]
      else if c.kind == "FileAppender" && creatable(c.fileName) then [BuiltAppender(File(c.fileName), c, level, layout)]
      else []
  }

  function Built(c: LoggerConfig, creatable: string -> bool): Settings {
    var level := if c.level == UNKNOW then DEFAULT_LEVEL else c.level;
    var pattern := if c.pattern == "" then DEFAULT_PATTERN else c.pattern;
    Settings(level, pattern, pattern, BuiltAppenders(c.appenders, level, pattern, creatable), true)
  }

  function Off(s: Settings): Settings {
    s.(valid := false, appenders := [])
  }

  // ----- What the configuration asks for -----

  /** An entry for which an appender can be made. */
  predicate Usable(c: AppenderConfig, creatable: string -> bool) {
    c.kind == "ConsoleAppender" || (c.kind == "FileAppender" && creatable(c.fileName))
  }

  /** The appender is of the kind, the level and the pattern of its entry, or of the logger's where the entry has
      none. */
  predicate Fits(a: Appender, c: AppenderConfig, level: int, layout: string) {
    && (c.kind == "ConsoleAppender" ==> a.target == Console)
    && (c.kind == "FileAppender" ==> a.target == File(c.fileName))
    && (c.level != UNKNOW ==> a.level == c.level)
    && (c.level == UNKNOW ==> a.level == level)
    && (c.pattern != "" ==> a.layout == c.pattern)
    && (c.pattern == "" ==> a.layout == layout)
  }

  /** The appenders are those of the usable entries, in their order: `from` says whose each one is. */
  ghost predicate AppendersOf(
      appenders: seq<Appender>, from: seq<nat>, cs: seq<AppenderConfig>, level: int, layout: string,
      creatable: string -> bool)
  {
    && |from| == |appenders|
    && (forall i, j :: 0 <= i < j < |from| ==> from[i] < from[j])
    && (forall k :: k in from <==> 0 <= k < |cs| && Usable(cs[k], creatable))
    && forall i :: 0 <= i < |from| ==> from[i] < |cs| && Fits(appenders[i], cs[from[i]], level, layout)
  }

  /** The logger has the level and the pattern of its configuration, or the defaults, and an appender for each usable
      entry. */
  ghost predicate AsConfigured(s: Settings, c: LoggerConfig, creatable: string -> bool) {
    && s.valid
    && (c.level != UNKNOW ==> s.level == c.level)
    && (c.level == UNKNOW ==> s.level == DEFAULT_LEVEL)
    && (c.pattern != "" ==> s.pattern == c.pattern)
    && (c.pattern == "" ==> s.pattern == DEFAULT_PATTERN)
    && s.layout == s.pattern
    && exists from :: AppendersOf(s.appenders, from, c.appenders, s.level, s.layout, creatable)
  }

  lemma OneUsable(
      front: seq<Appender>, from: seq<nat>, cs: seq<AppenderConfig>, level: int, layout: string,
      creatable: string -> bool, a: Appender)
    requires cs != [] && Usable(cs[|cs| - 1], creatable) && Fits(a, cs[|cs| - 1], level, layout)
    requires AppendersOf(front, from, cs[..|cs| - 1], level, layout, creatable)
    ensures AppendersOf(front + [a], from + [|cs| - 1], cs, level, layout, creatable)
  {
    forall k | 0 <= k < |cs| && Usable(cs[k], creatable)
      ensures k in from + [|cs| - 1]
    {
      if k < |cs| - 1 {
        assert cs[..|cs| - 1][k] == cs[k];
      }
    }
  }

  lemma OneUnusable(
      front: seq<Appender>, from: seq<nat>, cs: seq<AppenderConfig>, level: int, layout: string,
      creatable: string -> bool)
    requires cs != [] && !Usable(cs[|cs| - 1], creatable)
    requires AppendersOf(front, from, cs[..|cs| - 1], level, layout, creatable)
    ensures AppendersOf(front, from, cs, level, layout, creatable)
  {
    forall k | 0 <= k < |cs| && Usable(cs[k], creatable)
      ensures k in from
    {
      assert cs[..|cs| - 1][k] == cs[k];
    }
  }

  lemma {:induction false} AppendersMatch(
      cs: seq<AppenderConfig>, level: int, layout: string, creatable: string -> bool)
    returns (from: seq<nat>)
    ensures AppendersOf(BuiltAppenders(cs, level, layout, creatable), from, cs, level, layout, creatable)
    decreases |cs|
  {
    if cs == [] {
      from := [];
    } else {
      var last := |cs| - 1;
      from := AppendersMatch(cs[..last], level, layout, creatable);
      var front := BuiltAppenders(cs[..last], level, layout, creatable);
      if Usable(cs[last], creatable) {
        var a := BuiltAppender(
          if cs[last].kind == "ConsoleAppender" then Console else File(cs[last].fileName), cs[last], level, layout);
        OneUsable(front, from, cs, level, layout, creatable, a);
        from := from + [last];
      } else {
        assert front + [] == front;
        OneUnusable(front, from, cs, level, layout, creatable);
      }
    }
  }

  lemma BuiltAsConfigured(c: LoggerConfig, creatable: string -> bool)
    ensures AsConfigured(Built(c, creatable), c, creatable)
  {
    var s := Built(c, creatable);
    var from := AppendersMatch(c.appenders, s.level, s.layout, creatable);
  }

  // ----- The loggers, by name, after a change of configuration -----

  /** The loggers are in line with a configuration. */
  ghost predicate Managed(config: Config, loggers: map<string, Settings>, creatable: string -> bool) {
    && ROOT in loggers
    && (forall name :: name in config && name != ROOT ==>
      name in loggers && loggers[name] == Built(config[name], creatable))
    && (forall name :: name in loggers && name !in config && name != ROOT ==> Off(loggers[name]) == loggers[name])
  }

  predicate Differs(name: string, from: Config, to: Config) {
    name != ROOT && name in to && (name !in from || to[name] != from[name])
  }

  predicate Gone(name: string, from: Config, to: Config) {
    name != ROOT && name in from && name !in to
  }

  /** What the listener does: only new and changed loggers are set up, and only missing ones are switched off. */
  ghost function Reload(
      loggers: map<string, Settings>, from: Config, to: Config, creatable: string -> bool): map<string, Settings>
    requires Managed(from, loggers, creatable)
  {
    map name | name in loggers.Keys + (to.Keys - {ROOT}) ::
      if Differs(name, from, to) then Built(to[name], creatable)
      else if Gone(name, from, to) then Off(loggers[name])
      else loggers[name]
  }

  /** The listener's work so far: it has visited `updated` of the new and `checked` of the old configuration. */
  ghost function Partly(
      loggers: map<string, Settings>, from: Config, to: Config, updated: set<string>, checked: set<string>,
      creatable: string -> bool): map<string, Settings>
    requires Managed(from, loggers, creatable) && updated <= to.Keys
  {
    map name | name in loggers.Keys + (updated - {ROOT}) ::
      if name in updated && Differs(name, from, to) then Built(to[name], creatable)
      else if name in checked && Gone(name, from, to) then Off(loggers[name])
      else loggers[name]
  }

  lemma UpdateOneMore(
      loggers: map<string, Settings>, from: Config, to: Config, updated: set<string>, name: string,
        creatable: string -> bool)
    requires Managed(from, loggers, creatable) && updated <= to.Keys && name in to && name !in updated
    ensures
      var before := Partly(loggers, from, to, updated, {}, creatable);
      var after := Partly(loggers, from, to, updated + {name}, {}, creatable);
      after == if Differs(name, from, to) then before[name := Built(to[name], creatable)] else before
  {
  }

  lemma CheckOneMore(
      loggers: map<string, Settings>, from: Config, to: Config, checked: set<string>, name: string,
        creatable: string -> bool)
    requires Managed(from, loggers, creatable) && name in from && name !in checked
    ensures
      var before := Partly(loggers, from, to, to.Keys, checked, creatable);
      var after := Partly(loggers, from, to, to.Keys, checked + {name}, creatable);
      if Gone(name, from, to) then name in before && after == before[name := Off(before[name])] else after == before
  {
  }

  lemma NothingDone(loggers: map<string, Settings>, from: Config, to: Config, creatable: string -> bool)
    requires Managed(from, loggers, creatable)
    ensures Partly(loggers, from, to, {}, {}, creatable) == loggers
  {
  }

  lemma AllDone(loggers: map<string, Settings>, from: Config, to: Config, creatable: string -> bool)
    requires Managed(from, loggers, creatable)
    ensures Partly(loggers, from, to, to.Keys, from.Keys, creatable) == Reload(loggers, from, to, creatable)
  {
  }

  /** What a complete rebuild would do: every logger but the root is switched off, and then all configured ones
      are set up. */
  ghost function Rebuild(loggers: map<string, Settings>, to: Config, creatable: string -> bool): map<string, Settings> {
    map name | name in loggers.Keys + (to.Keys - {ROOT}) ::
      if name == ROOT then loggers[name]
      else if name in to then Built(to[name], creatable)
      else Off(loggers[name])
  }

  lemma ReloadIsRebuild(loggers: map<string, Settings>, from: Config, to: Config, creatable: string -> bool)
    requires Managed(from, loggers, creatable)
    ensures Reload(loggers, from, to, creatable) == Rebuild(loggers, to, creatable)
    ensures Managed(to, Reload(loggers, from, to, creatable), creatable)
  {
  }

  // ----- Runs -----

  /** A new value for the variable `logs`, or a lookup of a logger, whose level starts as whatever memory held. */
  datatype Action = Load(config: Config) | Lookup(name: string, level: int)

  datatype State = State(config: Config, loggers: map<string, Settings>)

  function Unset(level: int): Settings {
    Settings(level, "", "", [], false)
  }

  /** A logger is made when it is first looked up. */
  function LookedUp(loggers: map<string, Settings>, name: string, level: int): map<string, Settings> {
    if name in loggers then loggers else loggers[name := Unset(level)]
  }

  ghost function Next(s: State, a: Action, creatable: string -> bool): State
    requires Managed(s.config, s.loggers, creatable)
  {
    match a
    case Load(config) =>
      if config == s.config then s else State(config, Reload(s.loggers, s.config, config, creatable))
    case Lookup(name, level) => s.(loggers := LookedUp(s.loggers, name, level))
  }

  ghost function Run(s: State, actions: seq<Action>, creatable: string -> bool): (r: State)
    requires Managed(s.config, s.loggers, creatable)
    ensures Managed(r.config, r.loggers, creatable)
    decreases |actions|
  {
    if actions == [] then s
    else
      ReloadAllKept(s, actions[0], creatable);
      Run(Next(s, actions[0], creatable), actions[1..], creatable)
  }

  lemma ReloadAllKept(s: State, a: Action, creatable: string -> bool)
    requires Managed(s.config, s.loggers, creatable)
    ensures var r := Next(s, a, creatable); Managed(r.config, r.loggers, creatable)
  {
    if a.Load? {
      ReloadIsRebuild(s.loggers, s.config, a.config, creatable);
    }
  }

  /** The configuration that was loaded last. */
  function Latest(config: Config, actions: seq<Action>): Config {
    if actions == [] then config
    else
      var last := actions[|actions| - 1];
      if last.Load? then last.config else Latest(config, actions[..|actions| - 1])
  }

  /** The valid loggers other than the root. */
  ghost function Working(loggers: map<string, Settings>): map<string, Settings> {
    map name | name in loggers && name != ROOT && loggers[name].valid :: loggers[name]
  }

  lemma {:induction false} RunConfig(s: State, actions: seq<Action>, creatable: string -> bool)
    requires Managed(s.config, s.loggers, creatable)
    ensures Run(s, actions, creatable).config == Latest(s.config, actions)
    ensures ROOT in s.loggers && Run(s, actions, creatable).loggers[ROOT] == s.loggers[ROOT]
    decreases |actions|
  {
    if actions != [] {
      var next := Next(s, actions[0], creatable);
      ReloadAllKept(s, actions[0], creatable);
      RunConfig(next, actions[1..], creatable);
      LatestOfTail(s.config, actions);
    }
  }

  lemma {:induction false} LatestOfTail(config: Config, actions: seq<Action>)
    requires actions != []
    ensures Latest(config, actions) == Latest(if actions[0].Load? then actions[0].config else config, actions[1..])
    decreases |actions|
  {
    if |actions| > 1 && !actions[|actions| - 1].Load? {
      var front := actions[..|actions| - 1];
      LatestOfTail(config, front);
      assert front[1..] == actions[1..][..|actions| - 2];
    }
  }

  /**
   * After any run, the valid loggers other than the root are those of the latest configuration, each as if it had
   * just been set up, which is as configured; all others have no appenders, and the root is as it was. Nothing remains
   * of the configurations before.
   */
  lemma WorkingIsLatest(s: State, actions: seq<Action>, creatable: string -> bool)
    requires Managed(s.config, s.loggers, creatable)
    ensures
      var latest := Latest(s.config, actions);
      Working(Run(s, actions, creatable).loggers) ==
        map name | name in latest && name != ROOT :: Built(latest[name], creatable)
    ensures
      var latest, after := Latest(s.config, actions), Run(s, actions, creatable).loggers;
      && (forall name :: name in latest && name != ROOT ==>
            name in after && AsConfigured(after[name], latest[name], creatable))
      && (forall name :: name in after && name !in latest && name != ROOT ==>
            !after[name].valid && after[name].appenders == [])
    ensures ROOT in s.loggers && Run(s, actions, creatable).loggers[ROOT] == s.loggers[ROOT]
  {
    RunConfig(s, actions, creatable);
    var latest, after := Latest(s.config, actions), Run(s, actions, creatable).loggers;
    forall name | name in latest && name != ROOT
      ensures name in after && AsConfigured(after[name], latest[name], creatable)
    {
      BuiltAsConfigured(latest[name], creatable);
    }
    forall name | name in after && name !in latest && name != ROOT
      ensures !after[name].valid && after[name].appenders == []
    {
      assert Off(after[name]) == after[name];
    }
  }

  // ----- The objects -----

  class Logger {
    const name: string
    var level: int
    var pattern: string
    var layout: string
    var appenders: seq<Appender>
    var valid: bool

    ghost function Abs(): Settings
      reads this
    {
      Settings(level, pattern, layout, appenders, valid)
    }

    constructor (name: string, level: int)
      ensures this.name == name && Abs() == Unset(level)
    {
      this.name, this.level, pattern, layout, appenders, valid := name, level, "", "", [], false;
    }

    method SetUp(c: LoggerConfig, creatable: string -> bool)
      modifies this
      ensures Abs() == Built(c, creatable) && valid
      ensures level == if c.level == UNKNOW then DEFAULT_LEVEL else c.level
      ensures pattern == layout == if c.pattern == "" then DEFAULT_PATTERN else c.pattern
    {
      valid := false;
      if c.level != UNKNOW {
        level := c.level;
      } else {
        level := DEFAULT_LEVEL;
      }
      if c.pattern != "" {
        pattern := c.pattern;
        layout := c.pattern;
      } else {
        pattern := DEFAULT_PATTERN;
        layout := DEFAULT_PATTERN;
      }
      appenders := [];
      AddAppenders(c.appenders, creatable);
      valid := true;
    }

    method AddAppenders(cs: seq<AppenderConfig>, creatable: string -> bool)
      modifies this`appenders
      ensures appenders == old(appenders) + BuiltAppenders(cs, level, layout, creatable)
    {
      for i := 0 to |cs|
        invariant appenders == old(appenders) + BuiltAppenders(cs[..i], level, layout, creatable)
      {
        assert cs[..i + 1][..i] == cs[..i];
        var target;
        if cs[i].kind == "ConsoleAppender" {
          target := Console;
        } else if cs[i].kind == "FileAppender" {
          if !creatable(cs[i].fileName) {
            continue;
          }
          target := File(cs[i].fileName);
        } else {
          continue;
        }
        var appenderLevel, appenderLayout := level, layout;
        if cs[i].level != UNKNOW {
          appenderLevel := cs[i].level;
        }
        if cs[i].pattern != "" {
          appenderLayout := cs[i].pattern;
        }
        appenders := appenders + [Appender(target, appenderLevel, appenderLayout)];
      }
      assert cs[..|cs|] == cs;
    }

    method SwitchOff()
      modifies this
      ensures Abs() == Off(old(Abs()))
    {
      valid := false;
      appenders := [];
    }
  }

  class Manager {
    // Says which files can be made.
    const creatable: string -> bool
    var loggers: map<string, Logger>
    // The value of the variable `logs`.
    var config: Config

    ghost function Loggers(): map<string, Settings>
      reads this`loggers, loggers.Values
    {
      map name | name in loggers :: loggers[name].Abs()
    }

    ghost function Abs(): State
      reads this, loggers.Values
    {
      State(config, Loggers())
    }

    ghost predicate Named()
      reads this`loggers, loggers.Values
    {
      forall name :: name in loggers ==> loggers[name].name == name
    }

    ghost predicate Valid()
      reads this, loggers.Values
    {
      Named() && Managed(config, Loggers(), creatable)
    }

    constructor (creatable: string -> bool)
      ensures Valid() && this.creatable == creatable && Abs().config == map[] && Abs().loggers.Keys == {ROOT}
      ensures
        var root := Abs().loggers[ROOT];
        root.valid && root.appenders == [Appender(Console, UNKNOW, DEFAULT_PATTERN)]
    {
      this.creatable := creatable;
      config := map[];
      var level: int := *;
      var root := new Logger(ROOT, level);
      root.appenders := [Appender(Console, UNKNOW, DEFAULT_PATTERN)];
      root.valid := true;
      loggers := map[ROOT := root];
    }

    /** A logger, once made, is never replaced. */
    twostate predicate Kept()
      reads this`loggers
    {
      && (forall name :: name in old(loggers) ==> name in loggers && loggers[name] == old(loggers)[name])
      && (forall name :: name in loggers && name !in old(loggers) ==> fresh(loggers[name]))
    }

    method GetLogger(name: string) returns (logger: Logger)
      requires Named()
      modifies this`loggers
      ensures Named() && name in loggers && loggers[name] == logger
      ensures Kept() && (name in old(loggers) ==> loggers == old(loggers))
      ensures exists level :: Loggers() == LookedUp(old(Loggers()), name, level)
      ensures old(Valid()) ==> Valid()
    {
      if name in loggers {
        assert Loggers() == LookedUp(old(Loggers()), name, 0);
        return loggers[name];
      }
      var level: int := *;
      logger := new Logger(name, level);
      loggers := loggers[name := logger];
      assert Loggers() == LookedUp(old(Loggers()), name, level);
    }

    method SetupLogger(name: string, c: LoggerConfig)
      requires Named()
      modifies this`loggers, loggers.Values
      ensures Named() && Kept()
      ensures Loggers() == old(Loggers())[name := Built(c, creatable)]
    {
      var logger := GetLogger(name);
      ghost var before := Loggers();
      logger.SetUp(c, creatable);
      assert Loggers() == before[name := Built(c, creatable)];
    }

    method Retire(name: string)
      requires Named() && name in loggers
      modifies this`loggers, loggers.Values
      ensures Named() && loggers == old(loggers)
      ensures Loggers() == old(Loggers())[name := Off(old(Loggers())[name])]
    {
      var logger := GetLogger(name);
      ghost var before := Loggers();
      logger.SwitchOff();
      assert Loggers() == before[name := Off(before[name])];
    }

    /** The body of the listener's first loop. */
    method SetUpIfChanged(name: string, from: Config, to: Config, ghost before: map<string, Settings>,
                          ghost updated: set<string>)
      requires Managed(from, before, creatable) && updated <= to.Keys && name in to && name !in updated
      requires Named() && Loggers() == Partly(before, from, to, updated, {}, creatable)
      modifies this`loggers, loggers.Values
      ensures Named() && Kept() && Loggers() == Partly(before, from, to, updated + {name}, {}, creatable)
    {
      UpdateOneMore(before, from, to, updated, name, creatable);
      if name == ROOT {
        return;
      }
      if name in from {
        if to[name] == from[name] {
          return;
        }
      }
      SetupLogger(name, to[name]);
    }

    /** The listener's first loop. */
    method SetUpChanged(from: Config, to: Config)
      requires Named() && Managed(from, Loggers(), creatable)
      modifies this`loggers, loggers.Values
      ensures Named() && Kept() && Loggers() == Partly(old(Loggers()), from, to, to.Keys, {}, creatable)
    {
      ghost var before := Loggers();
      NothingDone(before, from, to, creatable);
      var names, updated := to.Keys, {};
      while updated != names
        invariant updated <= names && Named() && Kept()
        invariant Loggers() == Partly(before, from, to, updated, {}, creatable)
        decreases |names - updated|
      {
        var name :| name in names - updated;
        SetUpIfChanged(name, from, to, before, updated);
        assert names - (updated + {name}) < names - updated;
        updated := updated + {name};
      }
    }

    /** The body of the listener's second loop. */
    method RetireIfMissing(name: string, from: Config, to: Config, ghost before: map<string, Settings>,
                           ghost checked: set<string>)
      requires Managed(from, before, creatable) && name in from && name !in checked
      requires Named() && Loggers() == Partly(before, from, to, to.Keys, checked, creatable)
      modifies this`loggers, loggers.Values
      ensures Named() && loggers == old(loggers)
      ensures Loggers() == Partly(before, from, to, to.Keys, checked + {name}, creatable)
    {
      CheckOneMore(before, from, to, checked, name, creatable);
      if name == ROOT {
        return;
      }
      if name !in to {
        assert name in Loggers();
        Retire(name);
      }
    }

    /** The listener's second loop. */
    method RetireMissing(from: Config, to: Config, ghost before: map<string, Settings>)
      requires Managed(from, before, creatable)
      requires Named() && Loggers() == Partly(before, from, to, to.Keys, {}, creatable)
      modifies this`loggers, loggers.Values
      ensures Named() && loggers == old(loggers)
      ensures Loggers() == Partly(before, from, to, to.Keys, from.Keys, creatable)
    {
      var names, checked := from.Keys, {};
      while checked != names
        invariant checked <= names && Named() && loggers == old(loggers)
        invariant Loggers() == Partly(before, from, to, to.Keys, checked, creatable)
        decreases |names - checked|
      {
        var name :| name in names - checked;
        RetireIfMissing(name, from, to, before, checked);
        assert names - (checked + {name}) < names - checked;
        checked := checked + {name};
      }
    }

    method Listener(from: Config, to: Config)
      requires Named() && Managed(from, Loggers(), creatable)
      modifies this`loggers, loggers.Values
      ensures Named() && Kept() && Loggers() == Reload(old(Loggers()), from, to, creatable)
      ensures Managed(to, Loggers(), creatable)
    {
      ghost var before := Loggers();
      SetUpChanged(from, to);
      RetireMissing(from, to, before);
      AllDone(before, from, to, creatable);
      ReloadIsRebuild(before, from, to, creatable);
    }

    method SetValue(value: Config)
      requires Valid()
      modifies this, loggers.Values
      ensures Valid() && Abs() == Next(old(Abs()), Load(value), creatable)
    {
      if config == value {
        return;
      }
      Listener(config, value);
      config := value;
    }
  }
}
