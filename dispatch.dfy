/** `main` of the control script (qlever.py:555-625): the completion
    shortcut, the log level given as first argument, the trailing `show`,
    and the loop over the remaining tokens, each either a configuration
    assignment or an action name, that stops at the first failure. */
module Dispatch {
  import opened Wrappers
  import opened Text
  import opened ConfigStore
  import opened Registry
  import opened ActionSpec
  import opened Engine

  /** Why the script exits with status 1 through `sys.exit(1)`. */
  datatype Reason =
    | InvalidLogLevel(level: string)
    | SetRejected(error: SetError)
    | UnknownAction(name: string)
    | ActionFailed(message: string)

  /** How the script ends: normally, with `sys.exit(1)`, or with an uncaught
      exception. */
  datatype Exit = Completed | ExitOne(reason: Reason) | Uncaught(crash: Crash)

  /** The process exit status: an uncaught exception exits with 1 as well. */
  function ExitStatus(e: Exit): (status: nat)
    ensures status == 0 <==> e.Completed?
  {
    if e.Completed? then 0 else 1
  }

  datatype RunResult = RunResult(events: seq<Event>, exit: Exit)

  /** What the token loop has done so far: its events, how it ended, and the
      configuration it leaves. */
  datatype Batch = Batch(events: seq<Event>, exit: Exit, config: Config)

  // ---------------------------------------------------------------------
  // Tokens

  /** The level names `getattr(logging, ...)` accepts. */
  const LogLevels: seq<string> := ["CRITICAL", "FATAL", "ERROR", "WARN", "WARNING", "INFO", "DEBUG", "NOTSET"]

  /** `re.match(r"general.log_level=(\w+)", t)`: the group, if the token
      starts with `general`, any character but a newline, `log_level=` and
      at least one word character. */
  function LogLevelArg(t: string): (r: Option<string>)
    ensures r.Some? ==> WordRun(r.value)
  {
    if |t| >= 18 && t[..7] == "general" && t[7] != '\n' && t[8..18] == "log_level=" && WordCharRun(t[18..]) > 0
    then Some(t[18..][..WordCharRun(t[18..])])
    else None
  }

  /** A level token is `general`, one character other than a newline,
      `log_level=` and the level, followed by the end of the token or a
      character that is not a word character. */
  lemma LogLevelArgMatches(t: string)
    requires LogLevelArg(t).Some?
    ensures var level := LogLevelArg(t).value;
            && |t| >= 18 + |level| && t[..7] == "general" && t[7] != '\n' && t[8..18] == "log_level="
            && t[18..18 + |level|] == level
            && (|t| == 18 + |level| || !IsWordChar(t[18 + |level|]))
  {
    var n := WordCharRun(t[18..]);
    assert t[18..][..n] == t[18..18 + n];
    assert n < |t[18..]| ==> t[18..][n] == t[18 + n];
  }

  /** The level token reads back the level it names. */
  lemma LogLevelArgOf(level: string, rest: string)
    requires |level| > 0 && forall j :: 0 <= j < |level| ==> IsWordChar(level[j])
    requires rest == [] || !IsWordChar(rest[0])
    ensures LogLevelArg("general.log_level=" + level + rest) == Some(level)
  {
    var t := "general.log_level=" + level + rest;
    assert t[..7] == "general" && t[7] == '.' && t[8..18] == "log_level=";
    assert t[18..] == level + rest;
    WordCharRunOf(level, rest);
    assert t[18..18 + |level|] == level;
  }

  /** A `section.option=value` token. */
  datatype Assignment = Assignment(section: string, option: string, value: string)

  predicate WordRun(w: string)
  {
    |w| > 0 && forall j :: 0 <= j < |w| ==> IsWordChar(w[j])
  }

  /** `t` starts with `section.option=value`, and the value is followed by
      the end of `t` or a newline. */
  predicate Spells(a: Assignment, t: string)
  {
    var n := |a.section|;
    var m := n + 1 + |a.option|;
    var e := m + 1 + |a.value|;
    && e <= |t|
    && t[..n] == a.section && t[n] == '.'
    && t[n + 1..m] == a.option && t[m] == '='
    && t[m + 1..e] == a.value
    && (e == |t| || t[e] == '\n')
  }

  /** The group `(.*)`: everything up to the first newline. */
  function AssignedValue(v: string): (r: string)
    ensures '\n' !in r && r <= v && (|r| == |v| || v[|r|] == '\n')
  {
    v[..IndexOf(v, '\n')]
  }

  /** The part of an assignment after the dot: a run of word characters,
      `=`, and the value. */
  function ParseOptionValue(section: string, rest: string): (r: Option<Assignment>)
    ensures r.Some? ==>
      && r.value.section == section && WordRun(r.value.option) && '\n' !in r.value.value
      && var k := |r.value.option|;
         && k + 1 + |r.value.value| <= |rest|
         && rest[..k] == r.value.option && rest[k] == '='
         && rest[k + 1..k + 1 + |r.value.value|] == r.value.value
         && (k + 1 + |r.value.value| == |rest| || rest[k + 1 + |r.value.value|] == '\n')
  {
    var m := WordCharRun(rest);
    if m == 0 || m == |rest| || rest[m] != '=' then None
    else
      var value := AssignedValue(rest[m + 1..]);
      assert rest[m + 1..m + 1 + |value|] == value;
      Some(Assignment(section, rest[..m], value))
  }

  /** `re.match(r"(\w+)\.(\w+)=(.*)", t)`: a run of word characters, a dot,
      another run, `=`, and the value up to the first newline. */
  function ParseAssignment(t: string): (r: Option<Assignment>)
    ensures r.Some? ==>
      && WordRun(r.value.section) && WordRun(r.value.option) && '\n' !in r.value.value
      && Spells(r.value, t)
  {
    var n := WordCharRun(t);
    if n == 0 || n == |t| || t[n] != '.' then None
    else
      var r := ParseOptionValue(t[..n], t[n + 1..]);
      if r.None? then None
      else
        SpellsAfterDot(r.value, t);
        r
  }

  /** The assignment is spelt at the start of `t` when its section is, and
      the rest of it is spelt after the dot. */
  lemma SpellsAfterDot(a: Assignment, t: string)
    requires |a.section| < |t| && t[..|a.section|] == a.section && t[|a.section|] == '.'
    requires var rest := t[|a.section| + 1..];
             var k := |a.option|;
             && k + 1 + |a.value| <= |rest|
             && rest[..k] == a.option && rest[k] == '='
             && rest[k + 1..k + 1 + |a.value|] == a.value
             && (k + 1 + |a.value| == |rest| || rest[k + 1 + |a.value|] == '\n')
    ensures Spells(a, t)
  {
    var n := |a.section|;
    var k := |a.option|;
    var e := n + 1 + k + 1 + |a.value|;
    assert t[n + 1..][..k] == t[n + 1..n + 1 + k];
    assert t[n + 1..][k + 1..k + 1 + |a.value|] == t[n + 1 + k + 1..e];
    assert e < |t| ==> t[n + 1..][k + 1 + |a.value|] == t[e];
  }

  /** An assignment token reads back the assignment it spells. */
  lemma ParseAssignmentOf(a: Assignment, t: string)
    requires WordRun(a.section) && WordRun(a.option) && '\n' !in a.value
    requires Spells(a, t)
    ensures ParseAssignment(t) == Some(a)
  {
    var n := |a.section|;
    assert forall j :: 0 <= j < n ==> t[j] == a.section[j];
    WordCharRunAt(t, n);
    var rest := t[n + 1..];
    RestSpells(a, t);
    ParseOptionValueOf(a, rest);
  }

  /** After the section and the dot, `t` spells the option, `=` and the
      value. */
  lemma RestSpells(a: Assignment, t: string)
    requires Spells(a, t)
    ensures var rest := t[|a.section| + 1..];
            var k := |a.option|;
            && k + 1 + |a.value| <= |rest|
            && rest[..k] == a.option && rest[k] == '='
            && rest[k + 1..k + 1 + |a.value|] == a.value
            && (k + 1 + |a.value| == |rest| || rest[k + 1 + |a.value|] == '\n')
  {
    var n := |a.section|;
    var k := |a.option|;
    var e := n + 1 + k + 1 + |a.value|;
    assert t[n + 1..][..k] == t[n + 1..n + 1 + k];
    assert t[n + 1..][k + 1..k + 1 + |a.value|] == t[n + 1 + k + 1..e];
    assert e < |t| ==> t[n + 1..][k + 1 + |a.value|] == t[e];
  }

  lemma ParseOptionValueOf(a: Assignment, rest: string)
    requires WordRun(a.option) && '\n' !in a.value
    requires var k := |a.option|;
             && k + 1 + |a.value| <= |rest|
             && rest[..k] == a.option && rest[k] == '='
             && rest[k + 1..k + 1 + |a.value|] == a.value
             && (k + 1 + |a.value| == |rest| || rest[k + 1 + |a.value|] == '\n')
    ensures ParseOptionValue(a.section, rest) == Some(a)
  {
    var k := |a.option|;
    assert forall j :: 0 <= j < k ==> rest[j] == a.option[j];
    WordCharRunAt(rest, k);
    var v := rest[k + 1..];
    assert forall j :: 0 <= j < |a.value| ==> v[j] == a.value[j];
    assert |a.value| == |v| || v[|a.value|] == rest[k + 1 + |a.value|];
    IndexOfAt(v, '\n', |a.value|);
    assert v[..|a.value|] == a.value;
  }

  // ---------------------------------------------------------------------
  // The token loop

  /** How a token that stops the loop ends the script. */
  type Stopped = e: Exit | !e.Completed? witness Uncaught(ProcessInfoUnbound)

  datatype Step = Next(config: Config, events: seq<Event>) | Halt(events: seq<Event>, exit: Stopped)

  /** An action's result as a step of the loop: a failure (`ActionException`)
      exits with status 1, any other exception propagates. */
  function ActionStep(c: Config, r: ActionResult): Step
  {
    match r.outcome
    case Done => Next(c, r.events)
    case Failed(message) => Halt(r.events, ExitOne(ActionFailed(message)))
    case Crashed(crash) => Halt(r.events, Uncaught(crash))
  }

  /** An assignment token as a step: `set_config` either updates the
      configuration or exits with status 1. */
  function AssignStep(c: Config, a: Assignment): (s: Step)
    ensures s.events == []
  {
    match Set(c, a.section, a.option, a.value)
    case Ok(c') => Next(c', [])
    case Err(e) => Halt([], ExitOne(SetRejected(e)))
  }

  /** One token of the loop (qlever.py:597-625): an assignment goes to
      `set_config`, any other token must name an action, which then runs. */
  function TokenStep(c: Config, name: string, inst: Installation, host: Host, onlyShow: bool, token: string): Step
  {
    match ParseAssignment(token)
    case Some(a) => AssignStep(c, a)
    case None =>
      match Lookup(token)
      case None => Halt([], ExitOne(UnknownAction(token)))
      case Some(k) => ActionStep(c, Perform(k, c, name, inst, host, onlyShow))
  }

  /** What each token does, by configuration, position and token. */
  type StepFn = (Config, nat, string) -> Step

  /** The step of `main()`'s loop, with `hosts(i)` what the host reports
      while the token at position `i` runs. */
  function Steps(name: string, inst: Installation, hosts: nat -> Host, onlyShow: bool): StepFn
  {
    (c: Config, i: nat, t: string) => TokenStep(c, name, inst, hosts(i), onlyShow, t)
  }

  function Prepend(events: seq<Event>, b: Batch): Batch
  {
    Batch(events + b.events, b.exit, b.config)
  }

  lemma PrependPrepend(a: seq<Event>, b: seq<Event>, x: Batch)
    ensures Prepend(a, Prepend(b, x)) == Prepend(a + b, x)
  {
    assert a + (b + x.events) == (a + b) + x.events;
  }

  /** The loop over the tokens (qlever.py:597-625): each token in turn, until
      one halts. */
  function RunTokens(step: StepFn, c: Config, tokens: seq<string>, pos: nat): Batch
    decreases |tokens|
  {
    if tokens == [] then Batch([], Completed, c)
    else
      match step(c, pos, tokens[0])
      case Halt(events, exit) => Batch(events, exit, c)
      case Next(c', events) => Prepend(events, RunTokens(step, c', tokens[1..], pos + 1))
  }

  /** A token that succeeds lets the loop go on with the next one. */
  lemma RunTokensNext(step: StepFn, c: Config, tokens: seq<string>, pos: nat, c': Config, events: seq<Event>)
    requires tokens != [] && step(c, pos, tokens[0]) == Next(c', events)
    ensures RunTokens(step, c, tokens, pos) == Prepend(events, RunTokens(step, c', tokens[1..], pos + 1))
  {
  }

  /** A token that fails ends the loop. */
  lemma RunTokensHalt(step: StepFn, c: Config, tokens: seq<string>, pos: nat, events: seq<Event>, exit: Stopped)
    requires tokens != [] && step(c, pos, tokens[0]) == Halt(events, exit)
    ensures RunTokens(step, c, tokens, pos) == Batch(events, exit, c)
  {
  }

  // ---------------------------------------------------------------------
  // main

  /** The log level the configuration sets. */
  function ConfigLogLevel(c: Config): Result<string, Missing>
  {
    var level :- Read(c, "general", "log_level");
    Ok(Upper(level))
  }

  /** What the tokens do, given the dataset name and whether only to show. */
  type Script = (string, bool) -> StepFn

  /** The script of the actions object for the installation `inst`, where
      `hosts(i)` is what the host reports while the token at position `i`
      runs. */
  function ActionsScript(inst: Installation, hosts: nat -> Host): Script
  {
    (name: string, onlyShow: bool) => Steps(name, inst, hosts, onlyShow)
  }

  /** The level the first argument sets, if it is a log-level token. */
  function LevelArgument(argv: seq<string>): Option<string>
  {
    if |argv| > 1 then LogLevelArg(argv[1]) else None
  }

  /** The arguments once a log-level token is removed (`sys.argv[1:]`): the
      level token takes the place of the program name, so the tokens after
      the first are the action tokens, which no longer include the level. */
  function WithoutLevel(argv: seq<string>): (args: seq<string>)
    requires |argv| > 0
    ensures |args| > 0
    ensures |args| == |argv| - (if LevelArgument(argv).Some? then 1 else 0)
    ensures LevelArgument(argv).Some? ==> args[0] == argv[1] && args[1..] == argv[2..]
    ensures LevelArgument(argv).None? ==> args[1..] == argv[1..]
    ensures LevelArgument(argv).Some? ==> args == argv[1..]
    ensures LevelArgument(argv).None? ==> args == argv
  {
    if LevelArgument(argv).Some? then argv[1..] else argv
  }

  /** `main()` for the arguments `argv` (the program name first), the parsed
      Qleverfile and the script of the actions. */
  function Main(argv: seq<string>, parsed: Config, script: Script): RunResult
    requires |argv| > 0
  {
    if |argv| == 2 && argv[1] == "setup-autocompletion" then
      RunResult([CompletionScript(CompletionWords())], Completed)
    else Leveled(LevelArgument(argv), WithoutLevel(argv), parsed, script)
  }

  /** `main()` after the completion shortcut, given the level the first
      argument sets and the remaining arguments: the level is checked, and
      the actions object is created from the Qleverfile. */
  function Leveled(level: Option<string>, args: seq<string>, parsed: Config, script: Script): RunResult
    requires |args| > 0
  {
    if level.Some? && Upper(level.value) !in LogLevels then
      RunResult([], ExitOne(InvalidLogLevel(Upper(level.value))))
    else if "name" !in parsed.defaults then
      RunResult([], Uncaught(KeyMissing("DEFAULT", "name")))
    else
      var name := parsed.defaults["name"];
      Configured(level, args, Merge(parsed, DefaultsTable(name)), name, script)
  }

  /** `main()` once the actions object holds the configuration `c`: the log
      level from the configuration when none was given, the trailing `show`,
      and the token loop. */
  function Configured(level: Option<string>, args: seq<string>, c: Config, name: string, script: Script): RunResult
    requires |args| > 0
  {
    var configLevel := ConfigLogLevel(c);
    if (level.None? || Upper(level.value) == "NOTSET") && configLevel.Err? then
      RunResult([], Uncaught(CrashOf(configLevel.error)))
    else if (level.None? || Upper(level.value) == "NOTSET") && configLevel.value !in LogLevels then
      RunResult([], ExitOne(InvalidLogLevel(configLevel.value)))
    else
      var onlyShow := |args| > 1 && args[|args| - 1] == "show";
      var tokens := if onlyShow then args[1..|args| - 1] else args[1..];
      var b := RunTokens(script(name, onlyShow), c, tokens, 0);
      RunResult(b.events, b.exit)
  }

  /** `main()` as the source runs it: the actions object is created and
      updated in place while the tokens are processed one by one. */
  method Run(argv: seq<string>, parsed: Config, inst: Installation, hosts: nat -> Host) returns (result: RunResult)
    requires |argv| > 0
    ensures result == Main(argv, parsed, ActionsScript(inst, hosts))
  {
    if |argv| == 2 && argv[1] == "setup-autocompletion" {
      return RunResult([CompletionScript(CompletionWords())], Completed);
    }
    result := RunLeveled(LevelArgument(argv), WithoutLevel(argv), parsed, inst, hosts);
  }

  /** The level check and the creation of the actions object. */
  method RunLeveled(level: Option<string>, args: seq<string>, parsed: Config, inst: Installation, hosts: nat -> Host)
    returns (result: RunResult)
    requires |args| > 0
    ensures result == Leveled(level, args, parsed, ActionsScript(inst, hosts))
  {
    if level.Some? && Upper(level.value) !in LogLevels {
      return RunResult([], ExitOne(InvalidLogLevel(Upper(level.value))));
    }
    if "name" !in parsed.defaults {
      return RunResult([], Uncaught(KeyMissing("DEFAULT", "name")));
    }
    var actions := new Actions(parsed, inst);
    result := RunConfigured(actions, level, args, hosts);
  }

  /** The part of `main()` that runs on the actions object. */
  method RunConfigured(actions: Actions, level: Option<string>, args: seq<string>, hosts: nat -> Host)
    returns (result: RunResult)
    requires |args| > 0
    modifies actions
    ensures result == Configured(level, args, old(actions.Configuration()), actions.name, ActionsScript(actions.installation, hosts))
  {
    if level.None? || Upper(level.value) == "NOTSET" {
      var configLevel := ConfigLogLevel(actions.Configuration());
      if configLevel.Err? {
        return RunResult([], Uncaught(CrashOf(configLevel.error)));
      }
      if configLevel.value !in LogLevels {
        return RunResult([], ExitOne(InvalidLogLevel(configLevel.value)));
      }
    }
    var onlyShow := |args| > 1 && args[|args| - 1] == "show";
    var tokens := if onlyShow then args[1..|args| - 1] else args[1..];
    result := RunLoop(actions, hosts, onlyShow, tokens);
  }

  /** One pass of the `for` loop of `main()` on the actions object. */
  method RunToken(actions: Actions, host: Host, onlyShow: bool, token: string) returns (step: Step)
    modifies actions
    ensures step == TokenStep(old(actions.Configuration()), actions.name, actions.installation, host, onlyShow, token)
    ensures step.Next? ==> actions.Configuration() == step.config
  {
    var assignment := ParseAssignment(token);
    if assignment.Some? {
      step := RunAssignment(actions, assignment.value);
      return;
    }
    var k := Lookup(token);
    if k.None? {
      return Halt([], ExitOne(UnknownAction(token)));
    }
    step := RunNamedAction(actions, k.value, host, onlyShow);
  }

  /** `actions.set_config(section, option, value)` for an assignment token. */
  method RunAssignment(actions: Actions, a: Assignment) returns (step: Step)
    modifies actions
    ensures step == AssignStep(old(actions.Configuration()), a)
    ensures step.Next? ==> actions.Configuration() == step.config
  {
    var r := actions.SetConfig(a.section, a.option, a.value);
    if r.Err? {
      return Halt([], ExitOne(SetRejected(r.error)));
    }
    step := Next(actions.Configuration(), []);
  }

  /** `getattr(actions, action)(only_show=only_show)` and its exceptions. */
  method RunNamedAction(actions: Actions, k: ActionKind, host: Host, onlyShow: bool) returns (step: Step)
    ensures step == ActionStep(actions.Configuration(), Perform(k, actions.Configuration(), actions.name, actions.installation, host, onlyShow))
    ensures step.Next? ==> actions.Configuration() == step.config
  {
    var r := actions.RunAction(k, onlyShow, host);
    step := ActionStep(actions.Configuration(), r);
  }

  /** The `for` loop of `main()` (qlever.py:597-625) on the actions object:
      it stops at the first token that fails. */
  method RunLoop(actions: Actions, hosts: nat -> Host, onlyShow: bool, tokens: seq<string>) returns (result: RunResult)
    modifies actions
    ensures var b := RunTokens(Steps(actions.name, actions.installation, hosts, onlyShow), old(actions.Configuration()), tokens, 0);
            result == RunResult(b.events, b.exit)
  {
    ghost var step := Steps(actions.name, actions.installation, hosts, onlyShow);
    ghost var start := actions.Configuration();
    var events: seq<Event> := [];
    var i := 0;
    while i < |tokens|
      invariant 0 <= i <= |tokens|
      invariant RunTokens(step, start, tokens, 0) == Prepend(events, RunTokens(step, actions.Configuration(), tokens[i..], i))
    {
      assert tokens[i..][0] == tokens[i] && tokens[i..][1..] == tokens[i + 1..];
      ghost var c := actions.Configuration();
      var s := RunToken(actions, hosts(i), onlyShow, tokens[i]);
      assert step(c, i, tokens[i]) == s;
      if s.Halt? {
        RunTokensHalt(step, c, tokens[i..], i, s.events, s.exit);
        return RunResult(events + s.events, s.exit);
      }
      RunTokensNext(step, c, tokens[i..], i, s.config, s.events);
      PrependPrepend(events, s.events, RunTokens(step, s.config, tokens[i + 1..], i + 1));
      events := events + s.events;
      i := i + 1;
    }
    assert events + [] == events;
    result := RunResult(events, Completed);
  }
}

/** What `main()` promises about the token loop and the arguments. */
module DispatchProperties {
  import opened Wrappers
  import opened Text
  import opened ConfigStore
  import opened Registry
  import opened ActionSpec
  import opened Dispatch

  /** Running `ts + more` is running `ts` and, only if every token of `ts`
      succeeded, then running `more` on the configuration `ts` left: the
      loop stops at the first failure and never looks at the later tokens. */
  lemma {:induction false} RunTokensAppend(step: StepFn, c: Config, ts: seq<string>, more: seq<string>, pos: nat)
    ensures var b := RunTokens(step, c, ts, pos);
            RunTokens(step, c, ts + more, pos)
            == if b.exit.Completed? then Prepend(b.events, RunTokens(step, b.config, more, pos + |ts|)) else b
    decreases |ts|
  {
    if ts == [] {
      assert ts + more == more;
      assert [] + RunTokens(step, c, more, pos).events == RunTokens(step, c, more, pos).events;
    } else {
      assert (ts + more)[0] == ts[0] && (ts + more)[1..] == ts[1..] + more;
      var s := step(c, pos, ts[0]);
      if s.Halt? {
        RunTokensHalt(step, c, ts, pos, s.events, s.exit);
        RunTokensHalt(step, c, ts + more, pos, s.events, s.exit);
      } else {
        RunTokensNext(step, c, ts, pos, s.config, s.events);
        RunTokensNext(step, c, ts + more, pos, s.config, s.events);
        RunTokensAppend(step, s.config, ts[1..], more, pos + 1);
        var b := RunTokens(step, s.config, ts[1..], pos + 1);
        if b.exit.Completed? {
          PrependPrepend(s.events, b.events, RunTokens(step, b.config, more, pos + |ts|));
        }
      }
    }
  }

  /** A token that is neither an assignment nor an action name stops the
      loop with exit status 1 before anything else happens. */
  lemma UnknownTokenExits(c: Config, name: string, inst: Installation, host: Host, onlyShow: bool, t: string)
    requires ParseAssignment(t).None? && t !in ActionNames()
    ensures TokenStep(c, name, inst, host, onlyShow, t) == Halt([], ExitOne(UnknownAction(t)))
  {
  }

  /** An assignment token changes the configuration as `set_config` does and
      runs nothing; a rejected one stops the loop with exit status 1. */
  lemma AssignmentTokenSets(c: Config, name: string, inst: Installation, host: Host, onlyShow: bool,
                            a: Assignment, t: string)
    requires WordRun(a.section) && WordRun(a.option) && '\n' !in a.value && Spells(a, t)
    ensures TokenStep(c, name, inst, host, onlyShow, t)
         == match Set(c, a.section, a.option, a.value)
            case Ok(c') => Next(c', [])
            case Err(e) => Halt([], ExitOne(SetRejected(e)))
  {
    ParseAssignmentOf(a, t);
  }

  /** A step that runs nothing and is not an action failure. */
  predicate QuietStep(s: Step)
  {
    Quiet(s.events) && !(s.Halt? && s.exit.ExitOne? && s.exit.reason.ActionFailed?)
  }

  /** With `show` last, a token runs nothing and no action fails. */
  lemma TokenStepShowOnly(c: Config, name: string, inst: Installation, host: Host, t: string)
    ensures QuietStep(TokenStep(c, name, inst, host, true, t))
  {
    if ParseAssignment(t).None? && Lookup(t).Some? {
      ActionStepShowOnly(c, name, inst, host, t, Lookup(t).value);
    } else {
      OtherStepQuiet(c, name, inst, host, true, t);
    }
  }

  lemma ActionStepShowOnly(c: Config, name: string, inst: Installation, host: Host, t: string, k: ActionKind)
    requires ParseAssignment(t).None? && Lookup(t) == Some(k)
    ensures QuietStep(TokenStep(c, name, inst, host, true, t))
  {
    var r := Perform(k, c, name, inst, host, true);
    OnlyShowIsQuiet(k, c, name, inst, host);
    ActionStepQuiet(c, r);
  }

  /** An action result that runs nothing and does not fail is a quiet step. */
  lemma ActionStepQuiet(c: Config, r: ActionResult)
    requires Quiet(r.events) && !r.outcome.Failed?
    ensures QuietStep(ActionStep(c, r))
  {
  }

  /** Assignments and unknown tokens run nothing and are no action failure. */
  lemma OtherStepQuiet(c: Config, name: string, inst: Installation, host: Host, onlyShow: bool, t: string)
    requires ParseAssignment(t).Some? || Lookup(t).None?
    ensures QuietStep(TokenStep(c, name, inst, host, onlyShow, t))
  {
  }

  /** A loop whose every step is quiet runs nothing and ends in no action
      failure; it can still stop at an unknown token, a rejected assignment
      or a crash. */
  lemma {:induction false} QuietBatch(step: StepFn, c: Config, tokens: seq<string>, pos: nat)
    requires forall c': Config, i: nat, t: string :: QuietStep(step(c', i, t))
    ensures var b := RunTokens(step, c, tokens, pos);
            Quiet(b.events) && !(b.exit.ExitOne? && b.exit.reason.ActionFailed?)
    decreases |tokens|
  {
    if tokens != [] {
      var s := step(c, pos, tokens[0]);
      assert QuietStep(s);
      if s.Next? {
        QuietBatch(step, s.config, tokens[1..], pos + 1);
      }
    }
  }

  /** `qlever.py ... show` runs no command and kills no process, and no
      action fails, whatever the other arguments are. */
  lemma ShowRunsNothing(argv: seq<string>, parsed: Config, inst: Installation, hosts: nat -> Host)
    requires |argv| > 0
    ensures var r := Main(argv + ["show"], parsed, ActionsScript(inst, hosts));
            Quiet(r.events) && !(r.exit.ExitOne? && r.exit.reason.ActionFailed?)
  {
    ActionsScriptShowQuiet(inst, hosts);
    ShowOnlyQuiet(argv, parsed, ActionsScript(inst, hosts));
  }

  /** Every show-only step of the actions object is quiet. */
  lemma ActionsScriptShowQuiet(inst: Installation, hosts: nat -> Host)
    ensures forall name: string, c': Config, i: nat, t: string :: QuietStep(ActionsScript(inst, hosts)(name, true)(c', i, t))
  {
    forall name: string, c': Config, i: nat, t: string
      ensures QuietStep(ActionsScript(inst, hosts)(name, true)(c', i, t))
    {
      TokenStepShowOnly(c', name, inst, hosts(i), t);
    }
  }

  /** A trailing `show` is not a token of its own: once the log level
      passes, the tokens between the program name and `show` run, in order,
      with every action only showing. */
  lemma TrailingShowStripped(level: Option<string>, args: seq<string>, c: Config, name: string, script: Script)
    requires |args| > 0
    requires (level.None? || Upper(level.value) == "NOTSET") ==>
               ConfigLogLevel(c).Ok? && ConfigLogLevel(c).value in LogLevels
    ensures var b := RunTokens(script(name, true), c, args[1..], 0);
            Configured(level, args + ["show"], c, name, script) == RunResult(b.events, b.exit)
  {
    assert (args + ["show"])[1..|args|] == args[1..];
  }

  /** Past the completion shortcut, `main()` checks the level the first
      argument sets and goes on with the other arguments. */
  lemma MainLeveled(argv: seq<string>, parsed: Config, script: Script)
    requires |argv| > 0 && !(|argv| == 2 && argv[1] == "setup-autocompletion")
    ensures Main(argv, parsed, script) == Leveled(LevelArgument(argv), WithoutLevel(argv), parsed, script)
  {
  }

  /** With a valid level token, or none, and the dataset name, `main()`
      creates the actions object and goes on with its configuration. */
  lemma LeveledConfigured(level: Option<string>, args: seq<string>, parsed: Config, script: Script)
    requires |args| > 0
    requires level.Some? ==> Upper(level.value) in LogLevels
    requires "name" in parsed.defaults
    ensures var name := parsed.defaults["name"];
            Leveled(level, args, parsed, script) == Configured(level, args, Merge(parsed, DefaultsTable(name)), name, script)
  {
  }

  /** For any script whose steps are quiet when only showing, a trailing
      `show` makes the whole run quiet. */
  lemma ShowOnlyQuiet(argv: seq<string>, parsed: Config, script: Script)
    requires |argv| > 0
    requires forall name: string, c': Config, i: nat, t: string :: QuietStep(script(name, true)(c', i, t))
    ensures var r := Main(argv + ["show"], parsed, script);
            Quiet(r.events) && !(r.exit.ExitOne? && r.exit.reason.ActionFailed?)
  {
    var a := argv + ["show"];
    if !(|a| == 2 && a[1] == "setup-autocompletion") {
      MainLeveled(a, parsed, script);
      LeveledShowQuiet(LevelArgument(a), WithoutLevel(a), parsed, script);
    }
  }

  lemma LeveledShowQuiet(level: Option<string>, args: seq<string>, parsed: Config, script: Script)
    requires |args| > 1 && args[|args| - 1] == "show"
    requires forall name: string, c': Config, i: nat, t: string :: QuietStep(script(name, true)(c', i, t))
    ensures var r := Leveled(level, args, parsed, script);
            Quiet(r.events) && !(r.exit.ExitOne? && r.exit.reason.ActionFailed?)
  {
    if !(level.Some? && Upper(level.value) !in LogLevels) && "name" in parsed.defaults {
      var name := parsed.defaults["name"];
      LeveledConfigured(level, args, parsed, script);
      ConfiguredShowQuiet(level, args, Merge(parsed, DefaultsTable(name)), name, script);
    }
  }

  lemma ConfiguredShowQuiet(level: Option<string>, args: seq<string>, c: Config, name: string, script: Script)
    requires |args| > 1 && args[|args| - 1] == "show"
    requires forall name: string, c': Config, i: nat, t: string :: QuietStep(script(name, true)(c', i, t))
    ensures var r := Configured(level, args, c, name, script);
            Quiet(r.events) && !(r.exit.ExitOne? && r.exit.reason.ActionFailed?)
  {
    QuietBatch(script(name, true), c, args[1..|args| - 1], 0);
  }

  /** An action that fails (`ActionException`) ends the batch with exit
      status 1, whatever tokens follow it: they never run. */
  lemma FailedActionStops(c: Config, name: string, inst: Installation, hosts: nat -> Host, onlyShow: bool,
                          tokens: seq<string>, pos: nat, k: ActionKind)
    requires tokens != [] && ParseAssignment(tokens[0]).None? && Lookup(tokens[0]) == Some(k)
    requires Perform(k, c, name, inst, hosts(pos), onlyShow).outcome.Failed?
    ensures var r := Perform(k, c, name, inst, hosts(pos), onlyShow);
            RunTokens(Steps(name, inst, hosts, onlyShow), c, tokens, pos)
            == Batch(r.events, ExitOne(ActionFailed(r.outcome.message)), c)
  {
    var r := Perform(k, c, name, inst, hosts(pos), onlyShow);
    var step := Steps(name, inst, hosts, onlyShow);
    assert step(c, pos, tokens[0]) == ActionStep(c, r);
    RunTokensHalt(step, c, tokens, pos, r.events, ExitOne(ActionFailed(r.outcome.message)));
  }

  /** When the configuration's level is valid, `Configured` does not depend
      on whether a valid level was given. */
  lemma ConfiguredLevelChecked(level: Option<string>, args: seq<string>, c: Config, name: string, script: Script)
    requires |args| > 0
    requires ConfigLogLevel(c).Ok? && ConfigLogLevel(c).value in LogLevels
    ensures Configured(level, args, c, name, script) == Configured(None, args, c, name, script)
  {
  }
}
