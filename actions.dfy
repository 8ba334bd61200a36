/** What each action of the control script does, as a function of the merged
    configuration, the installation probes and what the host reports: the
    events it causes, in order, and how it ends (qlever.py:210-520). The
    host's answers (file sizes, existing index files, running servers,
    listening ports, processes) are inputs; nothing here talks to a host. */
module ActionSpec {
  import opened Wrappers
  import opened Text
  import opened ConfigStore
  import opened Render
  import opened Findings
  import opened Registry

  /** What `check_installation` found out (qlever.py:125-168). */
  datatype Installation = Installation(netConnections: bool, docker: bool)

  /** A process as `psutil` reports it: its id, its arguments and whether
      `kill` on it succeeds. */
  datatype ProcInfo = ProcInfo(pid: nat, argv: seq<string>, killable: bool)

  /** The answers of the host to what the actions ask it. A process that
      vanished before its information could be read is `None`. */
  datatype Host = Host(
    sizes: Sizes,
    indexFiles: seq<string>,
    serverAlive: bool,
    listening: seq<nat>,
    dockerStopSucceeds: bool,
    processes: seq<Option<ProcInfo>>)

  /** What an action does that can be observed from outside. */
  datatype Event =
    | Show(text: string)
    | WriteFile(path: string, contents: string)
    | Execute(command: string)
    | Kill(pid: nat)
    | ReportSize(bytes: nat)
    | Listed(pid: nat, commandLine: string)
    | PrintConfig
    | CompletionScript(words: seq<string>)

  /** An exception other than `ActionException`: it ends the script with a
      stack trace. */
  datatype Crash =
    | KeyMissing(section: string, option: string)
    | NoSection(section: string)
    | ProcessInfoUnbound

  /** How an action ends: normally, with an `ActionException` and its
      message, or with another exception. */
  datatype Outcome = Done | Failed(message: string) | Crashed(crash: Crash)

  datatype ActionResult = ActionResult(events: seq<Event>, outcome: Outcome)

  function CrashOf(m: Missing): Crash
  {
    KeyMissing(m.section, m.option)
  }

  /** The events contain no command run and no process killed. */
  predicate Quiet(events: seq<Event>)
  {
    forall i :: 0 <= i < |events| ==> !events[i].Execute? && !events[i].Kill?
  }

  /** Every command that is run was shown before. */
  predicate ShownBeforeRun(events: seq<Event>)
  {
    forall i :: 0 <= i < |events| && events[i].Execute? ==>
      exists j :: 0 <= j < i && events[j] == Show(events[i].command)
  }

  // ---------------------------------------------------------------------
  // index

  function SettingsPath(name: string): string
  {
    name + ".settings.json"
  }

  function IndexExistsMessage(name: string): string
  {
    "Index files for dataset " + name + " already exist, please delete them if you want to rebuild the index"
  }

  /** `action_index` (qlever.py:253-311): the settings file is opened for
      writing before its contents are read, so a missing `settings_json`
      leaves it empty; then the command is shown, and unless only showing,
      it runs when no index file of the dataset exists. */
  function IndexAction(c: Config, name: string, host: Host, onlyShow: bool): ActionResult
  {
    match Read(c, "index", "settings_json")
    case Err(m) => ActionResult([WriteFile(SettingsPath(name), "")], Crashed(CrashOf(m)))
    case Ok(settings) =>
      var written := [WriteFile(SettingsPath(name), settings)];
      match ReadIndexConfig(c)
      case Err(m) => ActionResult(written, Crashed(CrashOf(m)))
      case Ok(cfg) =>
        Launch(written, IndexCommand(name, cfg, TotalSize(Words(cfg.fileNames), host.sizes)), onlyShow,
               if host.indexFiles != [] then Some(IndexExistsMessage(name)) else None, Done)
  }

  /** The common tail of index and start: the command is shown; unless only
      showing, a blocking condition fails the action with its message, and
      otherwise the command runs and the action ends as `after` says. */
  function Launch(before: seq<Event>, cmd: string, onlyShow: bool, blocked: Option<string>, after: Outcome): ActionResult
  {
    var shown := before + [Show(cmd)];
    if onlyShow then ActionResult(shown, Done)
    else match blocked
      case Some(message) => ActionResult(shown, Failed(message))
      case None => ActionResult(shown + [Execute(cmd)], after)
  }

  // ---------------------------------------------------------------------
  // start

  function AliveMessage(port: string): string
  {
    "QLever server already running on port " + port
  }

  function PortInUseMessage(port: string): string
  {
    "Port " + port + " is already in use by another process"
  }

  /** `action_start` (qlever.py:319-386), with the port test read as `v`
      says: the command is shown, and unless only showing, it runs when no
      server answers on the port and, where the network connections can be
      listed, the port test does not fire. After the launch the `[data]`
      section is consulted for the descriptions. */
  function StartAction(v: Variant, c: Config, name: string, inst: Installation, host: Host, onlyShow: bool): ActionResult
  {
    match ReadServerConfig(c)
    case Err(m) => ActionResult([], Crashed(CrashOf(m)))
    case Ok(cfg) =>
      Launch([], StartCommand(name, cfg), onlyShow, StartBlocker(v, cfg.port, inst, host),
             if "data" !in c.sections then Crashed(NoSection("data")) else Done)
  }

  /** Why the server must not be launched, if it must not: a server answers
      on the port, or the port test fires. */
  function StartBlocker(v: Variant, port: string, inst: Installation, host: Host): Option<string>
  {
    if host.serverAlive then Some(AliveMessage(port))
    else if inst.netConnections && PortCheck(v, port, host.listening) then Some(PortInUseMessage(port))
    else None
  }

  // ---------------------------------------------------------------------
  // get-data

  const NoGetDataMessage: string := "No GET_DATA_CMD specified in Qleverfile"

  /** `action_get_data` (qlever.py:233-251): an empty command is reported and
      nothing else happens; otherwise it is shown, and unless only showing,
      run, and the total size of the input files reported. */
  function GetDataAction(c: Config, host: Host, onlyShow: bool): ActionResult
  {
    match Read(c, "data", "get_data_cmd")
    case Err(m) => ActionResult([], Crashed(CrashOf(m)))
    case Ok(cmd) =>
      if cmd == "" then ActionResult([Show(NoGetDataMessage)], Done)
      else if onlyShow then ActionResult([Show(cmd)], Done)
      else
        match Read(c, "index", "file_names")
        case Err(m) => ActionResult([Show(cmd), Execute(cmd)], Crashed(CrashOf(m)))
        case Ok(files) =>
          ActionResult([Show(cmd), Execute(cmd), ReportSize(TotalSize(Words(files), host.sizes))], Done)
  }

  // ---------------------------------------------------------------------
  // show-config

  /** `action_show_config` (qlever.py:210-231) prints the configuration,
      also when only showing. */
  function ShowConfigAction(): ActionResult
  {
    ActionResult([PrintConfig], Done)
  }

  // ---------------------------------------------------------------------
  // stop

  function CommandOf(p: ProcInfo): string
  {
    Join(p.argv, " ")
  }

  /** The process matches the stop pattern with the given gap (see
      `Findings`). */
  predicate ServerMatch(gap: Gap, binary: string, name: string, p: ProcInfo)
  {
    StopMatches(gap, binary, name, CommandOf(p))
  }

  /** The result of the scan over the processes. */
  datatype Search = Found(proc: ProcInfo) | NotFound | Unbound

  /** The scan loop of `action_stop` (qlever.py:453-470). When a process's
      information cannot be read, the variables of the previous iteration
      are matched again; on the first iteration there are none. */
  function FindServer(gap: Gap, binary: string, name: string, procs: seq<Option<ProcInfo>>, last: Option<ProcInfo>): Search
    decreases |procs|
  {
    if procs == [] then NotFound
    else
      var current := if procs[0].Some? then procs[0] else last;
      match current
      case None => Unbound
      case Some(p) =>
        if ServerMatch(gap, binary, name, p) then Found(p)
        else FindServer(gap, binary, name, procs[1..], current)
  }

  /** The first process, among those that could be read, that matches. */
  function FirstMatch(gap: Gap, binary: string, name: string, procs: seq<Option<ProcInfo>>): Option<ProcInfo>
    decreases |procs|
  {
    if procs == [] then None
    else if procs[0].Some? && ServerMatch(gap, binary, name, procs[0].value) then procs[0]
    else FirstMatch(gap, binary, name, procs[1..])
  }

  function StopMessage(container: string, pattern: string): string
  {
    "Checking for Docker container with name \"" + container + "\" and for processes matching: " + pattern
  }

  function DockerStopCommand(container: string): string
  {
    "docker stop " + container + " && docker rm " + container
  }

  function KillFailedMessage(pid: nat): string
  {
    "Could not kill process with PID " + Decimal(pid)
  }

  const NothingToStopMessage: string := "No matching Docker container or process found"

  /** `action_stop` (qlever.py:418-475), with the search pattern read as `v`
      says: the container is stopped if Docker works and the stop succeeds;
      otherwise the first matching process is killed, and with none the
      action fails. */
  function StopAction(v: Variant, c: Config, name: string, inst: Installation, host: Host, onlyShow: bool): ActionResult
  {
    match Read(c, "docker", "container_server")
    case Err(m) => ActionResult([], Crashed(CrashOf(m)))
    case Ok(container) =>
      match Read(c, "server", "binary")
      case Err(m) => ActionResult([], Crashed(CrashOf(m)))
      case Ok(binary) =>
        var shown := [Show(StopMessage(container, StopPatternText(GapOf(v), binary, name)))];
        if onlyShow then ActionResult(shown, Done)
        else if inst.docker && host.dockerStopSucceeds then
          ActionResult(shown + [Execute(DockerStopCommand(container))], Done)
        else
          var tried := shown + (if inst.docker then [Execute(DockerStopCommand(container))] else []);
          match FindServer(GapOf(v), binary, name, host.processes, None)
          case Unbound => ActionResult(tried, Crashed(ProcessInfoUnbound))
          case NotFound => ActionResult(tried, Failed(NothingToStopMessage))
          case Found(p) =>
            ActionResult(tried + [Kill(p.pid)], if p.killable then Done else Failed(KillFailedMessage(p.pid)))
  }

  // ---------------------------------------------------------------------
  // status

  /** `re.match("^(ServerMain|IndexBuilderMain)", cmdline)`. */
  predicate QleverCommand(cmd: string)
  {
    "ServerMain" <= cmd || "IndexBuilderMain" <= cmd
  }

  /** The processes `action_status` lists, in order; unreadable ones are
      skipped (qlever.py:496-507). */
  function Listing(procs: seq<Option<ProcInfo>>): seq<Event>
    decreases |procs|
  {
    if procs == [] then []
    else
      var rest := Listing(procs[..|procs| - 1]);
      match procs[|procs| - 1]
      case None => rest
      case Some(p) => if QleverCommand(CommandOf(p)) then rest + [Listed(p.pid, CommandOf(p))] else rest
  }

  const StatusMessage: string :=
    "All processes on this machine where the command line matches ^(ServerMain|IndexBuilderMain) using Python's psutil library"
  const StatusOnlyShowMessage: string := "If executed, show processes using psutil"
  const NoProcessesMessage: string := "No processes found"

  /** `action_status` (qlever.py:478-520). */
  function StatusAction(host: Host, onlyShow: bool): ActionResult
  {
    if onlyShow then ActionResult([Show(StatusMessage), Show(StatusOnlyShowMessage)], Done)
    else
      var listed := Listing(host.processes);
      ActionResult([Show(StatusMessage)] + listed + (if listed == [] then [Show(NoProcessesMessage)] else []), Done)
  }

  // ---------------------------------------------------------------------
  // All actions

  /** The action `k` of the program as written. */
  function Perform(k: ActionKind, c: Config, name: string, inst: Installation, host: Host, onlyShow: bool): ActionResult
  {
    match k
    case ShowConfig => ShowConfigAction()
    case GetData => GetDataAction(c, host, onlyShow)
    case Index => IndexAction(c, name, host, onlyShow)
    case Start => StartAction(AsWritten, c, name, inst, host, onlyShow)
    case Stop => StopAction(AsWritten, c, name, inst, host, onlyShow)
    case Status => StatusAction(host, onlyShow)
  }

  // ---------------------------------------------------------------------
  // Properties

  /** When only showing, no action runs a command or kills a process, and
      none fails with an `ActionException`: index files, running servers,
      busy ports and processes are not even looked at. */
  lemma OnlyShowIsQuiet(k: ActionKind, c: Config, name: string, inst: Installation, host: Host)
    ensures var r := Perform(k, c, name, inst, host, true);
            Quiet(r.events) && !r.outcome.Failed?
  {
    match k
    case Index => IndexRunsIff(c, name, host, true);
    case Start => StartRunsIff(AsWritten, c, name, inst, host, true);
    case GetData => GetDataRunsIff(c, host, true);
    case ShowConfig =>
    case Stop =>
    case Status =>
  }

  /** A quiet list of events runs nothing, so it runs nothing it did not
      show. */
  lemma QuietShown(events: seq<Event>)
    requires Quiet(events)
    ensures ShownBeforeRun(events)
  {
  }

  /** Showing a command and then running it, between events that run
      nothing, runs only what was shown. */
  lemma {:induction false} ShowThenRun(pre: seq<Event>, cmd: string, post: seq<Event>)
    requires Quiet(pre) && Quiet(post)
    ensures ShownBeforeRun(pre + [Show(cmd), Execute(cmd)] + post)
  {
    var events := pre + [Show(cmd), Execute(cmd)] + post;
    forall i | 0 <= i < |events| && events[i].Execute?
      ensures exists j :: 0 <= j < i && events[j] == Show(events[i].command)
    {
      assert i == |pre| + 1;
      assert events[i - 1] == Show(cmd);
    }
  }

  /** A launch runs the command iff it is not only showing and nothing
      blocks it, and then right after showing it. */
  lemma LaunchRuns(before: seq<Event>, cmd: string, onlyShow: bool, blocked: Option<string>, after: Outcome)
    requires Quiet(before)
    ensures var r := Launch(before, cmd, onlyShow, blocked, after);
            && (!Quiet(r.events) <==> !onlyShow && blocked.None?)
            && (!Quiet(r.events) ==> r == ActionResult(before + [Show(cmd), Execute(cmd)], after))
            && (Quiet(r.events) ==> r.events == before + [Show(cmd)]
                                    && r.outcome == if onlyShow then Done else Failed(blocked.value))
            && ShownBeforeRun(r.events)
  {
    var r := Launch(before, cmd, onlyShow, blocked, after);
    if onlyShow || blocked.Some? {
      assert Quiet(r.events);
      QuietShown(r.events);
    } else {
      assert r.events == before + [Show(cmd), Execute(cmd)];
      assert r.events[|before| + 1] == Execute(cmd);
      ShowThenRun(before, cmd, []);
      assert before + [Show(cmd), Execute(cmd)] + [] == r.events;
    }
  }

  /** The index builder runs iff the action is not only showing, every
      setting it needs is present and no index file of the dataset exists;
      what runs is the index command over the total size of the input
      files, right after it is shown, and existing index files make the
      action fail. */
  lemma IndexRunsIff(c: Config, name: string, host: Host, onlyShow: bool)
    ensures var r := IndexAction(c, name, host, onlyShow);
            var settings := Get(c, "index", "settings_json");
            var cfg := ReadIndexConfig(c);
            && (!Quiet(r.events) <==> !onlyShow && settings.Some? && cfg.Ok? && host.indexFiles == [])
            && (!Quiet(r.events) ==>
                  var cmd := IndexCommand(name, cfg.value, TotalSize(Words(cfg.value.fileNames), host.sizes));
                  r == ActionResult([WriteFile(SettingsPath(name), settings.value), Show(cmd), Execute(cmd)], Done))
            && (!onlyShow && settings.Some? && cfg.Ok? && host.indexFiles != [] ==>
                  r.outcome == Failed(IndexExistsMessage(name)))
            && (onlyShow ==> !r.outcome.Failed?)
            && ShownBeforeRun(r.events)
  {
    if Get(c, "index", "settings_json").None? || ReadIndexConfig(c).Err? {
      IndexCrashes(c, name, host, onlyShow);
      QuietShown(IndexAction(c, name, host, onlyShow).events);
    } else {
      IndexLaunches(c, name, host, onlyShow);
      var cfg := ReadIndexConfig(c).value;
      LaunchRuns([WriteFile(SettingsPath(name), Get(c, "index", "settings_json").value)],
                 IndexCommand(name, cfg, TotalSize(Words(cfg.fileNames), host.sizes)), onlyShow,
                 if host.indexFiles != [] then Some(IndexExistsMessage(name)) else None, Done);
    }
  }

  /** The settings file is written first, also when only showing; it is
      left empty when `settings_json` is missing. */
  lemma IndexWritesSettingsFirst(c: Config, name: string, host: Host, onlyShow: bool)
    ensures var r := IndexAction(c, name, host, onlyShow);
            var settings := Get(c, "index", "settings_json");
            |r.events| > 0 && r.events[0] == WriteFile(SettingsPath(name), if settings.Some? then settings.value else "")
  {
    if Get(c, "index", "settings_json").Some? && ReadIndexConfig(c).Ok? {
      IndexLaunches(c, name, host, onlyShow);
    }
  }

  lemma IndexCrashes(c: Config, name: string, host: Host, onlyShow: bool)
    requires Get(c, "index", "settings_json").None? || ReadIndexConfig(c).Err?
    ensures var r := IndexAction(c, name, host, onlyShow);
            |r.events| == 1 && r.events[0].WriteFile? && r.outcome.Crashed?
  {
  }

  lemma IndexLaunches(c: Config, name: string, host: Host, onlyShow: bool)
    requires Get(c, "index", "settings_json").Some? && ReadIndexConfig(c).Ok?
    ensures var settings := Get(c, "index", "settings_json").value;
            var cfg := ReadIndexConfig(c).value;
            var cmd := IndexCommand(name, cfg, TotalSize(Words(cfg.fileNames), host.sizes));
            var written := [WriteFile(SettingsPath(name), settings)];
            var blocked := if host.indexFiles != [] then Some(IndexExistsMessage(name)) else None;
            IndexAction(c, name, host, onlyShow) == Launch(written, cmd, onlyShow, blocked, Done)
  {
  }

  /** In either reading of the port test, the server is launched iff the
      action is not only showing, its settings are present, no server
      answers on the port and, where connections can be listed, the port
      test does not fire; what runs is the start command, right after it is
      shown. When only showing, the same command is shown and nothing else
      happens. */
  lemma StartRunsIff(v: Variant, c: Config, name: string, inst: Installation, host: Host, onlyShow: bool)
    ensures var r := StartAction(v, c, name, inst, host, onlyShow);
            var cfg := ReadServerConfig(c);
            && (!Quiet(r.events) <==>
                  && !onlyShow && cfg.Ok? && !host.serverAlive
                  && !(inst.netConnections && PortCheck(v, cfg.value.port, host.listening)))
            && (!Quiet(r.events) ==> r.events == [Show(StartCommand(name, cfg.value)), Execute(StartCommand(name, cfg.value))])
            && (cfg.Ok? && !onlyShow && host.serverAlive ==> r.outcome == Failed(AliveMessage(cfg.value.port)))
            && (cfg.Ok? && !onlyShow && !host.serverAlive && inst.netConnections && PortCheck(v, cfg.value.port, host.listening) ==>
                  r.outcome == Failed(PortInUseMessage(cfg.value.port)))
            && (onlyShow ==> !r.outcome.Failed?)
            && (onlyShow && cfg.Ok? ==> r == ActionResult([Show(StartCommand(name, cfg.value))], Done))
            && ShownBeforeRun(r.events)
  {
    var r := StartAction(v, c, name, inst, host, onlyShow);
    match ReadServerConfig(c)
    case Err(_) =>
      assert Quiet(r.events);
      QuietShown(r.events);
    case Ok(cfg) =>
      LaunchRuns([], StartCommand(name, cfg), onlyShow, StartBlocker(v, cfg.port, inst, host),
                 if "data" !in c.sections then Crashed(NoSection("data")) else Done);
      assert [] + [Show(StartCommand(name, cfg)), Execute(StartCommand(name, cfg))]
          == [Show(StartCommand(name, cfg)), Execute(StartCommand(name, cfg))];
  }

  /** With the port test as intended, a port given in decimal that some
      process listens on blocks the launch, where connections can be
      listed. */
  lemma StartRefusesTakenPort(c: Config, name: string, inst: Installation, host: Host, port: nat)
    requires ReadServerConfig(c).Ok? && ReadServerConfig(c).value.port == Decimal(port)
    requires inst.netConnections && port in host.listening && !host.serverAlive
    ensures var r := StartAction(Intended, c, name, inst, host, false);
            Quiet(r.events) && r.outcome == Failed(PortInUseMessage(Decimal(port)))
  {
    PortTakenIff(port, host.listening);
    StartRunsIff(Intended, c, name, inst, host, false);
  }

  /** As written, `start` launches the server whenever no server answers,
      also when a process listens on the port: the port test never fires. */
  lemma StartIgnoresTakenPort(c: Config, name: string, inst: Installation, host: Host)
    requires ReadServerConfig(c).Ok? && !host.serverAlive
    ensures var r := StartAction(AsWritten, c, name, inst, host, false);
            var cmd := StartCommand(name, ReadServerConfig(c).value);
            r.events == [Show(cmd), Execute(cmd)]
  {
    PortCheckAsWritten(ReadServerConfig(c).value.port, host.listening);
    StartRunsIff(AsWritten, c, name, inst, host, false);
  }

  /** The get-data command runs iff the action is not only showing and the
      command is non-empty; it runs right after it is shown. When only
      showing, a non-empty command is shown and nothing else happens. */
  lemma GetDataRunsIff(c: Config, host: Host, onlyShow: bool)
    ensures var r := GetDataAction(c, host, onlyShow);
            var cmd := Get(c, "data", "get_data_cmd");
            && (!Quiet(r.events) <==> !onlyShow && Truthy(cmd))
            && (!Quiet(r.events) ==> |r.events| >= 2 && r.events[..2] == [Show(cmd.value), Execute(cmd.value)]
                                     && Quiet(r.events[2..]))
            && (onlyShow && Truthy(cmd) ==> r == ActionResult([Show(cmd.value)], Done))
            && ShownBeforeRun(r.events)
  {
    var r := GetDataAction(c, host, onlyShow);
    match Read(c, "data", "get_data_cmd")
    case Err(_) =>
      assert Quiet(r.events);
      QuietShown(r.events);
    case Ok(cmd) =>
      if cmd == "" || onlyShow {
        assert |r.events| == 1 && !r.events[0].Execute? && !r.events[0].Kill?;
        QuietShown(r.events);
      } else {
        assert r.events[1] == Execute(cmd);
        assert r.events[..2] == [Show(cmd), Execute(cmd)];
        var post := r.events[2..];
        assert Quiet(post);
        ShowThenRun([], cmd, post);
        assert r.events == [] + [Show(cmd), Execute(cmd)] + post;
      }
  }

  /** Index, start and get-data run only commands they showed before. */
  lemma RunsWhatItShows(k: ActionKind, c: Config, name: string, inst: Installation, host: Host, onlyShow: bool)
    requires k != Stop
    ensures ShownBeforeRun(Perform(k, c, name, inst, host, onlyShow).events)
  {
    match k
    case Index => IndexRunsIff(c, name, host, onlyShow);
    case Start => StartRunsIff(AsWritten, c, name, inst, host, onlyShow);
    case GetData => GetDataRunsIff(c, host, onlyShow);
    case ShowConfig => QuietShown(ShowConfigAction().events);
    case Status =>
      var r := StatusAction(host, onlyShow);
      assert Quiet(r.events) by {
        ListingQuiet(host.processes);
      }
      QuietShown(r.events);
  }

  /** The listing runs nothing. */
  lemma {:induction false} ListingQuiet(procs: seq<Option<ProcInfo>>)
    ensures Quiet(Listing(procs))
    decreases |procs|
  {
    if procs != [] {
      ListingQuiet(procs[..|procs| - 1]);
    }
  }

  function AsSearch(m: Option<ProcInfo>): Search
  {
    match m
    case None => NotFound
    case Some(p) => Found(p)
  }

  /** An unreadable process after the first is skipped: the scan finds the
      first readable process that matches. */
  lemma {:induction false} FindServerSkips(gap: Gap, binary: string, name: string, procs: seq<Option<ProcInfo>>, last: Option<ProcInfo>)
    requires last.Some? ==> !ServerMatch(gap, binary, name, last.value)
    requires last.None? ==> procs == [] || procs[0].Some?
    ensures FindServer(gap, binary, name, procs, last) == AsSearch(FirstMatch(gap, binary, name, procs))
    decreases |procs|
  {
    if procs != [] {
      var current := if procs[0].Some? then procs[0] else last;
      if !ServerMatch(gap, binary, name, current.value) {
        FindServerSkips(gap, binary, name, procs[1..], current);
      }
    }
  }

  /** `FirstMatch` finds the first readable matching process, and nothing
      when no readable process matches. */
  lemma {:induction false} FirstMatchIsFirst(gap: Gap, binary: string, name: string, procs: seq<Option<ProcInfo>>)
    ensures var r := FirstMatch(gap, binary, name, procs);
            && (r.None? ==> forall i :: 0 <= i < |procs| && procs[i].Some? ==> !ServerMatch(gap, binary, name, procs[i].value))
            && (r.Some? ==>
                  exists i :: 0 <= i < |procs| && procs[i] == r && ServerMatch(gap, binary, name, r.value)
                    && forall j :: 0 <= j < i && procs[j].Some? ==> !ServerMatch(gap, binary, name, procs[j].value))
    decreases |procs|
  {
    if procs != [] && !(procs[0].Some? && ServerMatch(gap, binary, name, procs[0].value)) {
      var tail := procs[1..];
      FirstMatchIsFirst(gap, binary, name, tail);
      var r := FirstMatch(gap, binary, name, tail);
      if r.Some? {
        var i :| 0 <= i < |tail| && tail[i] == r && ServerMatch(gap, binary, name, r.value)
                 && forall j :: 0 <= j < i && tail[j].Some? ==> !ServerMatch(gap, binary, name, tail[j].value);
        assert procs[i + 1] == r;
        forall j | 0 <= j < i + 1 && procs[j].Some? ensures !ServerMatch(gap, binary, name, procs[j].value) {
          if j > 0 {
            assert procs[j] == tail[j - 1];
          }
        }
      } else {
        forall i | 0 <= i < |procs| && procs[i].Some? ensures !ServerMatch(gap, binary, name, procs[i].value) {
          if i > 0 {
            assert procs[i] == tail[i - 1];
          }
        }
      }
    }
  }

  /** In either reading of the pattern, unless the container was stopped,
      `stop` kills the first readable process that matches the pattern, and
      fails when there is none or the kill fails. */
  lemma StopKillsFirstMatch(v: Variant, c: Config, name: string, inst: Installation, host: Host)
    requires Get(c, "docker", "container_server").Some? && Get(c, "server", "binary").Some?
    requires !(inst.docker && host.dockerStopSucceeds)
    requires host.processes == [] || host.processes[0].Some?
    ensures var r := StopAction(v, c, name, inst, host, false);
            match FirstMatch(GapOf(v), Get(c, "server", "binary").value, name, host.processes)
            case None => r.outcome == Failed(NothingToStopMessage) && forall i :: 0 <= i < |r.events| ==> !r.events[i].Kill?
            case Some(p) => r.events[|r.events| - 1] == Kill(p.pid) && (r.outcome == Done <==> p.killable)
  {
    FindServerSkips(GapOf(v), Get(c, "server", "binary").value, name, host.processes, None);
  }

  /** In either reading of the pattern, unless the container was stopped,
      `stop` crashes when the details of the first listed process cannot be
      read: `cmdline` is then unbound when the pattern is matched against
      it, so the process is not skipped, and nothing is killed. */
  lemma StopCrashesOnUnreadableFirst(v: Variant, c: Config, name: string, inst: Installation, host: Host)
    requires Get(c, "docker", "container_server").Some? && Get(c, "server", "binary").Some?
    requires !(inst.docker && host.dockerStopSucceeds)
    requires host.processes != [] && host.processes[0].None?
    ensures var r := StopAction(v, c, name, inst, host, false);
            r.outcome == Crashed(ProcessInfoUnbound) && forall i :: 0 <= i < |r.events| ==> !r.events[i].Kill?
  {
  }

  /** With the pattern as intended, `stop` finds the server that `start`
      launched: when its process is readable, killable, and no readable
      process before it matches, `stop` kills it and succeeds. */
  lemma StopFindsStartedServer(c: Config, name: string, inst: Installation, host: Host, i: nat)
    requires ReadServerConfig(c).Ok? && Get(c, "docker", "container_server").Some?
    requires !(inst.docker && host.dockerStopSucceeds)
    requires i < |host.processes| && host.processes[0].Some?
    requires host.processes[i].Some? && host.processes[i].value.killable
    requires CommandOf(host.processes[i].value) == ServerProcessLine(name, ReadServerConfig(c).value)
    requires forall j :: 0 <= j < i && host.processes[j].Some? ==>
               !ServerMatch(AnyRun, ReadServerConfig(c).value.binary, name, host.processes[j].value)
    ensures var r := StopAction(Intended, c, name, inst, host, false);
            r.outcome == Done && r.events[|r.events| - 1] == Kill(host.processes[i].value.pid)
  {
    var cfg := ReadServerConfig(c).value;
    CorrectedFindsServer(name, cfg);
    FirstMatchAt(AnyRun, cfg.binary, name, host.processes, i);
    StopKillsFirstMatch(Intended, c, name, inst, host);
  }

  /** A readable matching process with no readable match before it is the
      first match. */
  lemma FirstMatchAt(gap: Gap, binary: string, name: string, procs: seq<Option<ProcInfo>>, i: nat)
    requires i < |procs| && procs[i].Some? && ServerMatch(gap, binary, name, procs[i].value)
    requires forall j :: 0 <= j < i && procs[j].Some? ==> !ServerMatch(gap, binary, name, procs[j].value)
    ensures FirstMatch(gap, binary, name, procs) == procs[i]
  {
    FirstMatchIsFirst(gap, binary, name, procs);
    var m := FirstMatch(gap, binary, name, procs);
    var i' :| 0 <= i' < |procs| && procs[i'] == m && ServerMatch(gap, binary, name, m.value)
              && forall j :: 0 <= j < i' && procs[j].Some? ==> !ServerMatch(gap, binary, name, procs[j].value);
  }

  /** As written, `stop` never finds the server that `start` launched: when
      every readable process is that server or does not match, `stop` kills
      nothing and fails with "No matching Docker container or process
      found". */
  lemma StopMissesStartedServer(c: Config, name: string, inst: Installation, host: Host)
    requires ReadServerConfig(c).Ok? && Get(c, "docker", "container_server").Some?
    requires !(inst.docker && host.dockerStopSucceeds)
    requires host.processes == [] || host.processes[0].Some?
    requires forall j :: 0 <= j < |host.processes| && host.processes[j].Some? ==>
               || CommandOf(host.processes[j].value) == ServerProcessLine(name, ReadServerConfig(c).value)
               || !ServerMatch(NonBlankRun, ReadServerConfig(c).value.binary, name, host.processes[j].value)
    ensures var r := StopAction(AsWritten, c, name, inst, host, false);
            r.outcome == Failed(NothingToStopMessage) && forall i :: 0 <= i < |r.events| ==> !r.events[i].Kill?
  {
    var cfg := ReadServerConfig(c).value;
    var procs := host.processes;
    AsWrittenMissesServer(name, cfg);
    FirstMatchIsFirst(NonBlankRun, cfg.binary, name, procs);
    StopKillsFirstMatch(AsWritten, c, name, inst, host);
  }

  /** `status` lists exactly the readable processes whose command line
      starts with one of the two binaries. */
  lemma {:induction false} ListingIff(procs: seq<Option<ProcInfo>>, e: Event)
    ensures e in Listing(procs) <==>
            exists i :: 0 <= i < |procs| && procs[i].Some? && QleverCommand(CommandOf(procs[i].value))
                        && e == Listed(procs[i].value.pid, CommandOf(procs[i].value))
    decreases |procs|
  {
    if procs != [] {
      var init := procs[..|procs| - 1];
      ListingIff(init, e);
      if e in Listing(procs) && e !in Listing(init) {
        assert procs[|procs| - 1].Some?;
      }
      if e !in Listing(procs) {
        forall i | 0 <= i < |procs| && procs[i].Some? && QleverCommand(CommandOf(procs[i].value))
          ensures e != Listed(procs[i].value.pid, CommandOf(procs[i].value))
        {
          if i < |procs| - 1 {
            assert procs[i] == init[i];
          }
        }
      } else if e in Listing(init) {
        var i :| 0 <= i < |init| && init[i].Some? && QleverCommand(CommandOf(init[i].value))
                 && e == Listed(init[i].value.pid, CommandOf(init[i].value));
        assert procs[i] == init[i];
      }
    }
  }
}
