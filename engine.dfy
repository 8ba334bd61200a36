/** The actions object of the control script (qlever.py:61-520): the
    configuration it holds and updates in place, and the actions as methods
    that follow the specifications in `ActionSpec`. */
module Engine {
  import opened Wrappers
  import opened Text
  import opened ConfigStore
  import opened Render
  import opened Findings
  import opened Registry
  import opened ActionSpec

  /** The loop of `action_stop` over the running processes (qlever.py:453-472):
      a process whose details cannot be read reuses the previous one's, and
      the loop ends at the first match of the pattern with the given gap. */
  method FindServerIn(gap: Gap, binary: string, name: string, procs: seq<Option<ProcInfo>>) returns (s: Search)
    ensures s == FindServer(gap, binary, name, procs, None)
  {
    var last: Option<ProcInfo> := None;
    var i := 0;
    while i < |procs|
      invariant 0 <= i <= |procs|
      invariant FindServer(gap, binary, name, procs, None) == FindServer(gap, binary, name, procs[i..], last)
    {
      assert procs[i..][0] == procs[i] && procs[i..][1..] == procs[i + 1..];
      if procs[i].Some? {
        last := procs[i];
      }
      if last.None? {
        return Unbound;
      }
      var p := last.value;
      if ServerMatch(gap, binary, name, p) {
        return Found(p);
      }
      i := i + 1;
    }
    return NotFound;
  }

  class Actions {
    /** `self.name`, the dataset name from the `DEFAULT` section. */
    const name: string
    /** The `DEFAULT` section; nothing changes it after parsing. */
    const defaults: Options
    /** The named sections, filled with defaults and updated by
        `set_config`. */
    var sections: map<string, Options>
    /** `net_connections_enabled` and `docker_enabled`. */
    const installation: Installation

    function Configuration(): Config
      reads this
    {
      Config(defaults, sections)
    }

    /** `Actions()` on a parsed Qleverfile: the built-in defaults are filled
        in, section by section and option by option (qlever.py:63-106). The
        dataset name must be in the `DEFAULT` section; the caller handles
        the `KeyError` otherwise. */
    constructor (parsed: Config, inst: Installation)
      requires "name" in parsed.defaults
      ensures name == parsed.defaults["name"] && installation == inst
      ensures Configuration() == Merge(parsed, DefaultsTable(name))
    {
      name := parsed.defaults["name"];
      defaults := parsed.defaults;
      sections := parsed.sections;
      installation := inst;
      new;
      ApplyDefaults(DefaultsTable(name));
    }

    /** The outer loop of the defaults merge: one section after the other. */
    method ApplyDefaults(table: seq<SectionDefaults>)
      modifies this
      ensures Configuration() == Merge(old(Configuration()), table)
    {
      ghost var start := Configuration();
      var i := 0;
      while i < |table|
        invariant 0 <= i <= |table|
        invariant Configuration() == Merge(start, table[..i])
      {
        ApplySection(table[i]);
        assert table[..i + 1][..i] == table[..i];
        i := i + 1;
      }
      assert table[..|table|] == table;
    }

    /** The inner loop of the defaults merge: the section is created if it
        is missing, and each option whose value is missing or empty gets its
        default. */
    method ApplySection(d: SectionDefaults)
      modifies this
      ensures Configuration() == MergeSection(old(Configuration()), d)
    {
      ghost var before := Configuration();
      if d.section !in sections {
        sections := sections[d.section := map[]];
      }
      assert Configuration() == EnsureSection(before, d.section);
      var j := 0;
      while j < |d.options|
        invariant 0 <= j <= |d.options|
        invariant d.section in sections
        invariant Configuration() == FillOptions(EnsureSection(before, d.section), d.section, d.options[..j])
      {
        ghost var previous := Configuration();
        var (o, v) := d.options[j];
        if !Truthy(Get(Configuration(), d.section, o)) {
          sections := sections[d.section := sections[d.section][o := v]];
        }
        assert Configuration() == FillOption(previous, d.section, o, v);
        FillOptionsStep(EnsureSection(before, d.section), d.section, d.options, j);
        j := j + 1;
      }
      assert d.options[..|d.options|] == d.options;
    }

    /** `set_config(section, option, value)` (qlever.py:170-183): the
        configuration changes as `Set` says, and not at all when `Set`
        refuses. */
    method SetConfig(section: string, option: string, value: string) returns (r: Result<(), SetError>)
      modifies this
      ensures match Set(old(Configuration()), section, option, value)
              case Ok(c) => r.Ok? && Configuration() == c
              case Err(e) => r == Err(e) && Configuration() == old(Configuration())
    {
      var o := Lower(option);
      if section !in sections {
        return Err(NoSuchSection(section));
      }
      if !(o in sections[section] || o in defaults) {
        return Err(NoSuchOption(section, o));
      }
      sections := sections[section := sections[section][o := value]];
      r := Ok(());
    }

    /** `get_total_file_size(paths)` in bytes (qlever.py:185-195). */
    method GetTotalFileSize(paths: seq<string>, sizes: Sizes) returns (total: nat)
      ensures total == TotalSize(paths, sizes)
    {
      total := 0;
      var i := 0;
      while i < |paths|
        invariant 0 <= i <= |paths|
        invariant total == TotalSize(paths[..i], sizes)
      {
        var files := sizes(paths[i]);
        var j := 0;
        while j < |files|
          invariant 0 <= j <= |files|
          invariant total == TotalSize(paths[..i], sizes) + Sum(files[..j])
        {
          total := total + files[j];
          assert files[..j + 1][..j] == files[..j];
          j := j + 1;
        }
        assert files[..|files|] == files;
        assert paths[..i + 1][..i] == paths[..i];
        i := i + 1;
      }
      assert paths[..|paths|] == paths;
    }

    /** `action_index` (qlever.py:253-311). */
    method Index(onlyShow: bool, host: Host) returns (r: ActionResult)
      ensures r == IndexAction(Configuration(), name, host, onlyShow)
    {
      var c := Configuration();
      var settings := Read(c, "index", "settings_json");
      if settings.Err? {
        return ActionResult([WriteFile(SettingsPath(name), "")], Crashed(CrashOf(settings.error)));
      }
      var events := [WriteFile(SettingsPath(name), settings.value)];
      var cfg := ReadIndexConfig(c);
      if cfg.Err? {
        return ActionResult(events, Crashed(CrashOf(cfg.error)));
      }
      var total := GetTotalFileSize(Words(cfg.value.fileNames), host.sizes);
      var cmd := IndexCommand(name, cfg.value, total);
      events := events + [Show(cmd)];
      if onlyShow {
        return ActionResult(events, Done);
      }
      if host.indexFiles != [] {
        return ActionResult(events, Failed(IndexExistsMessage(name)));
      }
      r := ActionResult(events + [Execute(cmd)], Done);
    }

    /** `action_get_data` (qlever.py:233-251). */
    method GetData(onlyShow: bool, host: Host) returns (r: ActionResult)
      ensures r == GetDataAction(Configuration(), host, onlyShow)
    {
      var c := Configuration();
      var cmd := Read(c, "data", "get_data_cmd");
      if cmd.Err? {
        return ActionResult([], Crashed(CrashOf(cmd.error)));
      }
      if cmd.value == "" {
        return ActionResult([Show(NoGetDataMessage)], Done);
      }
      if onlyShow {
        return ActionResult([Show(cmd.value)], Done);
      }
      var events := [Show(cmd.value), Execute(cmd.value)];
      var files := Read(c, "index", "file_names");
      if files.Err? {
        return ActionResult(events, Crashed(CrashOf(files.error)));
      }
      var total := GetTotalFileSize(Words(files.value), host.sizes);
      r := ActionResult(events + [ReportSize(total)], Done);
    }

    /** `action_stop` (qlever.py:418-475), with the search pattern as
        written. */
    method Stop(onlyShow: bool, host: Host) returns (r: ActionResult)
      ensures r == StopAction(AsWritten, Configuration(), name, installation, host, onlyShow)
    {
      var c := Configuration();
      var container := Read(c, "docker", "container_server");
      if container.Err? {
        return ActionResult([], Crashed(CrashOf(container.error)));
      }
      var binary := Read(c, "server", "binary");
      if binary.Err? {
        return ActionResult([], Crashed(CrashOf(binary.error)));
      }
      var events := [Show(StopMessage(container.value, StopPatternText(NonBlankRun, binary.value, name)))];
      if onlyShow {
        return ActionResult(events, Done);
      }
      if installation.docker {
        events := events + [Execute(DockerStopCommand(container.value))];
        if host.dockerStopSucceeds {
          return ActionResult(events, Done);
        }
      }
      var found := FindServerIn(NonBlankRun, binary.value, name, host.processes);
      match found
      case Unbound => r := ActionResult(events, Crashed(ProcessInfoUnbound));
      case NotFound => r := ActionResult(events, Failed(NothingToStopMessage));
      case Found(p) =>
        r := ActionResult(events + [Kill(p.pid)], if p.killable then Done else Failed(KillFailedMessage(p.pid)));
    }

    /** `action_status` (qlever.py:478-520). */
    method Status(onlyShow: bool, host: Host) returns (r: ActionResult)
      ensures r == StatusAction(host, onlyShow)
    {
      if onlyShow {
        return ActionResult([Show(StatusMessage), Show(StatusOnlyShowMessage)], Done);
      }
      var procs := host.processes;
      var listed: seq<Event> := [];
      var i := 0;
      while i < |procs|
        invariant 0 <= i <= |procs|
        invariant listed == Listing(procs[..i])
      {
        match procs[i] {
          case None =>
          case Some(p) =>
            var cmd := CommandOf(p);
            if QleverCommand(cmd) {
              listed := listed + [Listed(p.pid, cmd)];
            }
        }
        assert procs[..i + 1][..i] == procs[..i];
        i := i + 1;
      }
      assert procs[..|procs|] == procs;
      r := ActionResult([Show(StatusMessage)] + listed + (if listed == [] then [Show(NoProcessesMessage)] else []), Done);
    }

    /** `getattr(actions, "action_" + ...)(only_show=only_show)`. */
    method RunAction(k: ActionKind, onlyShow: bool, host: Host) returns (r: ActionResult)
      ensures r == Perform(k, Configuration(), name, installation, host, onlyShow)
    {
      match k
      case ShowConfig => r := ShowConfigAction();
      case GetData => r := GetData(onlyShow, host);
      case Index => r := Index(onlyShow, host);
      case Start => r := StartAction(AsWritten, Configuration(), name, installation, host, onlyShow);
      case Stop => r := Stop(onlyShow, host);
      case Status => r := Status(onlyShow, host);
    }
  }
}
