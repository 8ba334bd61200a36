# QLever control script: the action engine in Dafny

`qlever.py` is the command-line control script of the QLever SPARQL engine.
It reads a Qleverfile and turns it into lifecycle operations on one dataset:
fetch the data, build the index, start and stop the server, list running
processes. This project models the deterministic core of the script and
proves properties of that model. The core has four parts:

- **The configuration store.** The Qleverfile is modelled as a `DEFAULT`
  section plus named sections (`ConfigStore.Config`). When the `Actions`
  object is created, a fixed table of built-in defaults is merged in. It
  replaces a missing or empty value and keeps any other value. The
  `set_config` mutator refuses an unknown section or option.
- **The renderers.** The `index` and `start` actions build command lines
  from the merged configuration. These include the `nohup` and
  `docker run` wrappers, the `shlex.quote` of the inner command, the
  `ulimit` prefix for large inputs and the pattern `stop` searches for.
- **The actions.** Each action is a function from the configuration, the
  installation probes and the host's answers to the events it causes and
  its outcome (`ActionSpec`). The `Actions` class carries the configuration
  it updates in place and runs the actions as methods proved against those
  functions (`Engine`).
- **The dispatcher.** `main()` handles the completion shortcut, the
  log-level token, action-name lookup, the trailing `show`, and the token
  loop that stops at the first failure (`Dispatch`,
  `DispatchProperties`). `Registry` covers the rank counter of
  `track_action_rank` and how method names become action names.

The host is never touched. What the script would ask it for are inputs:
file sizes, existing index files, whether a server answers, listening ports,
processes, and whether `docker stop` succeeds (`ActionSpec.Host`). The
installation probes of `check_installation` are the input
`ActionSpec.Installation`. Writing a file, showing a command, running it and
killing a process are recorded as `ActionSpec.Event`s, in order.

The files, in dependency order:

- `wrappers.dfy`: `Option`, `Result`.
- `text.dfy`: joining, splitting, `str.split()`, `\w` runs, case mapping,
  decimals.
- `shell.dfy`: `shlex.quote` and a reader for one shell word; options and
  their read-back.
- `config.dfy`: the configuration store.
- `render.dfy`: the command lines.
- `findings.dfy`: the two checks that cannot succeed as written, and the
  `Variant` that picks the check as written or as intended.
- `registry.dfy`: the actions, their names and their ranks.
- `actions.dfy`: the actions as functions.
- `engine.dfy`: the `Actions` class.
- `dispatch.dfy`: `main()`.

Where the documented design and the code differ, the model follows the
code. This includes the two checks listed under "## Findings". `start`'s
port test and `stop`'s search pattern are as written in the actions the
program performs (`ActionSpec.Perform`, the `Engine.Actions` methods and
`Dispatch`). `ActionSpec.StartIgnoresTakenPort` and
`ActionSpec.StopMissesStartedServer` state what these checks then do.
`ActionSpec.StartAction` and `ActionSpec.StopAction` take a
`Findings.Variant`. With `Intended`, they give the behaviour the checks
evidently aim at. `ActionSpec.StartRefusesTakenPort` and
`ActionSpec.StopFindsStartedServer` state that behaviour, and no performed
action uses it. The other differences:

- **Show-only mode.** "Only show" does not make every action free of side
  effects. `action_index` writes `NAME.settings.json` before it checks
  `only_show` (qlever.py:259-261), and it does so even when `settings_json`
  is missing. The file is then left empty before the `KeyError` is raised.
  `ActionSpec.IndexWritesSettingsFirst` states this.
  `ActionSpec.OnlyShowIsQuiet` promises only that nothing is run or killed
  and that no action fails.
- **`set_config` can add a key.** An option that a section only inherits
  from `DEFAULT` becomes the section's own key. The set of options the
  section shows stays the same (`ConfigStore.Set`).
- **How errors end the script.** A missing option is a `KeyError`. It ends
  the script with a stack trace, not with a one-line message
  (`ActionSpec.Crash`, `Dispatch.Exit.Uncaught`). `set_config` and an
  unknown action name call `sys.exit(1)` directly.
- **The trailing `show`** applies to every action of the batch.
- **`stop` and unreadable processes.** The comment at qlever.py:450-452
  says that processes whose details cannot be read are skipped. The code
  only logs the error and then matches the pattern against `cmdline`
  anyway (qlever.py:458-461). If the first listed process cannot be read,
  `cmdline` is unbound and the script crashes
  (`ActionSpec.StopCrashesOnUnreadableFirst`). A later unreadable process
  is matched with the details of the process before it
  (`ActionSpec.FindServerSkips`).
- **`stop` with nothing to stop.** The docstring of `action_stop`
  (qlever.py:419-421) says that it does nothing when no server is running.
  The code raises an `ActionException` instead (qlever.py:475), so the
  action fails and the batch ends with status 1
  (`ActionSpec.StopKillsFirstMatch`, `ActionSpec.StopMissesStartedServer`).

## Model

| member | source | states |
|---|---|---|
| ConfigStore.EnsureSection | qlever.py:100-102 | afterwards the section exists, no other section is added, and no stored value changes |
| ConfigStore.FillOption | qlever.py:104-106 | the option shows the default if it showed nothing or an empty string, otherwise it is unchanged; every other option keeps its own and its shown value |
| ConfigStore.MergeView | qlever.py:99-106 | after the merge every section and option shows its old value if that was non-empty, else the first default the table gives for it, else what it showed before; an option with no default keeps its own value; every default is non-empty |
| ConfigStore.MergeSectionsExist | qlever.py:99-102 | the sections after the merge are exactly the old ones plus the table's |
| ConfigStore.MergeFills | qlever.py:99-106 | after the merge every section of the table exists and every option of the table shows a non-empty value |
| ConfigStore.MergePreserves | qlever.py:99-106 | a non-empty value is kept, an option without a default is untouched, and no section disappears |
| ConfigStore.MergeComplete | qlever.py:99-106 | merging into a configuration that already has every default changes nothing |
| ConfigStore.MergeIdempotent | qlever.py:99-106 | merging the defaults twice is the same as merging them once |
| ConfigStore.DefaultsTableNonEmpty | qlever.py:70-98 | every built-in default, the container names derived from the dataset name included, is non-empty |
| ConfigStore.Set | qlever.py:170-183 | fails with the section error iff the section is missing, and with the option error iff the lower-cased option is neither the section's nor inherited; on success the option shows the new value, every other option shows what it showed before, and no section or option name is added |
| ConfigStore.SetRefusesDefault | qlever.py:176-178 | for a configuration as parsed, setting an option of `DEFAULT` fails with the section error, whatever the option |
| Engine.Actions.constructor | qlever.py:63-106 | the dataset name comes from `DEFAULT`, and the configuration held is the parsed one merged with the defaults table for that name |
| Engine.Actions.ApplyDefaults | qlever.py:99-106 | the loop over the sections leaves the configuration the merge of the old one with the table |
| Engine.Actions.ApplySection | qlever.py:100-106 | the loop over one section's options leaves the configuration that section's merge step applied to the old one |
| Engine.Actions.SetConfig | qlever.py:170-183 | the configuration becomes what `Set` gives; on refusal the error is returned and the configuration is unchanged |
| Engine.Actions.GetTotalFileSize | qlever.py:185-195 | the nested loop returns the sum of the sizes of all files the patterns match, in bytes |
| Render.TotalSizeAppend | qlever.py:191-194 | the total over two lists of patterns is the sum of their totals |
| Render.TotalSizeBound | qlever.py:191-194 | every matched file's size is at most the total |
| Render.WithUlimit | qlever.py:282-287 | the `ulimit -Sn 1048576; ` prefix is added iff the size in GB, the byte count divided by 10^9, exceeds 10; otherwise the command is returned unchanged |
| Render.ReadIndexConfig | qlever.py:264-291 | on success each of the index settings (input command, binary, permutations option, text-index mode, file names) is the value the `[index]` section shows, the memory budget is present iff the option is, a container is used iff `use_docker` is a yes value, and its name and image are `container_indexer` and `image`; a failure names an option that is missing |
| Render.IndexOptions | qlever.py:265-279 | the index builder's options start with `-F ttl -f - -i NAME -s NAME.settings.json`, and the memory budget, if given, comes last |
| Render.IndexFlags | qlever.py:269-279 | each optional flag of the index builder is present iff its setting asks for it: both permutation flags for a yes value, `-w`/`-d` for the two modes that read text records, the literals flag for the two modes that read literals, the memory flag iff the option exists |
| Render.IndexReadBack | qlever.py:265-280 | splitting the index builder's command line at blanks gives back the binary and, read with the builder's flag arities, the very options rendered |
| Render.IndexFlagsOfConfig | qlever.py:264-279 | for a configuration that reads, each optional index flag is present iff the configuration's own option asks for it |
| Render.IndexCommandShape | qlever.py:280-299 | without Docker the command is the pipeline with the optional `ulimit` prefix; with Docker it is the `docker run` prefix, the indexer container and the image, then `-c` and one shell word that reads back as that command |
| Render.ReadServerConfig | qlever.py:326-349 | on success each of the eleven server settings (binary, threads, port, query memory, the three cache limits, token, permutations, patterns, text index) is the value the `[server]` section shows, a container is used iff `use_docker` is a yes value, and its name and image are `container_server` and `image`; a failure names an option that is missing |
| Render.ServerOptions | qlever.py:327-336 | the server's options start with `-i -j -p -m -c -e -k` and the configured values, then `-a TOKEN` when the access token is non-empty |
| Render.ServerFlags | qlever.py:335-345 | `-a` iff the token is non-empty, each permutation flag iff its option is a yes value, `-t` iff the text index is one of the three modes |
| Render.ServerFlagsOfConfig | qlever.py:326-345 | for a configuration that reads, `-a`, the permutation flags and `-t` are each present iff the configuration's own option asks for it |
| Render.ServerReadBack | qlever.py:327-345 | splitting the server's command line at blanks gives back the binary and, read with the server's flag arities, the very options rendered |
| Render.ServerLineShape | qlever.py:327-346 | the server line is the server's command line followed by ` > NAME.server-log.txt 2>&1` |
| Render.StartCommandShape | qlever.py:348-362 | without Docker the command is `nohup LINE &`; with Docker it is the `docker run` prefix publishing the port, the server container and the image, then `-c` and one shell word that reads back as the server line |
| Render.DockerRunReads | qlever.py:293-299 | the container's bash receives the inner command intact |
| Shell.QuoteRoundTrip | qlever.py:299 | reading the output of `shlex.quote` as one shell word gives back the input, for every string |
| Text.WordsJoin | qlever.py:247-248 | `str.split()` of non-empty blank-free words joined by blanks gives back the words |
| Findings.ServerProcessLineStart | qlever.py:327-328 | the launched server's command line starts with `BINARY -i NAME` |
| Findings.AsWrittenNeedsSuffix | qlever.py:425-426 | the pattern as written matches only lines where a non-blank character follows the binary |
| Findings.AsWrittenMissesServer | qlever.py:425-426 | the pattern as written never matches the server that `start` launched |
| Findings.CorrectedFindsServer | qlever.py:425-426 | the corrected pattern matches the server that `start` launched |
| Findings.CorrectedWidens | qlever.py:425-426 | the corrected pattern accepts every line the written one does, and only lines that start with the binary |
| Findings.PortCheckAsWritten | qlever.py:377-381 | the port test the program performs is false for every port and every listening list |
| Findings.PortTakenIff | qlever.py:377-381 | the corrected port test holds iff the port is among the listening ports |
| Registry.RankCounter.constructor | qlever.py:54 | the counter starts at 0 |
| Registry.RankCounter.Track | qlever.py:50-53 | the method gets the current counter as its rank, and the counter goes up by one |
| Registry.RegisterActions | qlever.py:50-54 | decorating the methods in definition order gives the i-th method rank i, only the six action methods get a rank, and each gets the rank `Rank` gives it |
| Registry.RankIsPosition | qlever.py:50-54 | the rank of an action is its position in definition order |
| Registry.RanksIncrease | qlever.py:50-54 | ranks strictly increase in definition order |
| Registry.NameRoundTrip | qlever.py:583-585 | an action's name is its method suffix with `-` for `_`, and the method `main` calls for that name is the method again |
| Registry.NameOf | qlever.py:583-585 | the name of an action is what the two replacements make of its method name, and it maps back to that method |
| Registry.NamesDistinct | qlever.py:583-585 | different actions have different names |
| Registry.ActionNamesInDirOrder | qlever.py:583-585 | the action names hold each action's name exactly once, and the method names behind consecutive entries increase in Python's string order, as `dir` sorts them |
| Registry.DirOrderSorted | qlever.py:583 | the actions' method names, in the order the model gives `dir`, are strictly increasing in Python's string order |
| Registry.Lookup | qlever.py:610-618 | a token finds an action iff it is one of the action names, and the action found has that name |
| Registry.LookupName | qlever.py:610-618 | every action's name finds that action |
| Registry.SortByRankSorted | qlever.py:534-535 | sorting distinct actions by rank yields a list strictly ordered by rank |
| Registry.RankOrderOf | qlever.py:534-535 | any arrangement of the six actions, sorted by rank, is the definition order |
| Registry.CompletionOrder | qlever.py:532-535 | the `dir` list sorted by rank is the definition order |
| Registry.CompletionWords | qlever.py:532-543 | the completion words are the action names in definition order, then the four settings |
| ActionSpec.OnlyShowIsQuiet | qlever.py:210-520 | when only showing, no action runs a command or kills a process, and none fails |
| ActionSpec.LaunchRuns | qlever.py:301-314 | the command is shown; it runs, right after being shown, iff the action is not only showing and nothing blocks it; otherwise the action ends done or with the blocking message |
| ActionSpec.IndexWritesSettingsFirst | qlever.py:259-261 | the first event of `index` is the write of the settings file, also when only showing, with empty contents when `settings_json` is missing |
| ActionSpec.IndexRunsIff | qlever.py:252-314 | the index builder runs iff the action is not only showing, every setting needed is present and no index file exists; what runs is the index command over the total input size, after the settings write and the show; existing index files fail the action with their message |
| ActionSpec.StartRunsIff | qlever.py:317-384 | for the port test chosen by the variant, the server is launched iff the action is not only showing, the settings are present, no server answers and, where connections can be listed, the port test does not fire; otherwise a live server or a fired port test fails the action with its message; when only showing with the settings present, the command is shown and nothing else happens |
| ActionSpec.StartIgnoresTakenPort | qlever.py:373-384 | as the program is written, a start with its settings present and no server answering shows and launches the server, whatever ports are listening |
| ActionSpec.StartRefusesTakenPort | qlever.py:376-381 | with the port test as intended, not as written, a start whose port is listening fails with the port-in-use message and launches nothing |
| ActionSpec.GetDataRunsIff | qlever.py:233-251 | the command runs iff the action is not only showing and `get_data_cmd` is non-empty, first shown and then run; when only showing with a non-empty command, it is shown and nothing else happens |
| ActionSpec.RunsWhatItShows | qlever.py:210-520 | every action except `stop` runs only commands it showed before; the commands `start` runs after the launch (the log tail and the description `curl` calls) are outside the model |
| ActionSpec.FindServerSkips | qlever.py:453-472 | when the process carried over does not match, or the first process is readable, the scan finds the first readable process that matches; an unreadable process reuses the previous one's details |
| ActionSpec.FirstMatchIsFirst | qlever.py:453-472 | the process found matches and no readable process before it does; when none is found, no readable process matches |
| ActionSpec.StopKillsFirstMatch | qlever.py:453-475 | for the search pattern chosen by the variant, when the container is not stopped and the first listed process is readable (or none is listed), `stop` kills the first matching process and succeeds iff the kill does; with no match it fails with the nothing-to-stop message and kills nothing |
| ActionSpec.StopMissesStartedServer | qlever.py:425-475 | as the program is written, when the first listed process is readable (or none is listed) and the only processes the pattern could match are the server that `start` launched, `stop` fails with the nothing-to-stop message and kills nothing |
| ActionSpec.StopFindsStartedServer | qlever.py:416-472 | with the search pattern as intended, not as written, when the first listed process is readable, `stop` kills the server that `start` launched when no earlier readable process matches |
| ActionSpec.StopCrashesOnUnreadableFirst | qlever.py:453-461 | in either reading of the pattern, when the container is not stopped and the first listed process cannot be read, `stop` crashes on the unbound `cmdline` and kills nothing |
| ActionSpec.ListingIff | qlever.py:496-518 | `status` lists exactly the readable processes whose command line starts with `ServerMain` or `IndexBuilderMain` |
| Engine.Actions.Index | qlever.py:252-314 | returns what `index` does, as specified |
| Engine.Actions.GetData | qlever.py:233-251 | returns what `get-data` does, as specified |
| Engine.FindServerIn | qlever.py:453-472 | the loop over the processes returns the result of the specified scan, for the pattern given |
| Engine.Actions.Stop | qlever.py:416-475 | returns what `stop` does with the search pattern as written, as specified |
| Engine.Actions.Status | qlever.py:477-520 | returns what `status` does, as specified |
| Engine.Actions.RunAction | qlever.py:618-620 | calls the method of the action and returns its result |
| Dispatch.ExitStatus | qlever.py:555-631 | the exit status is 0 iff the script completes |
| Dispatch.LogLevelArg | qlever.py:568-571 | a level found in the first argument is a non-empty run of word characters |
| Dispatch.LogLevelArgMatches | qlever.py:569 | a level token is `general`, any character but a newline, `log_level=` and the level, then the end or a non-word character |
| Dispatch.LogLevelArgOf | qlever.py:569 | every token of that form yields its level |
| Dispatch.WithoutLevel | qlever.py:568-572 | one argument fewer iff a level token is present; the tokens after the first, where the loop reads actions, are then the original tokens after the level token, and otherwise the original tokens after the program name |
| Dispatch.AssignedValue | qlever.py:599 | the `(.*)` group is the longest prefix of the value without a newline |
| Dispatch.ParseAssignment | qlever.py:599-601 | a token read as an assignment spells `SECTION.OPTION=VALUE` with word-character section and option and a value without a newline |
| Dispatch.ParseAssignmentOf | qlever.py:599-601 | every token that spells an assignment is read as exactly that assignment |
| Dispatch.AssignStep | qlever.py:603-608 | an assignment shows and runs nothing; it goes on with the updated configuration or exits with status 1 |
| Dispatch.RunTokensNext | qlever.py:597-608 | a token that succeeds lets the loop go on with the next one |
| Dispatch.RunTokensHalt | qlever.py:609-631 | a token that fails ends the loop with its events and its exit |
| Dispatch.Run | qlever.py:555-632 | running `main()` step by step gives what the specified `main()` gives |
| Dispatch.RunLeveled | qlever.py:563-590 | checking the level and creating the actions object gives the specified result |
| Dispatch.RunConfigured | qlever.py:591-632 | with the actions object created, the log-level check from the configuration, the trailing `show` and the loop give the specified result |
| Dispatch.RunToken | qlever.py:597-631 | one token updates the configuration or runs one action, as the specified step says |
| Dispatch.RunAssignment | qlever.py:598-608 | an assignment token changes the configuration as `set_config` does, or halts |
| Dispatch.RunNamedAction | qlever.py:614-631 | a named action runs on the current configuration and leaves it unchanged |
| Dispatch.RunLoop | qlever.py:596-632 | the loop over the tokens gives the events and the exit of the specified loop |
| DispatchProperties.RunTokensAppend | qlever.py:596-631 | a batch runs its first part, and the rest only if the first part completes |
| DispatchProperties.UnknownTokenExits | qlever.py:609-613 | a token that is neither an assignment nor an action name exits with status 1 and does nothing |
| DispatchProperties.AssignmentTokenSets | qlever.py:598-608 | a token that spells an assignment calls `set_config` with its parts |
| DispatchProperties.TokenStepShowOnly | qlever.py:614-620 | when only showing, no token runs or kills anything or fails as an action |
| DispatchProperties.ShowRunsNothing | qlever.py:591-620 | with a trailing `show`, the whole invocation runs no command, kills no process and fails no action |
| DispatchProperties.TrailingShowStripped | qlever.py:591-597 | once the log level passes, a trailing `show` is dropped and the tokens before it run as the loop runs them, every action only showing |
| DispatchProperties.ShowOnlyQuiet | qlever.py:591-620 | with a trailing `show`, any script whose show-only steps are quiet makes the whole invocation quiet |
| DispatchProperties.MainLeveled | qlever.py:555-572 | except for the completion shortcut, `main()` is the level handling applied to the remaining arguments |
| DispatchProperties.LeveledConfigured | qlever.py:573-586 | with a valid level and a dataset name, `main()` goes on with the merged configuration of the actions object |
| DispatchProperties.FailedActionStops | qlever.py:619-625 | a failing action ends the batch with status 1, its message and its events; no later token runs |
| DispatchProperties.ConfiguredLevelChecked | qlever.py:108-116 | when the configuration's log level is valid, the rest of `main()` does the same whether or not the first argument set a level |

## Left out

- Interpolation: configuration values are read raw. `ExtendedInterpolation` and the `ValueError` that `set_config` can raise for a bad interpolation (qlever.py:603-607) are not modelled.
- Parsing the Qleverfile: the parsed configuration is an input, so reading the file and its syntax errors are outside the model.
- Case mapping: `option.lower()` and `.upper()` are ASCII only, and `\w` is ASCII letters, digits and `_`. Unicode case mapping and Unicode word characters are not modelled.
- Regular-expression metacharacters: the stop pattern is modelled for a binary and a dataset name that contain none.
- Floating point: file sizes are whole bytes. The division by 1e9 and the `.1f` formatting of the reported size are left out; the 10 GB threshold is stated exactly for whole bytes.
- `glob.glob` and `os.path.getsize`: both are an input `Sizes` mapping each pattern to the sizes of the files it matches.
- `check_installation`: the network-connection and Docker probes are the input `Installation`. The `--help` runs of the binaries have no effect on the actions and are left out.
- `alive_check`, `psutil.net_connections` and `psutil.process_iter`: their answers are inputs (`Host`). From one token to the next, the host may answer differently (`hosts(i)`).
- What `start` does after the launch: the log tail, the unbounded readiness poll and the `curl` calls that set the descriptions. Only the `KeyError` for a missing `[data]` section is modelled.
- Output formats: the `status` table columns (user, start time, memory), and the errors that computing them can raise when `as_dict` gives no value for the start time or the memory (qlever.py:511, 516), the colours, the `show_config` listing format and the exception texts of Python errors are left out. `show_config` is one `PrintConfig` event.
- Logging: the logger's messages and level are left out. Only whether the level name is valid, and thus whether the script exits, is modelled.
- `getattr(logging, level)`: only the eight level names are accepted. Any other attribute of the logging module is treated as an invalid level.
- The completion script: only its word list is modelled, not the bash text around it.
- The intended checks in a batch: `main()`, `ActionSpec.Perform` and the `Engine.Actions` methods use the port test and the search pattern as written. The intended readings are stated for a single `start` or `stop` (their `Intended` variant), not for a whole invocation of the script.
- The log-level token as a whole: no lemma states that a valid level token leaves all of `main()` unchanged. `DispatchProperties.ConfiguredLevelChecked` states it for the part after the actions object is created.

## Findings

| source | as written | input that shows it | evidently intended | confidence | as-written member | corrected member |
|---|---|---|---|---|---|---|
| qlever.py:425-426 | `stop` searches for `BINARY\S+ -i [^ ]*NAME`, which needs a non-blank character right after the binary | the server `start` launched, whose command line is `ServerMain -i NAME -j 8 ...` | `BINARY.* -i [^ ]*NAME`, which finds the launched server | not executed | ActionSpec.StopMissesStartedServer | ActionSpec.StopFindsStartedServer |
| qlever.py:377-381 | `port in [conn.laddr.port ...]` compares the configured port, a string, with integer ports, so it is never true | port `"7001"` while a process listens on 7001 | compare the port with the decimal form of each listening port | not executed | ActionSpec.StartIgnoresTakenPort | ActionSpec.StartRefusesTakenPort |
