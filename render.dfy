/** The command lines that `action_index` and `action_start` build from the
    merged configuration (qlever.py:264-299, 326-362). Each line is a program
    name followed by a list of options, joined with single spaces, exactly as
    the source's string concatenations produce it. */
module Render {
  import opened Wrappers
  import opened Text
  import opened Shell
  import opened ConfigStore

  /** `self.yes_values`. */
  const YesValues: seq<string> := ["1", "true", "yes"]

  predicate IsYes(v: string)
  {
    v in YesValues
  }

  /** The text-index modes that make the index builder read a words file and
      a docs file, and those that make it take words from literals. */
  const TextRecordModes: seq<string> := ["from_text_records", "from_text_records_and_literals"]
  const LiteralModes: seq<string> := ["from_literals", "from_text_records_and_literals"]
  /** The text-index modes that make the server load a text index. */
  const TextModes: seq<string> := ["from_text_records", "from_literals", "from_text_records_and_literals"]

  /** A program invocation `program opt1 args1 opt2 args2 ...`. */
  function CommandLine(program: string, opts: seq<Opt>): string
  {
    Join([program] + Flatten(opts), " ")
  }

  // ---------------------------------------------------------------------
  // Total input size

  /** The sizes of the files one glob pattern matches (glob and stat are
      inputs of the model). */
  type Sizes = string -> seq<nat>

  function Sum(xs: seq<nat>): nat
    decreases |xs|
  {
    if xs == [] then 0 else Sum(xs[..|xs| - 1]) + xs[|xs| - 1]
  }

  /** `get_total_file_size(paths)`, in bytes. */
  function TotalSize(paths: seq<string>, sizes: Sizes): nat
    decreases |paths|
  {
    if paths == [] then 0 else TotalSize(paths[..|paths| - 1], sizes) + Sum(sizes(paths[|paths| - 1]))
  }

  lemma {:induction false} SumAppend(a: seq<nat>, b: seq<nat>)
    ensures Sum(a + b) == Sum(a) + Sum(b)
    decreases |b|
  {
    if b == [] {
      assert a + b == a;
    } else {
      assert (a + b)[..|a + b| - 1] == a + b[..|b| - 1];
      SumAppend(a, b[..|b| - 1]);
    }
  }

  /** The total over several patterns is the sum of the totals over each. */
  lemma {:induction false} TotalSizeAppend(a: seq<string>, b: seq<string>, sizes: Sizes)
    ensures TotalSize(a + b, sizes) == TotalSize(a, sizes) + TotalSize(b, sizes)
    decreases |b|
  {
    if b == [] {
      assert a + b == a;
    } else {
      assert (a + b)[..|a + b| - 1] == a + b[..|b| - 1];
      TotalSizeAppend(a, b[..|b| - 1], sizes);
    }
  }

  /** The total is the sum over every matched file. */
  lemma {:induction false} TotalSizeBound(paths: seq<string>, sizes: Sizes, i: nat, j: nat)
    requires i < |paths| && j < |sizes(paths[i])|
    ensures sizes(paths[i])[j] <= TotalSize(paths, sizes)
    decreases |paths|
  {
    if i == |paths| - 1 {
      SumBound(sizes(paths[i]), j);
    } else {
      TotalSizeBound(paths[..|paths| - 1], sizes, i, j);
    }
  }

  lemma {:induction false} SumBound(xs: seq<nat>, j: nat)
    requires j < |xs|
    ensures xs[j] <= Sum(xs)
    decreases |xs|
  {
    if j < |xs| - 1 {
      SumBound(xs[..|xs| - 1], j);
    }
  }

  /** `10 GB`, the threshold of `total_file_size > 10`: for an integer number
      of bytes, `bytes / 1e9 > 10` holds exactly when `bytes > 10^10`. */
  const UlimitThreshold: nat := 10_000_000_000

  const UlimitPrefix: string := "ulimit -Sn 1048576; "

  /** The command with the limit on open files raised when the input files
      exceed 10 GB, as `total_file_size > 10` decides on the size in GB; the
      command itself is kept either way. */
  function WithUlimit(total: nat, cmd: string): (r: string)
    ensures r == UlimitPrefix + cmd <==> (total as real) / 1000000000.0 > 10.0
    ensures r == cmd || r == UlimitPrefix + cmd
  {
    if total > UlimitThreshold then UlimitPrefix + cmd else cmd
  }

  // ---------------------------------------------------------------------
  // The index command

  /** The container a command runs in: `docker.container_*` and
      `docker.image`. */
  datatype Container = Container(name: string, image: string)

  /** The values `action_index` reads, in the order it reads them. */
  datatype IndexConfig = IndexConfig(
    catFiles: string,
    binary: string,
    permutations: string,
    textIndex: string,
    stxxlMemory: Option<string>,
    fileNames: string,
    docker: Option<Container>)

  /** Reads the index settings; a missing one is the `KeyError` the source
      raises at that point. */
  function ReadIndexConfig(c: Config): (r: Result<IndexConfig, Missing>)
    ensures r.Ok? ==>
      && Get(c, "index", "cat_files") == Some(r.value.catFiles)
      && Get(c, "index", "binary") == Some(r.value.binary)
      && Get(c, "index", "only_pso_and_pos_permutations") == Some(r.value.permutations)
      && Get(c, "index", "with_text_index") == Some(r.value.textIndex)
      && r.value.stxxlMemory == Get(c, "index", "stxxl_memory_gb")
      && Get(c, "index", "file_names") == Some(r.value.fileNames)
      && Get(c, "docker", "use_docker").Some?
      && (r.value.docker.Some? <==> IsYes(Get(c, "docker", "use_docker").value))
      && (r.value.docker.Some? ==>
            && Get(c, "docker", "container_indexer") == Some(r.value.docker.value.name)
            && Get(c, "docker", "image") == Some(r.value.docker.value.image))
    ensures r.Err? ==> Get(c, r.error.section, r.error.option).None?
  {
    var catFiles :- Read(c, "index", "cat_files");
    var binary :- Read(c, "index", "binary");
    var permutations :- Read(c, "index", "only_pso_and_pos_permutations");
    var textIndex :- Read(c, "index", "with_text_index");
    var stxxlMemory := Get(c, "index", "stxxl_memory_gb");
    var fileNames :- Read(c, "index", "file_names");
    var useDocker :- Read(c, "docker", "use_docker");
    var docker :- ReadContainer(c, useDocker, "container_indexer");
    Ok(IndexConfig(catFiles, binary, permutations, textIndex, stxxlMemory, fileNames, docker))
  }

  /** The container settings, read only when `use_docker` is a yes value. */
  function ReadContainer(c: Config, useDocker: string, option: string): (r: Result<Option<Container>, Missing>)
    ensures r.Ok? ==> (r.value.Some? <==> IsYes(useDocker))
    ensures r.Ok? && r.value.Some? ==>
      Get(c, "docker", option) == Some(r.value.value.name) && Get(c, "docker", "image") == Some(r.value.value.image)
    ensures r.Err? ==> IsYes(useDocker) && Get(c, r.error.section, r.error.option).None?
  {
    if IsYes(useDocker) then
      var name :- Read(c, "docker", option);
      var image :- Read(c, "docker", "image");
      Ok(Some(Container(name, image)))
    else Ok(None)
  }

  /** The index builder's options, in the order the source appends them. */
  function IndexOptions(name: string, cfg: IndexConfig): (opts: seq<Opt>)
    ensures |opts| >= 4 && opts[..4] == IndexFixed(name)
    ensures cfg.stxxlMemory.Some? ==> opts[|opts| - 1] == Opt("--stxxl-memory-gb", [cfg.stxxlMemory.value])
  {
    var fixed := IndexFixed(name);
    var perm := PermutationOpts(cfg.permutations);
    var records := TextRecordOpts(name, cfg.textIndex);
    var literals := LiteralOpts(cfg.textIndex);
    var stxxl := StxxlOpts(cfg.stxxlMemory);
    var opts := fixed + perm + records + literals + stxxl;
    assert opts[..4] == fixed;
    opts
  }

  function PermutationOpts(v: string): (opts: seq<Opt>)
    ensures Flags(opts) == if IsYes(v) then ["--only-pso-and-pos-permutations", "--no-patterns"] else []
  {
    if IsYes(v) then [Opt("--only-pso-and-pos-permutations", []), Opt("--no-patterns", [])] else []
  }

  function TextRecordOpts(name: string, mode: string): (opts: seq<Opt>)
    ensures Flags(opts) == if mode in TextRecordModes then ["-w", "-d"] else []
  {
    if mode in TextRecordModes then [Opt("-w", [name + ".wordsfile.tsv"]), Opt("-d", [name + ".docsfile.tsv"])] else []
  }

  function LiteralOpts(mode: string): (opts: seq<Opt>)
    ensures Flags(opts) == if mode in LiteralModes then ["--text-words-from-literals"] else []
  {
    if mode in LiteralModes then [Opt("--text-words-from-literals", [])] else []
  }

  function StxxlOpts(v: Option<string>): (opts: seq<Opt>)
    ensures Flags(opts) == if v.Some? then ["--stxxl-memory-gb"] else []
  {
    if v.Some? then [Opt("--stxxl-memory-gb", [v.value])] else []
  }

  /** The options every index build gets. */
  function IndexFixed(name: string): (opts: seq<Opt>)
    ensures Flags(opts) == ["-F", "-f", "-i", "-s"]
  {
    [Opt("-F", ["ttl"]), Opt("-f", ["-"]), Opt("-i", [name]), Opt("-s", [name + ".settings.json"])]
  }

  /** Which optional flags the index builder gets: the permutation flags iff
      `only_pso_and_pos_permutations` is a yes value, `-w` and `-d` iff the
      text index is built from text records, `--text-words-from-literals` iff
      it is built from literals, and `--stxxl-memory-gb` iff that option is
      present. */
  lemma IndexFlags(name: string, cfg: IndexConfig)
    ensures var opts := IndexOptions(name, cfg);
      && (HasFlag(opts, "--only-pso-and-pos-permutations") <==> IsYes(cfg.permutations))
      && (HasFlag(opts, "--no-patterns") <==> IsYes(cfg.permutations))
      && (HasFlag(opts, "-w") <==> cfg.textIndex in TextRecordModes)
      && (HasFlag(opts, "-d") <==> cfg.textIndex in TextRecordModes)
      && (HasFlag(opts, "--text-words-from-literals") <==> cfg.textIndex in LiteralModes)
      && (HasFlag(opts, "--stxxl-memory-gb") <==> cfg.stxxlMemory.Some?)
  {
    IndexPermutationFlags(name, cfg);
    IndexTextFlags(name, cfg);
    IndexStxxlFlag(name, cfg);
  }

  /** Both permutation flags come from `only_pso_and_pos_permutations`. */
  lemma IndexPermutationFlags(name: string, cfg: IndexConfig)
    ensures HasFlag(IndexOptions(name, cfg), "--only-pso-and-pos-permutations") <==> IsYes(cfg.permutations)
    ensures HasFlag(IndexOptions(name, cfg), "--no-patterns") <==> IsYes(cfg.permutations)
  {
    IndexFlagGroups(name, cfg, "--only-pso-and-pos-permutations");
    IndexFlagGroups(name, cfg, "--no-patterns");
  }

  /** The words, docs and literals flags come from `with_text_index`. */
  lemma IndexTextFlags(name: string, cfg: IndexConfig)
    ensures HasFlag(IndexOptions(name, cfg), "-w") <==> cfg.textIndex in TextRecordModes
    ensures HasFlag(IndexOptions(name, cfg), "-d") <==> cfg.textIndex in TextRecordModes
    ensures HasFlag(IndexOptions(name, cfg), "--text-words-from-literals") <==> cfg.textIndex in LiteralModes
  {
    IndexFlagGroups(name, cfg, "-w");
    IndexFlagGroups(name, cfg, "-d");
    IndexFlagGroups(name, cfg, "--text-words-from-literals");
  }

  /** The memory flag comes from `stxxl_memory_gb`. */
  lemma IndexStxxlFlag(name: string, cfg: IndexConfig)
    ensures HasFlag(IndexOptions(name, cfg), "--stxxl-memory-gb") <==> cfg.stxxlMemory.Some?
  {
    IndexFlagGroups(name, cfg, "--stxxl-memory-gb");
  }

  /** A flag is among the index builder's options iff one of its five groups
      of options has it. */
  lemma IndexFlagGroups(name: string, cfg: IndexConfig, f: string)
    ensures HasFlag(IndexOptions(name, cfg), f) <==>
            || f in Flags(IndexFixed(name)) || f in Flags(PermutationOpts(cfg.permutations))
            || f in Flags(TextRecordOpts(name, cfg.textIndex)) || f in Flags(LiteralOpts(cfg.textIndex))
            || f in Flags(StxxlOpts(cfg.stxxlMemory))
  {
    var p0, p1, p2, p3, p4 := IndexFixed(name), PermutationOpts(cfg.permutations),
                              TextRecordOpts(name, cfg.textIndex), LiteralOpts(cfg.textIndex), StxxlOpts(cfg.stxxlMemory);
    assert IndexOptions(name, cfg) == p0 + p1 + p2 + p3 + p4;
    HasFlagParts(p0, p1, p2, p3, p4, f);
  }

  /** How the index builder reads its options: each flag with the number of
      values it takes. */
  const IndexArity: map<string, nat> := map[
    "-F" := 1, "-f" := 1, "-i" := 1, "-s" := 1,
    "--only-pso-and-pos-permutations" := 0, "--no-patterns" := 0,
    "-w" := 1, "-d" := 1, "--text-words-from-literals" := 0,
    "--stxxl-memory-gb" := 1]

  lemma FlagsAppend(a: seq<Opt>, b: seq<Opt>)
    ensures Flags(a + b) == Flags(a) + Flags(b)
  {
  }

  lemma HasFlagParts(p0: seq<Opt>, p1: seq<Opt>, p2: seq<Opt>, p3: seq<Opt>, p4: seq<Opt>, f: string)
    ensures HasFlag(p0 + p1 + p2 + p3 + p4, f) <==>
            f in Flags(p0) || f in Flags(p1) || f in Flags(p2) || f in Flags(p3) || f in Flags(p4)
  {
    FlagsAppend(p0, p1);
    FlagsAppend(p0 + p1, p2);
    FlagsAppend(p0 + p1 + p2, p3);
    FlagsAppend(p0 + p1 + p2 + p3, p4);
  }

  lemma ConformsAppend(arity: map<string, nat>, a: seq<Opt>, b: seq<Opt>)
    requires Conforms(arity, a) && Conforms(arity, b)
    ensures Conforms(arity, a + b)
  {
    forall i | 0 <= i < |a + b|
      ensures (a + b)[i].flag in arity && arity[(a + b)[i].flag] == |(a + b)[i].args|
    {
      if i >= |a| {
        assert (a + b)[i] == b[i - |a|];
      }
    }
  }

  /** Every index option is one the index builder knows, with the number of
      values it takes. */
  lemma IndexConforms(name: string, cfg: IndexConfig)
    ensures Conforms(IndexArity, IndexOptions(name, cfg))
  {
    var p0, p1, p2, p3, p4 := IndexFixed(name), PermutationOpts(cfg.permutations),
                              TextRecordOpts(name, cfg.textIndex), LiteralOpts(cfg.textIndex), StxxlOpts(cfg.stxxlMemory);
    assert IndexOptions(name, cfg) == p0 + p1 + p2 + p3 + p4;
    IndexFixedConforms(name);
    IndexOptionalConforms(name, cfg);
    ConformsAppend(IndexArity, p0, p1);
    ConformsAppend(IndexArity, p0 + p1, p2);
    ConformsAppend(IndexArity, p0 + p1 + p2, p3);
    ConformsAppend(IndexArity, p0 + p1 + p2 + p3, p4);
  }

  lemma IndexFixedConforms(name: string)
    ensures Conforms(IndexArity, IndexFixed(name))
  {
  }

  lemma IndexOptionalConforms(name: string, cfg: IndexConfig)
    ensures Conforms(IndexArity, PermutationOpts(cfg.permutations))
    ensures Conforms(IndexArity, TextRecordOpts(name, cfg.textIndex))
    ensures Conforms(IndexArity, LiteralOpts(cfg.textIndex))
    ensures Conforms(IndexArity, StxxlOpts(cfg.stxxlMemory))
  {
  }

  /** `cat_files | binary options | tee NAME.index-log.txt`. */
  function IndexPipeline(name: string, cfg: IndexConfig): string
  {
    cfg.catFiles + " | " + CommandLine(cfg.binary, IndexOptions(name, cfg)) + " | tee " + name + ".index-log.txt"
  }

  const IndexDockerPrefix: string :=
    Join(["docker run -it --rm -u $(id -u):$(id -g)", "-v /etc/localtime:/etc/localtime:ro",
          "-v $(pwd):/index -w /index", "--entrypoint bash", "--name "], " ")

  /** `docker run ... --name CONTAINER IMAGE -c QUOTED`: the container's bash
      runs the quoted command. */
  function DockerRun(prefix: string, box: Container, inner: string): string
  {
    prefix + box.name + " " + box.image + " -c " + Quote(inner)
  }

  /** The container's bash receives the inner command intact. */
  lemma DockerRunReads(prefix: string, box: Container, inner: string)
    ensures exists quoted ::
              && DockerRun(prefix, box, inner) == prefix + box.name + " " + box.image + " -c " + quoted
              && ReadWord(quoted) == Some(inner)
  {
    QuoteRoundTrip(inner);
    assert ReadWord(Quote(inner)) == Some(inner);
  }

  /** The command line `action_index` shows and runs, given the total size
      in bytes of the input files. */
  function IndexCommand(name: string, cfg: IndexConfig, total: nat): string
  {
    var inner := WithUlimit(total, IndexPipeline(name, cfg));
    match cfg.docker
    case None => inner
    case Some(box) => DockerRun(IndexDockerPrefix, box, inner)
  }

  /** The shape of the index command: the pipeline, the `ulimit` prefix iff
      the input exceeds 10 GB, and the container wrapper iff `use_docker` is
      a yes value, whose bash receives the pipeline intact. */
  lemma IndexCommandShape(name: string, cfg: IndexConfig, total: nat)
    ensures var pipeline := IndexPipeline(name, cfg);
            var inner := if total > UlimitThreshold then UlimitPrefix + pipeline else pipeline;
            && (cfg.docker.None? ==> IndexCommand(name, cfg, total) == inner)
            && (cfg.docker.Some? ==>
                  var box := cfg.docker.value;
                  exists quoted ::
                    && IndexCommand(name, cfg, total) == IndexDockerPrefix + box.name + " " + box.image + " -c " + quoted
                    && ReadWord(quoted) == Some(inner))
  {
    if cfg.docker.Some? {
      DockerRunReads(IndexDockerPrefix, cfg.docker.value, WithUlimit(total, IndexPipeline(name, cfg)));
    }
  }

  // ---------------------------------------------------------------------
  // Reading a command line back

  /** Every flag and value is a plain word: no blank, nothing the shell would
      interpret. */
  predicate PlainOptions(opts: seq<Opt>)
  {
    forall i :: 0 <= i < |opts| ==>
      Plain(opts[i].flag) && forall j :: 0 <= j < |opts[i].args| ==> Plain(opts[i].args[j])
  }

  lemma {:induction false} FlattenPlain(opts: seq<Opt>)
    requires PlainOptions(opts)
    ensures forall k :: 0 <= k < |Flatten(opts)| ==> Plain(Flatten(opts)[k])
    decreases |opts|
  {
    if opts != [] {
      assert PlainOptions(opts[1..]) by {
        forall i | 0 <= i < |opts[1..]|
          ensures Plain(opts[1..][i].flag) && forall j :: 0 <= j < |opts[1..][i].args| ==> Plain(opts[1..][i].args[j])
        {
          assert opts[1..][i] == opts[i + 1];
        }
      }
      FlattenPlain(opts[1..]);
      var head := [opts[0].flag] + opts[0].args;
      forall k | 0 <= k < |Flatten(opts)| ensures Plain(Flatten(opts)[k]) {
        if k >= |head| {
          assert Flatten(opts)[k] == Flatten(opts[1..])[k - |head|];
        } else if k > 0 {
          assert Flatten(opts)[k] == opts[0].args[k - 1];
        }
      }
    }
  }

  /** A command line of plain words splits at its blanks into the program
      and the words of its options, and a program that knows each flag's
      arity reads those words back as exactly the options rendered. */
  lemma CommandLineReadBack(program: string, opts: seq<Opt>, arity: map<string, nat>)
    requires Plain(program) && PlainOptions(opts) && Conforms(arity, opts)
    ensures var ws := Split(CommandLine(program, opts), ' ');
            |ws| > 0 && ws[0] == program && ReadOptions(arity, ws[1..]) == Some(opts)
  {
    var ws := [program] + Flatten(opts);
    FlattenPlain(opts);
    forall i | 0 <= i < |ws| ensures ' ' !in ws[i] {
      if i > 0 {
        assert ws[i] == Flatten(opts)[i - 1];
      }
    }
    SplitJoin(ws, ' ');
    assert ws[1..] == Flatten(opts);
    ReadFlatten(arity, opts);
  }

  /** Under plain values, the index builder receives the options rendered. */
  lemma IndexReadBack(name: string, cfg: IndexConfig)
    requires Plain(cfg.binary) && PlainOptions(IndexOptions(name, cfg))
    ensures var ws := Split(CommandLine(cfg.binary, IndexOptions(name, cfg)), ' ');
            |ws| > 0 && ws[0] == cfg.binary && ReadOptions(IndexArity, ws[1..]) == Some(IndexOptions(name, cfg))
  {
    IndexConforms(name, cfg);
    CommandLineReadBack(cfg.binary, IndexOptions(name, cfg), IndexArity);
  }

  // ---------------------------------------------------------------------
  // The start command

  /** The values `action_start` reads, in the order it reads them. */
  datatype ServerConfig = ServerConfig(
    binary: string,
    numThreads: string,
    port: string,
    memoryForQueries: string,
    cacheMaxSize: string,
    cacheMaxSizeSingleEntry: string,
    cacheMaxNumEntries: string,
    accessToken: string,
    permutations: string,
    noPatterns: string,
    textIndex: string,
    docker: Option<Container>)

  function ReadServerConfig(c: Config): (r: Result<ServerConfig, Missing>)
    ensures r.Ok? ==>
      && Get(c, "server", "binary") == Some(r.value.binary)
      && Get(c, "server", "num_threads") == Some(r.value.numThreads)
      && Get(c, "server", "port") == Some(r.value.port)
      && Get(c, "server", "memory_for_queries_gb") == Some(r.value.memoryForQueries)
      && Get(c, "server", "cache_max_size_gb") == Some(r.value.cacheMaxSize)
      && Get(c, "server", "cache_max_size_gb_single_entry") == Some(r.value.cacheMaxSizeSingleEntry)
      && Get(c, "server", "cache_max_num_entries") == Some(r.value.cacheMaxNumEntries)
      && Get(c, "server", "access_token") == Some(r.value.accessToken)
      && Get(c, "server", "only_pso_and_pos_permutations") == Some(r.value.permutations)
      && Get(c, "server", "no_patterns") == Some(r.value.noPatterns)
      && Get(c, "server", "with_text_index") == Some(r.value.textIndex)
      && Get(c, "docker", "use_docker").Some?
      && (r.value.docker.Some? <==> IsYes(Get(c, "docker", "use_docker").value))
      && (r.value.docker.Some? ==>
            && Get(c, "docker", "container_server") == Some(r.value.docker.value.name)
            && Get(c, "docker", "image") == Some(r.value.docker.value.image))
    ensures r.Err? ==> Get(c, r.error.section, r.error.option).None?
  {
    var binary :- Read(c, "server", "binary");
    var numThreads :- Read(c, "server", "num_threads");
    var port :- Read(c, "server", "port");
    var memory :- Read(c, "server", "memory_for_queries_gb");
    var cacheMaxSize :- Read(c, "server", "cache_max_size_gb");
    var cacheSingle :- Read(c, "server", "cache_max_size_gb_single_entry");
    var cacheEntries :- Read(c, "server", "cache_max_num_entries");
    var accessToken :- Read(c, "server", "access_token");
    var permutations :- Read(c, "server", "only_pso_and_pos_permutations");
    var noPatterns :- Read(c, "server", "no_patterns");
    var textIndex :- Read(c, "server", "with_text_index");
    var useDocker :- Read(c, "docker", "use_docker");
    var docker :- ReadContainer(c, useDocker, "container_server");
    Ok(ServerConfig(binary, numThreads, port, memory, cacheMaxSize, cacheSingle, cacheEntries,
                    accessToken, permutations, noPatterns, textIndex, docker))
  }

  /** The server's options, in the order the source appends them. */
  function ServerOptions(name: string, cfg: ServerConfig): (opts: seq<Opt>)
    ensures |opts| >= 7 && opts[..7] == ServerFixed(name, cfg)
    ensures cfg.accessToken != "" ==> |opts| > 7 && opts[7] == Opt("-a", [cfg.accessToken])
  {
    var fixed := ServerFixed(name, cfg);
    var token := AccessTokenOpts(cfg.accessToken);
    assert cfg.accessToken != "" ==> token == [Opt("-a", [cfg.accessToken])];
    var opts := fixed + token + FlagIf(IsYes(cfg.permutations), "--only-pso-and-pos-permutations")
                + FlagIf(IsYes(cfg.noPatterns), "--no-patterns") + FlagIf(cfg.textIndex in TextModes, "-t");
    assert opts[..7] == fixed;
    assert cfg.accessToken != "" ==> |opts| > 7 && opts[7] == token[0];
    opts
  }

  function AccessTokenOpts(token: string): (opts: seq<Opt>)
    ensures Flags(opts) == if token != "" then ["-a"] else []
  {
    if token != "" then [Opt("-a", [token])] else []
  }

  /** A flag without values, present iff `on`. */
  function FlagIf(on: bool, flag: string): (opts: seq<Opt>)
    ensures Flags(opts) == if on then [flag] else []
  {
    if on then [Opt(flag, [])] else []
  }

  /** The options every server start gets, in this order. */
  function ServerFixed(name: string, cfg: ServerConfig): (opts: seq<Opt>)
    ensures Flags(opts) == ["-i", "-j", "-p", "-m", "-c", "-e", "-k"]
  {
    [Opt("-i", [name]), Opt("-j", [cfg.numThreads]), Opt("-p", [cfg.port]),
     Opt("-m", [cfg.memoryForQueries]), Opt("-c", [cfg.cacheMaxSize]),
     Opt("-e", [cfg.cacheMaxSizeSingleEntry]), Opt("-k", [cfg.cacheMaxNumEntries])]
  }

  /** Which optional flags the server gets: `-a` iff the access token is
      non-empty, each permutation flag iff its option is a yes value, and
      `-t` iff the text index is one of the three text modes. */
  lemma ServerFlags(name: string, cfg: ServerConfig)
    ensures var opts := ServerOptions(name, cfg);
      && (HasFlag(opts, "-a") <==> cfg.accessToken != "")
      && (HasFlag(opts, "--only-pso-and-pos-permutations") <==> IsYes(cfg.permutations))
      && (HasFlag(opts, "--no-patterns") <==> IsYes(cfg.noPatterns))
      && (HasFlag(opts, "-t") <==> cfg.textIndex in TextModes)
  {
    ServerTokenFlag(name, cfg);
    ServerPermutationsFlag(name, cfg);
    ServerNoPatternsFlag(name, cfg);
    ServerTextFlag(name, cfg);
  }

  /** Read from a Qleverfile, each optional flag of the index builder is
      there iff the `[index]` option behind it says so. */
  lemma IndexFlagsOfConfig(c: Config, name: string)
    requires ReadIndexConfig(c).Ok?
    ensures var opts := IndexOptions(name, ReadIndexConfig(c).value);
      && Get(c, "index", "only_pso_and_pos_permutations").Some?
      && Get(c, "index", "with_text_index").Some?
      && (HasFlag(opts, "--only-pso-and-pos-permutations") <==> IsYes(Get(c, "index", "only_pso_and_pos_permutations").value))
      && (HasFlag(opts, "--no-patterns") <==> IsYes(Get(c, "index", "only_pso_and_pos_permutations").value))
      && (HasFlag(opts, "-w") <==> Get(c, "index", "with_text_index").value in TextRecordModes)
      && (HasFlag(opts, "--text-words-from-literals") <==> Get(c, "index", "with_text_index").value in LiteralModes)
      && (HasFlag(opts, "--stxxl-memory-gb") <==> Get(c, "index", "stxxl_memory_gb").Some?)
  {
    IndexFlags(name, ReadIndexConfig(c).value);
  }

  /** Read from a Qleverfile, each optional flag of the server is there iff
      the `[server]` option behind it says so. */
  lemma ServerFlagsOfConfig(c: Config, name: string)
    requires ReadServerConfig(c).Ok?
    ensures var opts := ServerOptions(name, ReadServerConfig(c).value);
      && Get(c, "server", "access_token").Some?
      && Get(c, "server", "only_pso_and_pos_permutations").Some?
      && Get(c, "server", "no_patterns").Some?
      && Get(c, "server", "with_text_index").Some?
      && (HasFlag(opts, "-a") <==> Get(c, "server", "access_token").value != "")
      && (HasFlag(opts, "--only-pso-and-pos-permutations") <==> IsYes(Get(c, "server", "only_pso_and_pos_permutations").value))
      && (HasFlag(opts, "--no-patterns") <==> IsYes(Get(c, "server", "no_patterns").value))
      && (HasFlag(opts, "-t") <==> Get(c, "server", "with_text_index").value in TextModes)
  {
    ServerFlags(name, ReadServerConfig(c).value);
  }

  lemma ServerTokenFlag(name: string, cfg: ServerConfig)
    ensures HasFlag(ServerOptions(name, cfg), "-a") <==> cfg.accessToken != ""
  {
    var p0, p1, p2, p3, p4 := ServerFixed(name, cfg), AccessTokenOpts(cfg.accessToken),
                              FlagIf(IsYes(cfg.permutations), "--only-pso-and-pos-permutations"),
                              FlagIf(IsYes(cfg.noPatterns), "--no-patterns"), FlagIf(cfg.textIndex in TextModes, "-t");
    assert ServerOptions(name, cfg) == p0 + p1 + p2 + p3 + p4;
    HasFlagParts(p0, p1, p2, p3, p4, "-a");
    assert "-a" !in Flags(p0) && "-a" !in Flags(p2) && "-a" !in Flags(p3) && "-a" !in Flags(p4);
  }

  lemma ServerPermutationsFlag(name: string, cfg: ServerConfig)
    ensures HasFlag(ServerOptions(name, cfg), "--only-pso-and-pos-permutations") <==> IsYes(cfg.permutations)
  {
    var p0, p1, p2, p3, p4 := ServerFixed(name, cfg), AccessTokenOpts(cfg.accessToken),
                              FlagIf(IsYes(cfg.permutations), "--only-pso-and-pos-permutations"),
                              FlagIf(IsYes(cfg.noPatterns), "--no-patterns"), FlagIf(cfg.textIndex in TextModes, "-t");
    assert ServerOptions(name, cfg) == p0 + p1 + p2 + p3 + p4;
    HasFlagParts(p0, p1, p2, p3, p4, "--only-pso-and-pos-permutations");
    assert "--only-pso-and-pos-permutations" !in Flags(p0) && "--only-pso-and-pos-permutations" !in Flags(p1) && "--only-pso-and-pos-permutations" !in Flags(p3) && "--only-pso-and-pos-permutations" !in Flags(p4);
  }

  lemma ServerNoPatternsFlag(name: string, cfg: ServerConfig)
    ensures HasFlag(ServerOptions(name, cfg), "--no-patterns") <==> IsYes(cfg.noPatterns)
  {
    var p0, p1, p2, p3, p4 := ServerFixed(name, cfg), AccessTokenOpts(cfg.accessToken),
                              FlagIf(IsYes(cfg.permutations), "--only-pso-and-pos-permutations"),
                              FlagIf(IsYes(cfg.noPatterns), "--no-patterns"), FlagIf(cfg.textIndex in TextModes, "-t");
    assert ServerOptions(name, cfg) == p0 + p1 + p2 + p3 + p4;
    HasFlagParts(p0, p1, p2, p3, p4, "--no-patterns");
    assert "--no-patterns" !in Flags(p0) && "--no-patterns" !in Flags(p1) && "--no-patterns" !in Flags(p2) && "--no-patterns" !in Flags(p4);
  }

  lemma ServerTextFlag(name: string, cfg: ServerConfig)
    ensures HasFlag(ServerOptions(name, cfg), "-t") <==> cfg.textIndex in TextModes
  {
    var p0, p1, p2, p3, p4 := ServerFixed(name, cfg), AccessTokenOpts(cfg.accessToken),
                              FlagIf(IsYes(cfg.permutations), "--only-pso-and-pos-permutations"),
                              FlagIf(IsYes(cfg.noPatterns), "--no-patterns"), FlagIf(cfg.textIndex in TextModes, "-t");
    assert ServerOptions(name, cfg) == p0 + p1 + p2 + p3 + p4;
    HasFlagParts(p0, p1, p2, p3, p4, "-t");
    assert "-t" !in Flags(p0) && "-t" !in Flags(p1) && "-t" !in Flags(p2) && "-t" !in Flags(p3);
  }

  const ServerArity: map<string, nat> := map[
    "-i" := 1, "-j" := 1, "-p" := 1, "-m" := 1, "-c" := 1, "-e" := 1, "-k" := 1,
    "-a" := 1, "--only-pso-and-pos-permutations" := 0, "--no-patterns" := 0, "-t" := 0]

  /** Every server option is one the server knows, with the number of values
      it takes. */
  lemma ServerConforms(name: string, cfg: ServerConfig)
    ensures Conforms(ServerArity, ServerOptions(name, cfg))
  {
    var p0, p1, p2, p3, p4 := ServerFixed(name, cfg), AccessTokenOpts(cfg.accessToken),
                              FlagIf(IsYes(cfg.permutations), "--only-pso-and-pos-permutations"),
                              FlagIf(IsYes(cfg.noPatterns), "--no-patterns"), FlagIf(cfg.textIndex in TextModes, "-t");
    assert ServerOptions(name, cfg) == p0 + p1 + p2 + p3 + p4;
    ServerFixedConforms(name, cfg);
    assert Conforms(ServerArity, p1);
    assert Conforms(ServerArity, p2);
    assert Conforms(ServerArity, p3);
    assert Conforms(ServerArity, p4);
    ConformsAppend(ServerArity, p0, p1);
    ConformsAppend(ServerArity, p0 + p1, p2);
    ConformsAppend(ServerArity, p0 + p1 + p2, p3);
    ConformsAppend(ServerArity, p0 + p1 + p2 + p3, p4);
  }

  lemma ServerFixedConforms(name: string, cfg: ServerConfig)
    ensures Conforms(ServerArity, ServerFixed(name, cfg))
  {
    var opts := ServerFixed(name, cfg);
    forall i | 0 <= i < |opts| ensures opts[i].flag in ServerArity && ServerArity[opts[i].flag] == |opts[i].args| {
      assert opts[i].flag in ["-i", "-j", "-p", "-m", "-c", "-e", "-k"];
    }
  }

  /** The server's log file and the redirect into it. */
  function LogRedirect(name: string): seq<string>
  {
    [">", name + ".server-log.txt", "2>&1"]
  }

  /** `binary options > NAME.server-log.txt 2>&1`. */
  function ServerLine(name: string, cfg: ServerConfig): string
  {
    Join([cfg.binary] + Flatten(ServerOptions(name, cfg)) + LogRedirect(name), " ")
  }

  /** The server line is the server's command line followed by the redirect
      into the log file. */
  lemma ServerLineShape(name: string, cfg: ServerConfig)
    ensures ServerLine(name, cfg) ==
            CommandLine(cfg.binary, ServerOptions(name, cfg)) + " > " + name + ".server-log.txt 2>&1"
  {
    var head := [cfg.binary] + Flatten(ServerOptions(name, cfg));
    JoinAppend(head, LogRedirect(name), " ");
    RedirectText(name);
    AppendRedirect(Join(head, " "), name);
  }

  lemma RedirectText(name: string)
    ensures Join(LogRedirect(name), " ") == "> " + name + ".server-log.txt 2>&1"
  {
    var r := LogRedirect(name);
    var log := name + ".server-log.txt";
    assert r[1..] == [log, "2>&1"];
    assert r[1..][1..] == ["2>&1"];
    assert Join(r[1..], " ") == log + " " + "2>&1";
    assert Join(r, " ") == ">" + " " + (log + " " + "2>&1");
  }

  lemma AppendRedirect(line: string, name: string)
    ensures line + " " + ("> " + name + ".server-log.txt 2>&1") == line + " > " + name + ".server-log.txt 2>&1"
  {
  }

  /** Under plain values, the server receives the options rendered, and the
      words after them redirect its output into the log file. */
  lemma ServerReadBack(name: string, cfg: ServerConfig)
    requires Plain(cfg.binary) && PlainOptions(ServerOptions(name, cfg))
    ensures var ws := Split(CommandLine(cfg.binary, ServerOptions(name, cfg)), ' ');
            |ws| > 0 && ws[0] == cfg.binary && ReadOptions(ServerArity, ws[1..]) == Some(ServerOptions(name, cfg))
  {
    ServerConforms(name, cfg);
    CommandLineReadBack(cfg.binary, ServerOptions(name, cfg), ServerArity);
  }

  /** The `docker run` options of a server container, up to the container
      name: the pieces of the command line, joined by blanks. */
  function StartDockerPrefix(port: string): string
  {
    Join(["docker run -d --restart=unless-stopped", "-u $(id -u):$(id -g)",
          "-it -v /etc/localtime:/etc/localtime:ro", "-v $(pwd):/index",
          "-p " + port + ":" + port, "-w /index", "--entrypoint bash", "--name "], " ")
  }

  /** The command line `action_start` shows and runs. */
  function StartCommand(name: string, cfg: ServerConfig): string
  {
    var inner := ServerLine(name, cfg);
    match cfg.docker
    case None => "nohup " + inner + " &"
    case Some(box) => DockerRun(StartDockerPrefix(cfg.port), box, inner)
  }

  /** Without a container the server line runs under `nohup` in the
      background; with one, the container publishes the server port and its
      bash receives the server line intact. */
  lemma StartCommandShape(name: string, cfg: ServerConfig)
    ensures var inner := CommandLine(cfg.binary, ServerOptions(name, cfg)) + " > " + name + ".server-log.txt 2>&1";
            && (cfg.docker.None? ==> StartCommand(name, cfg) == "nohup " + inner + " &")
            && (cfg.docker.Some? ==>
                  var box := cfg.docker.value;
                  exists quoted ::
                    && StartCommand(name, cfg) == StartDockerPrefix(cfg.port) + box.name + " " + box.image + " -c " + quoted
                    && ReadWord(quoted) == Some(inner))
  {
    ServerLineShape(name, cfg);
    if cfg.docker.Some? {
      StartInContainer(name, cfg);
    } else {
      StartLocally(name, cfg);
    }
  }

  lemma StartLocally(name: string, cfg: ServerConfig)
    requires cfg.docker.None?
    ensures StartCommand(name, cfg) == "nohup " + ServerLine(name, cfg) + " &"
  {
  }

  lemma StartInContainer(name: string, cfg: ServerConfig)
    requires cfg.docker.Some?
    ensures exists quoted ::
              && StartCommand(name, cfg) == StartDockerPrefix(cfg.port) + cfg.docker.value.name + " " + cfg.docker.value.image + " -c " + quoted
              && ReadWord(quoted) == Some(ServerLine(name, cfg))
  {
    DockerRunReads(StartDockerPrefix(cfg.port), cfg.docker.value, ServerLine(name, cfg));
  }
}
