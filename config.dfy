/** The configuration store of the control script: the parsed Qleverfile as a
    two-level map, the built-in defaults injected when the actions object is
    created (qlever.py:70-106), and the scoped mutator `set_config`
    (qlever.py:170-183). Values are read raw: interpolation is not modelled. */
module ConfigStore {
  import opened Wrappers
  import opened Text

  type Options = map<string, string>

  /** A parsed configuration: the `DEFAULT` section, whose options every
      other section inherits, and the named sections. */
  datatype Config = Config(defaults: Options, sections: map<string, Options>)

  /** ConfigParser never lists `DEFAULT` among the named sections. */
  predicate WellFormed(c: Config)
  {
    "DEFAULT" !in c.sections
  }

  /** The section's own value for an option, if it has one. */
  function Own(c: Config, s: string, o: string): Option<string>
  {
    if s in c.sections && o in c.sections[s] then Some(c.sections[s][o]) else None
  }

  /** What section `s` shows for option `o`: its own value, else the one it
      inherits from `DEFAULT`. A missing section shows only the inherited
      options. */
  function Visible(c: Config, s: string, o: string): Option<string>
  {
    if Own(c, s, o).Some? then Own(c, s, o)
    else if o in c.defaults then Some(c.defaults[o])
    else None
  }

  /** `config[s].get(o)`: `None` when the section or the option is missing. */
  function Get(c: Config, s: string, o: string): Option<string>
  {
    if s in c.sections then Visible(c, s, o) else None
  }

  /** Python truthiness of an optional string: present and non-empty. */
  predicate Truthy(v: Option<string>)
  {
    v.Some? && v.value != ""
  }

  datatype Missing = Missing(section: string, option: string)

  /** `config[s][o]`, which raises `KeyError` when either is missing. */
  function Read(c: Config, s: string, o: string): (r: Result<string, Missing>)
    ensures r.Ok? <==> Get(c, s, o).Some?
    ensures r.Ok? ==> Get(c, s, o) == Some(r.value)
    ensures r.Err? ==> r.error == Missing(s, o)
  {
    match Get(c, s, o)
    case Some(v) => Ok(v)
    case None => Err(Missing(s, o))
  }

  /** The defaults of one section, in the order the table lists them. */
  datatype SectionDefaults = SectionDefaults(section: string, options: seq<(string, string)>)

  /** The built-in defaults; the container names are derived from the dataset
      name. */
  function DefaultsTable(name: string): seq<SectionDefaults>
  {
    [ SectionDefaults("general", [("log_level", "info")]),
      SectionDefaults("server", [ ("binary", "ServerMain"),
                                  ("num_threads", "8"),
                                  ("cache_max_size_gb", "5"),
                                  ("cache_max_size_gb_single_entry", "1"),
                                  ("cache_max_num_entries", "100"),
                                  ("with_text_index", "no"),
                                  ("only_pso_and_pos_permutations", "no"),
                                  ("no_patterns", "no") ]),
      SectionDefaults("index", [ ("binary", "IndexBuilderMain"),
                                 ("with_text_index", "no"),
                                 ("only_pso_and_pos_permutations", "no"),
                                 ("no_patterns", "no") ]),
      SectionDefaults("docker", [ ("image", "adfreiburg/qlever"),
                                  ("container_server", "qlever.server." + name),
                                  ("container_indexer", "qlever.indexer." + name) ]),
      SectionDefaults("ui", [("port", "7000")]) ]
  }

  /** `if not self.config.has_section(s): self.config[s] = {}`. */
  function EnsureSection(c: Config, s: string): (r: Config)
    ensures s in r.sections && r.sections.Keys == c.sections.Keys + {s}
    ensures r.defaults == c.defaults
    ensures forall s', o' :: Own(r, s', o') == Own(c, s', o')
  {
    if s in c.sections then c else c.(sections := c.sections[s := map[]])
  }

  /** The value a default-filling step leaves: a truthy value stays, and
      otherwise a default (when there is one) replaces it. */
  function Layer(current: Option<string>, default: Option<string>): Option<string>
  {
    if Truthy(current) || default.None? then current else default
  }

  /** `if not self.config[s].get(o): self.config[s][o] = v`. */
  function FillOption(c: Config, s: string, o: string, v: string): (r: Config)
    requires s in c.sections
    ensures r.sections.Keys == c.sections.Keys && r.defaults == c.defaults
    ensures Visible(r, s, o) == Layer(Visible(c, s, o), Some(v))
    ensures forall s', o' :: (s', o') != (s, o) ==> Own(r, s', o') == Own(c, s', o')
    ensures forall s', o' :: (s', o') != (s, o) ==> Visible(r, s', o') == Visible(c, s', o')
  {
    if Truthy(Get(c, s, o)) then c
    else c.(sections := c.sections[s := c.sections[s][o := v]])
  }

  /** The inner loop over one section's defaults, as a fold. */
  function FillOptions(c: Config, s: string, opts: seq<(string, string)>): (r: Config)
    requires s in c.sections
    ensures s in r.sections && r.sections.Keys == c.sections.Keys && r.defaults == c.defaults
    decreases |opts|
  {
    if opts == [] then c
    else
      var last := opts[|opts| - 1];
      FillOption(FillOptions(c, s, opts[..|opts| - 1]), s, last.0, last.1)
  }

  /** One more step of the inner fold. */
  lemma FillOptionsStep(c: Config, s: string, opts: seq<(string, string)>, j: nat)
    requires s in c.sections && j < |opts|
    ensures FillOptions(c, s, opts[..j + 1]) == FillOption(FillOptions(c, s, opts[..j]), s, opts[j].0, opts[j].1)
  {
    assert opts[..j + 1][..j] == opts[..j];
  }

  function MergeSection(c: Config, d: SectionDefaults): (r: Config)
    ensures r.sections.Keys == c.sections.Keys + {d.section} && r.defaults == c.defaults
  {
    FillOptions(EnsureSection(c, d.section), d.section, d.options)
  }

  /** The outer loop over the defaults table, as a fold. */
  function Merge(c: Config, table: seq<SectionDefaults>): (r: Config)
    ensures r.defaults == c.defaults
    decreases |table|
  {
    if table == [] then c
    else MergeSection(Merge(c, table[..|table| - 1]), table[|table| - 1])
  }

  /** The first default the options list gives for `o`. */
  function FirstOption(opts: seq<(string, string)>, o: string): Option<string>
    decreases |opts|
  {
    if opts == [] then None
    else
      var earlier := FirstOption(opts[..|opts| - 1], o);
      if earlier.Some? then earlier
      else if opts[|opts| - 1].0 == o then Some(opts[|opts| - 1].1)
      else None
  }

  /** The first default the table gives for option `o` of section `s`. */
  function FirstDefault(table: seq<SectionDefaults>, s: string, o: string): Option<string>
    decreases |table|
  {
    if table == [] then None
    else
      var earlier := FirstDefault(table[..|table| - 1], s, o);
      var d := table[|table| - 1];
      if earlier.Some? then earlier
      else if d.section == s then FirstOption(d.options, o)
      else None
  }

  function TableSections(table: seq<SectionDefaults>): set<string>
  {
    set i | 0 <= i < |table| :: table[i].section
  }

  predicate NonEmptyDefaults(table: seq<SectionDefaults>)
  {
    forall i, j :: 0 <= i < |table| && 0 <= j < |table[i].options| ==> table[i].options[j].1 != ""
  }

  lemma DefaultsTableNonEmpty(name: string)
    ensures NonEmptyDefaults(DefaultsTable(name))
  {
  }

  lemma {:induction false} FillOptionsView(c: Config, s: string, opts: seq<(string, string)>, o: string)
    requires s in c.sections
    requires NonEmptyOptions(opts)
    ensures Visible(FillOptions(c, s, opts), s, o) == Layer(Visible(c, s, o), FirstOption(opts, o))
    ensures forall s', o' :: s' != s ==> Visible(FillOptions(c, s, opts), s', o') == Visible(c, s', o')
    ensures FirstOption(opts, o) == None ==> Own(FillOptions(c, s, opts), s, o) == Own(c, s, o)
    ensures forall s', o' :: s' != s ==> Own(FillOptions(c, s, opts), s', o') == Own(c, s', o')
    ensures FirstOption(opts, o).Some? ==> Truthy(FirstOption(opts, o))
    decreases |opts|
  {
    if opts != [] {
      var init := opts[..|opts| - 1];
      FillOptionsView(c, s, init, o);
    }
  }

  predicate NonEmptyOptions(opts: seq<(string, string)>)
  {
    forall j :: 0 <= j < |opts| ==> opts[j].1 != ""
  }

  lemma NonEmptyDefaultsInit(table: seq<SectionDefaults>)
    requires NonEmptyDefaults(table) && table != []
    ensures NonEmptyDefaults(table[..|table| - 1])
    ensures NonEmptyOptions(table[|table| - 1].options)
  {
    var init := table[..|table| - 1];
    forall i, j | 0 <= i < |init| && 0 <= j < |init[i].options|
      ensures init[i].options[j].1 != ""
    {
      assert init[i] == table[i];
    }
  }

  /** What merging one section's defaults does to option `o` of section `s`. */
  lemma MergeSectionView(m: Config, d: SectionDefaults, s: string, o: string)
    requires NonEmptyOptions(d.options)
    ensures Visible(MergeSection(m, d), s, o) == Layer(Visible(m, s, o), if d.section == s then FirstOption(d.options, o) else None)
    ensures (d.section != s || FirstOption(d.options, o) == None) ==> Own(MergeSection(m, d), s, o) == Own(m, s, o)
    ensures d.section == s && FirstOption(d.options, o).Some? ==> Truthy(FirstOption(d.options, o))
  {
    var e := EnsureSection(m, d.section);
    FillOptionsView(e, d.section, d.options, o);
    assert Visible(e, s, o) == Visible(m, s, o);
  }

  /** What the whole merge does to every option of every section: a truthy
      value stays, a missing or empty one takes the first default the table
      gives for it, and options the table does not name keep their value. */
  lemma {:induction false} MergeView(c: Config, table: seq<SectionDefaults>, s: string, o: string)
    requires NonEmptyDefaults(table)
    ensures Visible(Merge(c, table), s, o) == Layer(Visible(c, s, o), FirstDefault(table, s, o))
    ensures FirstDefault(table, s, o) == None ==> Own(Merge(c, table), s, o) == Own(c, s, o)
    ensures FirstDefault(table, s, o).Some? ==> Truthy(FirstDefault(table, s, o))
    decreases |table|
  {
    if table != [] {
      var init := table[..|table| - 1];
      NonEmptyDefaultsInit(table);
      MergeView(c, init, s, o);
      MergeSectionView(Merge(c, init), table[|table| - 1], s, o);
    }
  }

  lemma TableSectionsInit(table: seq<SectionDefaults>)
    requires table != []
    ensures TableSections(table) == TableSections(table[..|table| - 1]) + {table[|table| - 1].section}
  {
    var init := table[..|table| - 1];
    forall x | x in TableSections(table) ensures x in TableSections(init) + {table[|table| - 1].section} {
      var i :| 0 <= i < |table| && table[i].section == x;
      if i < |table| - 1 {
        assert init[i] == table[i];
      }
    }
    forall x | x in TableSections(init) ensures x in TableSections(table) {
      var i :| 0 <= i < |init| && init[i].section == x;
      assert table[i] == init[i];
    }
  }

  lemma {:induction false} MergeSectionsExist(c: Config, table: seq<SectionDefaults>)
    ensures Merge(c, table).sections.Keys == c.sections.Keys + TableSections(table)
    decreases |table|
  {
    if table != [] {
      MergeSectionsExist(c, table[..|table| - 1]);
      TableSectionsInit(table);
    }
  }

  lemma {:induction false} FirstOptionFound(opts: seq<(string, string)>, j: nat)
    requires j < |opts|
    ensures FirstOption(opts, opts[j].0).Some?
    decreases |opts|
  {
    if j < |opts| - 1 {
      FirstOptionFound(opts[..|opts| - 1], j);
    }
  }

  lemma {:induction false} FirstDefaultFound(table: seq<SectionDefaults>, i: nat, j: nat)
    requires i < |table| && j < |table[i].options|
    ensures FirstDefault(table, table[i].section, table[i].options[j].0).Some?
    decreases |table|
  {
    if i < |table| - 1 {
      var init := table[..|table| - 1];
      assert init[i] == table[i];
      FirstDefaultFound(init, i, j);
    } else {
      FirstOptionFound(table[i].options, j);
    }
  }

  /** Every section and option of the table is present, with a non-empty
      value, once the defaults are merged. */
  predicate Complete(c: Config, table: seq<SectionDefaults>)
  {
    && (forall i :: 0 <= i < |table| ==> table[i].section in c.sections)
    && forall i, j :: 0 <= i < |table| && 0 <= j < |table[i].options| ==>
      Truthy(Get(c, table[i].section, table[i].options[j].0))
  }

  /** The merge fills: afterwards every option of the table shows a
      non-empty value. */
  lemma MergeFills(c: Config, table: seq<SectionDefaults>)
    requires NonEmptyDefaults(table)
    ensures Complete(Merge(c, table), table)
  {
    var m := Merge(c, table);
    MergeSectionsExist(c, table);
    forall i | 0 <= i < |table| ensures table[i].section in m.sections {
      assert table[i].section in TableSections(table);
    }
    forall i, j | 0 <= i < |table| && 0 <= j < |table[i].options|
      ensures Truthy(Get(m, table[i].section, table[i].options[j].0))
    {
      var s, o := table[i].section, table[i].options[j].0;
      assert s in TableSections(table);
      FirstDefaultFound(table, i, j);
      MergeView(c, table, s, o);
    }
  }

  /** The merge preserves: an option that already showed a non-empty value
      shows the same value afterwards, and an option the table does not name
      is not touched at all. */
  lemma MergePreserves(c: Config, table: seq<SectionDefaults>, s: string, o: string)
    requires NonEmptyDefaults(table)
    ensures Truthy(Get(c, s, o)) ==> Get(Merge(c, table), s, o) == Get(c, s, o)
    ensures FirstDefault(table, s, o) == None ==> Own(Merge(c, table), s, o) == Own(c, s, o)
    ensures c.sections.Keys <= Merge(c, table).sections.Keys
  {
    MergeView(c, table, s, o);
    MergeSectionsExist(c, table);
  }

  /** Merging into a configuration that is already complete changes nothing. */
  lemma {:induction false} MergeComplete(c: Config, table: seq<SectionDefaults>)
    requires Complete(c, table)
    ensures Merge(c, table) == c
    decreases |table|
  {
    if table != [] {
      var init := table[..|table| - 1];
      var d := table[|table| - 1];
      assert Complete(c, init) by {
        forall i | 0 <= i < |init| ensures init[i].section in c.sections {
          assert init[i] == table[i];
        }
        forall i, j | 0 <= i < |init| && 0 <= j < |init[i].options|
          ensures Truthy(Get(c, init[i].section, init[i].options[j].0))
        {
          assert init[i] == table[i];
        }
      }
      MergeComplete(c, init);
      assert forall j :: 0 <= j < |d.options| ==> Truthy(Get(c, d.section, d.options[j].0)) by {
        forall j | 0 <= j < |d.options| ensures Truthy(Get(c, d.section, d.options[j].0)) {
          assert table[|table| - 1] == d;
        }
      }
      assert d.section in c.sections;
      FillOptionsComplete(c, d.section, d.options);
    }
  }

  lemma {:induction false} FillOptionsComplete(c: Config, s: string, opts: seq<(string, string)>)
    requires s in c.sections
    requires forall j :: 0 <= j < |opts| ==> Truthy(Get(c, s, opts[j].0))
    ensures FillOptions(c, s, opts) == c
    decreases |opts|
  {
    if opts != [] {
      FillOptionsComplete(c, s, opts[..|opts| - 1]);
    }
  }

  /** The merge is idempotent. */
  lemma MergeIdempotent(c: Config, table: seq<SectionDefaults>)
    requires NonEmptyDefaults(table)
    ensures Merge(Merge(c, table), table) == Merge(c, table)
  {
    MergeFills(c, table);
    MergeComplete(Merge(c, table), table);
  }

  datatype SetError = NoSuchSection(section: string) | NoSuchOption(section: string, option: string)

  /** The options section `s` lets a caller set: its own and the inherited
      ones. */
  function OptionNames(c: Config, s: string): set<string>
    requires s in c.sections
  {
    c.sections[s].Keys + c.defaults.Keys
  }

  /** `set_config(section, option, value)`: fails for an unknown section (for a
      well-formed configuration the `DEFAULT` section included, which
      `has_section` does not report) or an
      unknown option, and otherwise stores the value under the lower-cased
      option name in the section itself. */
  function Set(c: Config, section: string, option: string, value: string): (r: Result<Config, SetError>)
    ensures section !in c.sections ==> r == Err(NoSuchSection(section))
    ensures section in c.sections && Get(c, section, Lower(option)).None? ==>
              r == Err(NoSuchOption(section, Lower(option)))
    ensures r.Ok? <==> Get(c, section, Lower(option)).Some?
    ensures r.Ok? ==> r.value.defaults == c.defaults
    ensures r.Ok? ==> r.value.sections.Keys == c.sections.Keys
    ensures r.Ok? ==> forall s :: s in c.sections ==> OptionNames(r.value, s) == OptionNames(c, s)
    ensures r.Ok? ==> Get(r.value, section, Lower(option)) == Some(value)
    ensures r.Ok? ==> forall s, o :: (s, o) != (section, Lower(option)) ==> Get(r.value, s, o) == Get(c, s, o)
  {
    var o := Lower(option);
    if section !in c.sections then Err(NoSuchSection(section))
    else if !(o in c.sections[section] || o in c.defaults) then Err(NoSuchOption(section, o))
    else Ok(c.(sections := c.sections[section := c.sections[section][o := value]]))
  }

  /** For a configuration as parsed, `set_config` refuses the `DEFAULT`
      section whatever the option. */
  lemma SetRefusesDefault(c: Config, option: string, value: string)
    requires WellFormed(c)
    ensures Set(c, "DEFAULT", option, value) == Err(NoSuchSection("DEFAULT"))
  {
  }
}
