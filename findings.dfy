/** Two checks of the control script that cannot succeed as written, each
    modelled as written and as evidently intended:

    - `action_stop` looks for the server process with the regular expression
      `BINARY\S+ -i [^ ]*NAME` (qlever.py:425-426), but the process that
      `action_start` launches has the command line `BINARY -i NAME ...`, where
      a blank follows the binary, so `\S+` never matches it. The intended
      pattern is `BINARY.* -i [^ ]*NAME`.
    - `action_start` tests whether the port is taken with
      `port in [conn.laddr.port ...]` (qlever.py:377-381), comparing the port
      string from the configuration with integer ports; in Python a string
      never equals an integer, so the test never fires. The intended test
      compares the port with the decimal form of each listening port. */
module Findings {
  import opened Wrappers
  import opened Text
  import opened Shell
  import opened Render

  // ---------------------------------------------------------------------
  // The stop pattern

  /** What the stop pattern allows between the binary and ` -i `: `\S+`, as
      written, or `.*`, as intended. */
  datatype Gap = NonBlankRun | AnyRun

  /** The pattern text `action_stop` shows and matches with. */
  function StopPatternText(gap: Gap, binary: string, name: string): string
  {
    binary + (if gap == NonBlankRun then "\\S+" else ".*") + " -i [^ ]*" + name
  }

  predicate GapMatches(gap: Gap, w: string)
  {
    match gap
    case NonBlankRun => |w| > 0 && forall j :: 0 <= j < |w| ==> !IsSpace(w[j])
    case AnyRun => forall j :: 0 <= j < |w| ==> w[j] != '\n'
  }

  /** The pattern matches a prefix of `s` with the gap ending at `k` and the
      `[^ ]*` run ending at `j`. */
  predicate StopMatchAt(gap: Gap, binary: string, name: string, s: string, k: nat, j: nat)
  {
    && |binary| <= k && k + 4 <= j && j + |name| <= |s|
    && s[..|binary|] == binary
    && GapMatches(gap, s[|binary|..k])
    && s[k..k + 4] == " -i "
    && ' ' !in s[k + 4..j]
    && s[j..j + |name|] == name
  }

  /** `re.match(pattern, s)` succeeds, for a binary and a dataset name that
      contain no regular-expression metacharacters. */
  predicate StopMatches(gap: Gap, binary: string, name: string, s: string)
  {
    exists k: nat, j: nat | k <= |s| && j <= |s| :: StopMatchAt(gap, binary, name, s, k, j)
  }

  /** The command line of the server process `action_start` launches: the
      program and its options, as the shell passes them. */
  function ServerProcessLine(name: string, cfg: ServerConfig): string
  {
    CommandLine(cfg.binary, ServerOptions(name, cfg))
  }

  lemma ServerProcessLineStart(name: string, cfg: ServerConfig)
    ensures exists rest :: ServerProcessLine(name, cfg) == cfg.binary + " -i " + name + rest
  {
    var opts := ServerOptions(name, cfg);
    assert opts[0] == Opt("-i", [name]) by {
      assert opts[..7][0] == opts[0];
    }
    FlattenFirst(opts, name);
    LineWithFirstOption(cfg.binary, name, Flatten(opts[1..]));
  }

  lemma FlattenFirst(opts: seq<Opt>, name: string)
    requires |opts| > 0 && opts[0] == Opt("-i", [name])
    ensures Flatten(opts) == ["-i", name] + Flatten(opts[1..])
  {
  }

  /** A command line whose first words are `-i NAME` starts with that text. */
  lemma LineWithFirstOption(binary: string, name: string, tail: seq<string>)
    ensures exists rest :: Join([binary] + (["-i", name] + tail), " ") == binary + " -i " + name + rest
  {
    var ws := [binary] + (["-i", name] + tail);
    assert ws[1..] == ["-i", name] + tail;
    assert ws[1..][1..] == [name] + tail;
    var rest := if tail == [] then "" else " " + Join(tail, " ");
    assert Join([name] + tail, " ") == name + rest by {
      if tail != [] {
        assert ([name] + tail)[1..] == tail;
      }
    }
    assert Join(ws, " ") == binary + " " + ("-i" + " " + (name + rest));
    assert binary + " " + ("-i" + " " + (name + rest)) == binary + " -i " + name + rest;
  }

  /** As written, the pattern matches only lines in which the binary is
      directly followed by at least one more non-blank character. */
  lemma AsWrittenNeedsSuffix(binary: string, name: string, s: string)
    requires StopMatches(NonBlankRun, binary, name, s)
    ensures |s| > |binary| && !IsSpace(s[|binary|])
  {
    var k: nat, j: nat :| k <= |s| && j <= |s| && StopMatchAt(NonBlankRun, binary, name, s, k, j);
    var gap := s[|binary|..k];
    assert GapMatches(NonBlankRun, gap);
    assert gap[0] == s[|binary|];
  }

  /** Hence the as-written pattern never finds the server that `action_start`
      launched. */
  lemma AsWrittenMissesServer(name: string, cfg: ServerConfig)
    ensures !StopMatches(NonBlankRun, cfg.binary, name, ServerProcessLine(name, cfg))
  {
    ServerProcessLineStart(name, cfg);
    var rest :| ServerProcessLine(name, cfg) == cfg.binary + " -i " + name + rest;
    var s := ServerProcessLine(name, cfg);
    assert s[|cfg.binary|] == ' ';
    if StopMatches(NonBlankRun, cfg.binary, name, s) {
      AsWrittenNeedsSuffix(cfg.binary, name, s);
    }
  }

  /** The intended pattern finds it. */
  lemma CorrectedFindsServer(name: string, cfg: ServerConfig)
    ensures StopMatches(AnyRun, cfg.binary, name, ServerProcessLine(name, cfg))
  {
    ServerProcessLineStart(name, cfg);
    var rest :| ServerProcessLine(name, cfg) == cfg.binary + " -i " + name + rest;
    var s := ServerProcessLine(name, cfg);
    var k := |cfg.binary|;
    assert s[..k] == cfg.binary;
    assert s[k..k] == "";
    assert s[k..k + 4] == " -i ";
    assert s[k + 4..k + 4] == "";
    assert s[k + 4..k + 4 + |name|] == name;
    assert StopMatchAt(AnyRun, cfg.binary, name, s, k, k + 4);
  }

  /** Both patterns only match lines that start with the binary and name the
      dataset after `-i`; the intended one accepts every line the written one
      accepts. */
  lemma CorrectedWidens(binary: string, name: string, s: string)
    ensures StopMatches(NonBlankRun, binary, name, s) ==> StopMatches(AnyRun, binary, name, s)
    ensures StopMatches(AnyRun, binary, name, s) ==> |s| >= |binary| + 4 + |name| && s[..|binary|] == binary
  {
    if StopMatches(NonBlankRun, binary, name, s) {
      var k: nat, j: nat :| k <= |s| && j <= |s| && StopMatchAt(NonBlankRun, binary, name, s, k, j);
      var gap := s[|binary|..k];
      assert GapMatches(NonBlankRun, gap);
      assert IsSpace('\n');
      assert GapMatches(AnyRun, gap);
      assert StopMatchAt(AnyRun, binary, name, s, k, j);
    }
  }

  // ---------------------------------------------------------------------
  // The port check

  /** A Python value as `==` sees it: a string never equals an integer. */
  datatype PyValue = PyStr(s: string) | PyInt(n: int)

  /** `port in [conn.laddr.port for conn in psutil.net_connections()]` as
      written: the configured port is a string, the listening ports are
      integers. */
  predicate PortTakenAsWritten(port: string, listening: seq<nat>)
  {
    exists i :: 0 <= i < |listening| && PyStr(port) == PyInt(listening[i])
  }

  /** The decimal forms of the listening ports. */
  function PortStrings(listening: seq<nat>): (r: seq<string>)
    ensures |r| == |listening| && forall i :: 0 <= i < |listening| ==> r[i] == Decimal(listening[i])
  {
    seq(|listening|, i requires 0 <= i < |listening| => Decimal(listening[i]))
  }

  /** The intended check: the configured port is the decimal form of a
      listening port. */
  predicate PortTaken(port: string, listening: seq<nat>)
  {
    port in PortStrings(listening)
  }

  /** For a port written in decimal, the intended check fires exactly when
      the port is among the listening ports. */
  lemma PortTakenIff(port: nat, listening: seq<nat>)
    ensures PortTaken(Decimal(port), listening) <==> port in listening
  {
    if PortTaken(Decimal(port), listening) {
      var i :| 0 <= i < |listening| && PortStrings(listening)[i] == Decimal(port);
      DecimalInjective(listening[i], port);
    }
    if port in listening {
      var i :| 0 <= i < |listening| && listening[i] == port;
      assert PortStrings(listening)[i] == Decimal(port);
    }
  }

  // ---------------------------------------------------------------------
  // The program as written and as intended

  /** Which reading of the two checks the actions use: the source's, or the
      evidently intended one. */
  datatype Variant = AsWritten | Intended

  /** The gap of the stop pattern in each reading. */
  function GapOf(v: Variant): Gap
  {
    if v == AsWritten then NonBlankRun else AnyRun
  }

  /** The port test of `action_start` in each reading. */
  predicate PortCheck(v: Variant, port: string, listening: seq<nat>)
  {
    if v == AsWritten then PortTakenAsWritten(port, listening) else PortTaken(port, listening)
  }

  /** As written, the port test fails for every configured port. */
  lemma PortCheckAsWritten(port: string, listening: seq<nat>)
    ensures !PortCheck(AsWritten, port, listening)
  {
  }
}
