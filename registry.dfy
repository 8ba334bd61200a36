/** The actions of the control script and how the command line names them:
    each `action_*` method of `Actions` is an action whose name drops the
    `action_` prefix and writes `-` for `_` (qlever.py:533-537, 583-585), and
    the `track_action_rank` decorator numbers the methods in the order the
    class defines them (qlever.py:50-54). */
module Registry {
  import opened Wrappers
  import opened Text

  datatype ActionKind = ShowConfig | GetData | Index | Start | Stop | Status

  /** The action methods in the order the class defines (and decorates)
      them. */
  const DefinitionOrder: seq<ActionKind> := [ShowConfig, GetData, Index, Start, Stop, Status]

  /** The action methods in the order `dir(Actions)` lists them, which is
      alphabetical. */
  const DirOrder: seq<ActionKind> := [GetData, Index, ShowConfig, Start, Status, Stop]

  function MethodSuffix(k: ActionKind): string
  {
    match k
    case ShowConfig => "show_config"
    case GetData => "get_data"
    case Index => "index"
    case Start => "start"
    case Stop => "stop"
    case Status => "status"
  }

  const MethodPrefix: string := "action_"

  function MethodName(k: ActionKind): string
  {
    MethodPrefix + MethodSuffix(k)
  }

  /** `m.replace("action_", "").replace("_", "-")`. */
  function ActionName(m: string): string
  {
    ReplaceChar(ReplaceAll(m, MethodPrefix, ""), '_', '-')
  }

  /** `f"action_{name.replace('-', '_')}"`, the method `main` calls for an
      action name. */
  function MethodOf(name: string): string
  {
    MethodPrefix + ReplaceChar(name, '-', '_')
  }

  /** For a suffix that lacks one of the characters of `action_` (so the
      prefix occurs only at the front) and has no `-`, the action name is the
      suffix with `-` for `_`, and the method `main` calls for that name is
      the method again. */
  lemma NameRoundTripOf(suffix: string, c: char)
    requires c in MethodPrefix && c !in suffix && '-' !in suffix
    ensures ActionName(MethodPrefix + suffix) == ReplaceChar(suffix, '_', '-')
    ensures MethodOf(ActionName(MethodPrefix + suffix)) == MethodPrefix + suffix
  {
    ReplaceAllLeading(suffix, MethodPrefix, "");
    ReplaceAllAbsent(suffix, MethodPrefix, "", c);
    assert "" + suffix == suffix;
    ReplaceCharBack(suffix, '_', '-');
  }

  lemma NameRoundTrip(k: ActionKind)
    ensures ActionName(MethodName(k)) == ReplaceChar(MethodSuffix(k), '_', '-')
    ensures MethodOf(ActionName(MethodName(k))) == MethodName(k)
  {
    var c := if k in {GetData, Start, Status} then 'c' else 'a';
    NameRoundTripOf(MethodSuffix(k), c);
  }

  /** The name of action `k` on the command line. */
  function NameOf(k: ActionKind): (r: string)
    ensures r == ActionName(MethodName(k))
    ensures MethodOf(r) == MethodName(k)
  {
    NameRoundTrip(k);
    ReplaceChar(MethodSuffix(k), '_', '-')
  }

  /** Different actions have different names. */
  lemma NamesDistinct(k1: ActionKind, k2: ActionKind)
    requires k1 != k2
    ensures NameOf(k1) != NameOf(k2)
  {
  }

  /** `a < b` on Python strings: at the first position where they differ
      `a` has the smaller character, or `a` is a proper prefix of `b`. */
  predicate LexLess(a: string, b: string)
  {
    exists k: nat | k <= |a| && k < |b| :: a[..k] == b[..k] && (k == |a| || a[k] < b[k])
  }

  /** Strings with a common prefix compare as what follows it does. */
  lemma LexLessAfter(p: string, a: string, b: string, k: nat)
    requires k < |a| && k < |b| && a[..k] == b[..k] && a[k] < b[k]
    ensures LexLess(p + a, p + b)
  {
    var n := |p| + k;
    assert (p + a)[..n] == p + a[..k];
    assert (p + b)[..n] == p + b[..k];
    assert (p + a)[n] == a[k] && (p + b)[n] == b[k];
  }

  /** `DirOrder` is the order of `dir(Actions)`: the method names in strictly
      increasing string order. */
  lemma DirOrderSorted()
    ensures forall i :: 0 <= i < |DirOrder| - 1 ==> LexLess(MethodName(DirOrder[i]), MethodName(DirOrder[i + 1]))
  {
    MethodNamesOrdered();
  }

  lemma MethodNamesOrdered()
    ensures LexLess(MethodName(GetData), MethodName(Index))
    ensures LexLess(MethodName(Index), MethodName(ShowConfig))
    ensures LexLess(MethodName(ShowConfig), MethodName(Start))
    ensures LexLess(MethodName(Start), MethodName(Status))
    ensures LexLess(MethodName(Status), MethodName(Stop))
  {
    LexLessAfter(MethodPrefix, MethodSuffix(GetData), MethodSuffix(Index), 0);
    LexLessAfter(MethodPrefix, MethodSuffix(Index), MethodSuffix(ShowConfig), 0);
    assert MethodSuffix(ShowConfig)[..1] == MethodSuffix(Start)[..1] == "s";
    LexLessAfter(MethodPrefix, MethodSuffix(ShowConfig), MethodSuffix(Start), 1);
    assert MethodSuffix(Start)[..3] == MethodSuffix(Status)[..3] == "sta";
    LexLessAfter(MethodPrefix, MethodSuffix(Start), MethodSuffix(Status), 3);
    assert MethodSuffix(Status)[..2] == MethodSuffix(Stop)[..2] == "st";
    LexLessAfter(MethodPrefix, MethodSuffix(Status), MethodSuffix(Stop), 2);
  }

  /** `action_names` in `main`: the action names in the order `dir` lists
      the methods. */
  function ActionNames(): (r: seq<string>)
    ensures |r| == |DirOrder| && forall i :: 0 <= i < |DirOrder| ==> r[i] == NameOf(DirOrder[i])
  {
    seq(|DirOrder|, i requires 0 <= i < |DirOrder| => NameOf(DirOrder[i]))
  }

  /** The action names hold the name of every action exactly once, and the
      method names behind them come in Python's string order, as `dir`
      sorts them. */
  lemma ActionNamesInDirOrder()
    ensures forall k: ActionKind :: NameOf(k) in ActionNames()
    ensures forall i, j :: 0 <= i < j < |ActionNames()| ==> ActionNames()[i] != ActionNames()[j]
    ensures forall i :: 0 <= i < |ActionNames()| - 1 ==> LexLess(MethodOf(ActionNames()[i]), MethodOf(ActionNames()[i + 1]))
  {
    DirOrderSorted();
    DirOrderComplete();
    NamesOfEvery(DirOrder, ActionNames());
  }

  /** `dir` lists every action method, each once. */
  lemma DirOrderComplete()
    ensures forall k: ActionKind :: k in DirOrder
    ensures forall i, j :: 0 <= i < j < |DirOrder| ==> DirOrder[i] != DirOrder[j]
  {
    forall k: ActionKind
      ensures k in DirOrder
    {
      var i := match k
        case GetData => 0 case Index => 1 case ShowConfig => 2
        case Start => 3 case Status => 4 case Stop => 5;
      assert DirOrder[i] == k;
    }
  }

  /** The names of a list with every action, each once, are the name of
      every action, each once. */
  lemma NamesOfEvery(ks: seq<ActionKind>, r: seq<string>)
    requires forall k: ActionKind :: k in ks
    requires forall i, j :: 0 <= i < j < |ks| ==> ks[i] != ks[j]
    requires |r| == |ks| && forall i :: 0 <= i < |ks| ==> r[i] == NameOf(ks[i])
    ensures forall k: ActionKind :: NameOf(k) in r
    ensures forall i, j :: 0 <= i < j < |r| ==> r[i] != r[j]
  {
    forall k: ActionKind
      ensures NameOf(k) in r
    {
      assert k in ks;
      var i :| 0 <= i < |ks| && ks[i] == k;
      assert r[i] == NameOf(k);
    }
    forall i, j | 0 <= i < j < |r|
      ensures r[i] != r[j]
    {
      NamesDistinct(ks[i], ks[j]);
    }
  }

  /** The first action of `ks` that `name` names, if any. */
  function FindName(name: string, ks: seq<ActionKind>): (r: Option<ActionKind>)
    ensures r.Some? ==> r.value in ks && NameOf(r.value) == name
    ensures r.None? <==> forall i :: 0 <= i < |ks| ==> NameOf(ks[i]) != name
    decreases |ks|
  {
    if ks == [] then None
    else if NameOf(ks[0]) == name then Some(ks[0])
    else FindName(name, ks[1..])
  }

  /** The action a command-line token names, if any: `action in
      action_names` and the method that name stands for. */
  function Lookup(name: string): (r: Option<ActionKind>)
    ensures r.Some? ==> NameOf(r.value) == name
    ensures r.None? <==> name !in ActionNames()
  {
    FindName(name, DirOrder)
  }

  /** Every action can be named, and its name calls it. */
  lemma LookupName(k: ActionKind)
    ensures Lookup(NameOf(k)) == Some(k)
  {
    var r := Lookup(NameOf(k));
    if r.value != k {
      NamesDistinct(r.value, k);
    }
  }

  // ---------------------------------------------------------------------
  // Ranks

  /** `track_action_rank.counter`. */
  class RankCounter {
    var counter: nat

    constructor()
      ensures counter == 0
    {
      counter := 0;
    }

    /** `track_action_rank(method)`: the method gets the current counter as
        its rank, and the counter moves on. */
    method Track() returns (rank: nat)
      modifies this
      ensures rank == old(counter) && counter == old(counter) + 1
    {
      rank := counter;
      counter := counter + 1;
    }
  }

  /** Decorates the action methods in definition order, starting from a
      fresh counter. */
  method RegisterActions() returns (ranks: map<ActionKind, nat>)
    ensures forall i :: 0 <= i < |DefinitionOrder| ==> DefinitionOrder[i] in ranks && ranks[DefinitionOrder[i]] == i
    ensures ranks.Keys == set k | k in DefinitionOrder
    ensures forall k: ActionKind :: k in ranks && ranks[k] == Rank(k)
  {
    var counter := new RankCounter();
    ranks := map[];
    var i := 0;
    while i < |DefinitionOrder|
      invariant 0 <= i <= |DefinitionOrder|
      invariant counter.counter == i
      invariant forall j :: 0 <= j < i ==> DefinitionOrder[j] in ranks && ranks[DefinitionOrder[j]] == j
      invariant ranks.Keys == set j | 0 <= j < i :: DefinitionOrder[j]
    {
      var k := DefinitionOrder[i];
      var r := counter.Track();
      ranks := ranks[k := r];
      i := i + 1;
    }
    forall k: ActionKind
      ensures k in ranks && ranks[k] == Rank(k)
    {
      RankIsPosition(k);
    }
  }

  /** The rank `RegisterActions` gives each action. */
  function Rank(k: ActionKind): nat
  {
    match k
    case ShowConfig => 0
    case GetData => 1
    case Index => 2
    case Start => 3
    case Stop => 4
    case Status => 5
  }

  /** The rank of an action is its position in definition order. */
  lemma RankIsPosition(k: ActionKind)
    ensures Rank(k) < |DefinitionOrder| && DefinitionOrder[Rank(k)] == k
  {
  }

  /** Ranks strictly increase in definition order. */
  lemma RanksIncrease(i: nat, j: nat)
    requires i < j < |DefinitionOrder|
    ensures Rank(DefinitionOrder[i]) < Rank(DefinitionOrder[j])
  {
  }

  predicate SortedByRank(ks: seq<ActionKind>)
  {
    forall i, j :: 0 <= i < j < |ks| ==> Rank(ks[i]) < Rank(ks[j])
  }

  /** Inserts `k` before the first action of higher rank. */
  function Insert(k: ActionKind, ks: seq<ActionKind>): (r: seq<ActionKind>)
    ensures multiset(r) == multiset(ks) + multiset{k}
    decreases |ks|
  {
    if ks == [] || Rank(k) <= Rank(ks[0]) then [k] + ks
    else
      assert ks == [ks[0]] + ks[1..];
      [ks[0]] + Insert(k, ks[1..])
  }

  /** `sorted(names, key=rank)`. */
  function SortByRank(ks: seq<ActionKind>): (r: seq<ActionKind>)
    ensures multiset(r) == multiset(ks)
    decreases |ks|
  {
    if ks == [] then []
    else
      assert ks == [ks[0]] + ks[1..];
      Insert(ks[0], SortByRank(ks[1..]))
  }

  lemma {:induction false} InsertSorted(k: ActionKind, ks: seq<ActionKind>)
    requires SortedByRank(ks) && k !in ks
    ensures SortedByRank(Insert(k, ks))
    decreases |ks|
  {
    if ks != [] && Rank(k) > Rank(ks[0]) {
      InsertSorted(k, ks[1..]);
      var tail := Insert(k, ks[1..]);
      forall j | 0 <= j < |tail| ensures Rank(ks[0]) < Rank(tail[j]) {
        InsertMembers(k, ks[1..], tail[j]);
        if tail[j] != k {
          var m :| 0 <= m < |ks[1..]| && ks[1..][m] == tail[j];
          assert ks[1..][m] == ks[m + 1];
        }
      }
      SortedCons(ks[0], tail);
    } else {
      forall j | 0 <= j < |ks| ensures Rank(k) < Rank(ks[j]) {
        if j > 0 {
          assert Rank(ks[0]) < Rank(ks[j]);
        }
      }
      SortedCons(k, ks);
    }
  }

  lemma InsertMembers(k: ActionKind, ks: seq<ActionKind>, x: ActionKind)
    ensures x in Insert(k, ks) <==> x == k || x in ks
  {
    assert x in Insert(k, ks) <==> x in multiset(Insert(k, ks));
    assert x in ks <==> x in multiset(ks);
  }

  lemma SortedCons(x: ActionKind, t: seq<ActionKind>)
    requires SortedByRank(t)
    requires forall j :: 0 <= j < |t| ==> Rank(x) < Rank(t[j])
    ensures SortedByRank([x] + t)
  {
    var r := [x] + t;
    forall i, j | 0 <= i < j < |r| ensures Rank(r[i]) < Rank(r[j]) {
      assert r[j] == t[j - 1];
      if i > 0 {
        assert r[i] == t[i - 1];
      }
    }
  }

  lemma RankInjective(a: ActionKind, b: ActionKind)
    requires Rank(a) == Rank(b)
    ensures a == b
  {
  }

  /** Sorting a list of distinct actions by rank orders them by rank. */
  lemma {:induction false} SortByRankSorted(ks: seq<ActionKind>)
    requires forall i, j :: 0 <= i < j < |ks| ==> ks[i] != ks[j]
    ensures SortedByRank(SortByRank(ks))
    decreases |ks|
  {
    if ks != [] {
      SortByRankSorted(ks[1..]);
      assert ks[0] !in multiset(ks[1..]);
      assert ks[0] !in SortByRank(ks[1..]) by {
        assert multiset(SortByRank(ks[1..])) == multiset(ks[1..]);
      }
      InsertSorted(ks[0], SortByRank(ks[1..]));
    }
  }

  /** Two lists ordered by rank with the same elements are the same list. */
  lemma {:induction false} SortedUnique(a: seq<ActionKind>, b: seq<ActionKind>)
    requires SortedByRank(a) && SortedByRank(b)
    requires forall x :: x in a <==> x in b
    ensures a == b
    decreases |a|
  {
    if a == [] || b == [] {
      if a != [] {
        HeadIn(a);
      } else if b != [] {
        HeadIn(b);
      }
    } else {
      HeadsEqual(a, b);
      forall x ensures x in a[1..] <==> x in b[1..] {
        TailMembers(a, x);
        TailMembers(b, x);
      }
      SortedTail(a);
      SortedTail(b);
      SortedUnique(a[1..], b[1..]);
      assert a == [a[0]] + a[1..] && b == [b[0]] + b[1..];
    }
  }

  /** Two non-empty lists ordered by rank with the same elements start with
      the same action. */
  lemma HeadsEqual(a: seq<ActionKind>, b: seq<ActionKind>)
    requires SortedByRank(a) && SortedByRank(b) && a != [] && b != []
    requires forall x :: x in a <==> x in b
    ensures a[0] == b[0]
  {
    HeadIn(a);
    HeadIn(b);
    var m :| 0 <= m < |b| && b[m] == a[0];
    var n :| 0 <= n < |a| && a[n] == b[0];
    var ra, rb := Rank(a[0]), Rank(b[0]);
    assert m == 0 || rb < ra;
    assert n == 0 || ra < rb;
  }

  lemma SortedTail(a: seq<ActionKind>)
    requires SortedByRank(a) && a != []
    ensures SortedByRank(a[1..])
  {
    forall i, j | 0 <= i < j < |a[1..]| ensures Rank(a[1..][i]) < Rank(a[1..][j]) {
      assert a[1..][i] == a[i + 1] && a[1..][j] == a[j + 1];
    }
  }

  lemma HeadIn(s: seq<ActionKind>)
    requires |s| > 0
    ensures s[0] in s
  {
  }

  /** In a list ordered by rank, the tail holds every member but the head. */
  lemma TailMembers(a: seq<ActionKind>, x: ActionKind)
    requires SortedByRank(a) && a != []
    ensures x in a[1..] <==> x in a && x != a[0]
  {
    if x in a[1..] {
      var i :| 0 <= i < |a[1..]| && a[1..][i] == x;
      assert a[i + 1] == x;
      assert Rank(a[0]) < Rank(a[i + 1]);
    }
    if x in a && x != a[0] {
      var i :| 0 <= i < |a| && a[i] == x;
      assert a[1..][i - 1] == x;
    }
  }

  /** The completion order: the `dir` list sorted by rank is the definition
      order. */
  lemma CompletionOrder()
    ensures SortByRank(DirOrder) == DefinitionOrder
  {
    RankOrderOf(DirOrder);
  }

  /** Any arrangement of the six actions, sorted by rank, is the definition
      order. */
  lemma RankOrderOf(ks: seq<ActionKind>)
    requires forall i, j :: 0 <= i < j < |ks| ==> ks[i] != ks[j]
    requires forall x :: x in ks <==> x in DefinitionOrder
    ensures SortByRank(ks) == DefinitionOrder
  {
    DefinitionOrderSorted();
    SortByRankIs(ks, DefinitionOrder);
  }

  /** Sorting by rank yields the one list ordered by rank that has the same
      elements. */
  lemma SortByRankIs(ks: seq<ActionKind>, d: seq<ActionKind>)
    requires forall i, j :: 0 <= i < j < |ks| ==> ks[i] != ks[j]
    requires SortedByRank(d)
    requires forall x :: x in ks <==> x in d
    ensures SortByRank(ks) == d
  {
    SortByRankSorted(ks);
    forall x ensures x in SortByRank(ks) <==> x in d {
      SortByRankMembers(ks, x);
    }
    SortedUnique(SortByRank(ks), d);
  }

  lemma SortByRankMembers(ks: seq<ActionKind>, x: ActionKind)
    ensures x in SortByRank(ks) <==> x in ks
  {
    assert x in SortByRank(ks) <==> x in multiset(SortByRank(ks));
    assert x in ks <==> x in multiset(ks);
  }

  lemma DefinitionOrderSorted()
    ensures SortedByRank(DefinitionOrder)
  {
  }

  /** The names of a list of actions. */
  function Names(ks: seq<ActionKind>): (r: seq<string>)
    ensures |r| == |ks| && forall i :: 0 <= i < |ks| ==> r[i] == NameOf(ks[i])
  {
    seq(|ks|, i requires 0 <= i < |ks| => NameOf(ks[i]))
  }

  /** The configuration settings offered for completion after the actions. */
  const CompletionSettings: seq<string> :=
    ["docker.USE_DOCKER=true", "docker.USE_DOCKER=false", "index.BINARY=IndexBuilderMain", "server.BINARY=ServerMain"]

  /** The words offered for completion: the action names in rank order, then
      four configuration settings (qlever.py:533-542). */
  function CompletionWords(): (r: seq<string>)
    ensures r == Names(DefinitionOrder) + CompletionSettings
  {
    CompletionOrder();
    Names(SortByRank(DirOrder)) + CompletionSettings
  }
}
