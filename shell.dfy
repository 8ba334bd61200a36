/** How a rendered command line reaches the programs it names: `shlex.quote`
    (the wrapper used for the container's inner command), a reader for the
    single shell words it produces, and a reader for a program's options. */
module Shell {
  import opened Wrappers
  import opened Text

  /** The characters `shlex.quote` leaves unquoted: `[\w@%+=:,./-]` in ASCII. */
  predicate SafeChar(ch: char)
  {
    IsWordChar(ch) || ch in "@%+=:,./-"
  }

  /** A non-empty word of safe characters: the shell passes it through
      unchanged and does not split it. */
  predicate Plain(w: string)
  {
    |w| > 0 && forall j :: 0 <= j < |w| ==> SafeChar(w[j])
  }

  /** `s.replace("'", "'\"'\"'")`. */
  function Escape(s: string): string
    decreases |s|
  {
    if s == [] then []
    else (if s[0] == '\'' then "'\"'\"'" else [s[0]]) + Escape(s[1..])
  }

  /** `shlex.quote(s)`. */
  function Quote(s: string): string
  {
    if s == "" then "''"
    else if forall j :: 0 <= j < |s| ==> SafeChar(s[j]) then s
    else "'" + Escape(s) + "'"
  }

  datatype QuoteMode = Bare | InSingle | InDouble

  function Prepend(prefix: string, r: Option<string>): Option<string>
  {
    match r
    case None => None
    case Some(w) => Some(prefix + w)
  }

  /** What a POSIX shell makes of `s` as one word, for the words built from
      safe characters, single-quoted parts and double-quoted parts without
      `$`, backquote or backslash; anything else reads as `None`. */
  function ReadFrom(mode: QuoteMode, s: string): Option<string>
    decreases |s|
  {
    if s == [] then (if mode == Bare then Some("") else None)
    else
      var ch, rest := s[0], s[1..];
      match mode
      case Bare =>
        if ch == '\'' then ReadFrom(InSingle, rest)
        else if ch == '"' then ReadFrom(InDouble, rest)
        else if SafeChar(ch) then Prepend([ch], ReadFrom(Bare, rest))
        else None
      case InSingle =>
        if ch == '\'' then ReadFrom(Bare, rest)
        else Prepend([ch], ReadFrom(InSingle, rest))
      case InDouble =>
        if ch == '"' then ReadFrom(Bare, rest)
        else if ch in "$`\\" then None
        else Prepend([ch], ReadFrom(InDouble, rest))
  }

  function ReadWord(s: string): Option<string>
  {
    ReadFrom(Bare, s)
  }

  lemma {:induction false} ReadSafe(s: string)
    requires forall j :: 0 <= j < |s| ==> SafeChar(s[j])
    ensures ReadFrom(Bare, s) == Some(s)
    decreases |s|
  {
    if s != [] {
      ReadSafe(s[1..]);
      assert [s[0]] + s[1..] == s;
    }
  }

  lemma PrependTwice(a: string, b: string, r: Option<string>)
    ensures Prepend(a, Prepend(b, r)) == Prepend(a + b, r)
  {
    if r.Some? {
      assert a + (b + r.value) == (a + b) + r.value;
    }
  }

  /** Inside single quotes, the escape of one quote character reads as that
      character and leaves the reader inside single quotes again. */
  lemma ReadEscapedQuote(t: string)
    ensures ReadFrom(InSingle, "'\"'\"'" + t) == Prepend("'", ReadFrom(InSingle, t))
  {
    var u1 := "\"'\"'" + t;
    var u2 := "'\"'" + t;
    var u3 := "\"'" + t;
    var u4 := "'" + t;
    var u := "'" + u1;
    assert "'\"'\"'" + t == u;
    assert u[0] == '\'' && u[1..] == u1;
    assert u1[0] == '"' && u1[1..] == u2;
    assert u2[0] == '\'' && u2[1..] == u3;
    assert u3[0] == '"' && u3[1..] == u4;
    assert u4[0] == '\'' && u4[1..] == t;
    calc {
      ReadFrom(InSingle, u);
      ReadFrom(Bare, u1);
      ReadFrom(InDouble, u2);
      Prepend("'", ReadFrom(InDouble, u3));
      Prepend("'", ReadFrom(Bare, u4));
      Prepend("'", ReadFrom(InSingle, t));
    }
  }

  lemma ReadSingleChar(ch: char, t: string)
    requires ch != '\''
    ensures ReadFrom(InSingle, [ch] + t) == Prepend([ch], ReadFrom(InSingle, t))
  {
    assert ([ch] + t)[0] == ch && ([ch] + t)[1..] == t;
  }

  /** Inside single quotes, an escaped string reads back as itself up to the
      closing quote. */
  lemma {:induction false} ReadEscaped(s: string, tail: string)
    ensures ReadFrom(InSingle, Escape(s) + "'" + tail) == Prepend(s, ReadFrom(Bare, tail))
    decreases |s|
  {
    if s == [] {
      assert Escape(s) + "'" + tail == "'" + tail;
      assert ("'" + tail)[1..] == tail;
      var r := ReadFrom(Bare, tail);
      if r.Some? {
        assert "" + r.value == r.value;
      }
    } else {
      var t := Escape(s[1..]) + "'" + tail;
      var piece := if s[0] == '\'' then "'\"'\"'" else [s[0]];
      assert Escape(s) + "'" + tail == piece + t;
      ReadEscaped(s[1..], tail);
      if s[0] == '\'' {
        ReadEscapedQuote(t);
      } else {
        ReadSingleChar(s[0], t);
      }
      PrependTwice([s[0]], s[1..], ReadFrom(Bare, tail));
      assert [s[0]] + s[1..] == s;
    }
  }

  /** The shell reads `shlex.quote(s)` as exactly one word, equal to `s`. */
  lemma QuoteRoundTrip(s: string)
    ensures ReadWord(Quote(s)) == Some(s)
  {
    if s == "" {
      assert "''"[1..] == "'";
      assert "'"[1..] == "";
    } else if forall j :: 0 <= j < |s| ==> SafeChar(s[j]) {
      ReadSafe(s);
    } else {
      var q := "'" + Escape(s) + "'";
      assert q[0] == '\'' && q[1..] == Escape(s) + "'" + "";
      ReadEscaped(s, "");
      assert s + "" == s;
    }
  }

  /** One option of a program's command line: a flag and its values. */
  datatype Opt = Opt(flag: string, args: seq<string>)

  /** The words of a list of options, in order. */
  function Flatten(opts: seq<Opt>): seq<string>
    decreases |opts|
  {
    if opts == [] then [] else [opts[0].flag] + opts[0].args + Flatten(opts[1..])
  }

  /** How a program with the given flag arities reads its arguments: each word
      must be a known flag and is followed by exactly that many values. */
  function ReadOptions(arity: map<string, nat>, ws: seq<string>): Option<seq<Opt>>
    decreases |ws|
  {
    if ws == [] then Some([])
    else if ws[0] !in arity || |ws| - 1 < arity[ws[0]] then None
    else
      var n := arity[ws[0]];
      match ReadOptions(arity, ws[1 + n..])
      case None => None
      case Some(rest) => Some([Opt(ws[0], ws[1..1 + n])] + rest)
  }

  predicate Conforms(arity: map<string, nat>, opts: seq<Opt>)
  {
    forall i :: 0 <= i < |opts| ==> opts[i].flag in arity && arity[opts[i].flag] == |opts[i].args|
  }

  /** Reading flattened options gives the options back. */
  lemma {:induction false} ReadFlatten(arity: map<string, nat>, opts: seq<Opt>)
    requires Conforms(arity, opts)
    ensures ReadOptions(arity, Flatten(opts)) == Some(opts)
    decreases |opts|
  {
    if opts != [] {
      var o := opts[0];
      var ws := Flatten(opts);
      var n := |o.args|;
      assert ws == [o.flag] + o.args + Flatten(opts[1..]);
      assert ws[0] == o.flag;
      assert ws[1..1 + n] == o.args;
      assert ws[1 + n..] == Flatten(opts[1..]);
      assert Conforms(arity, opts[1..]) by {
        forall i | 0 <= i < |opts[1..]|
          ensures opts[1..][i].flag in arity && arity[opts[1..][i].flag] == |opts[1..][i].args|
        {
          assert opts[1..][i] == opts[i + 1];
        }
      }
      ReadFlatten(arity, opts[1..]);
      assert opts == [o] + opts[1..];
    }
  }

  lemma {:induction false} FlattenAppend(a: seq<Opt>, b: seq<Opt>)
    ensures Flatten(a + b) == Flatten(a) + Flatten(b)
    decreases |a|
  {
    if a == [] {
      assert a + b == b;
    } else {
      assert (a + b)[0] == a[0];
      assert (a + b)[1..] == a[1..] + b;
      FlattenAppend(a[1..], b);
    }
  }

  /** The flags of a list of options, in order. */
  function Flags(opts: seq<Opt>): (r: seq<string>)
    ensures |r| == |opts| && forall i :: 0 <= i < |opts| ==> r[i] == opts[i].flag
  {
    seq(|opts|, i requires 0 <= i < |opts| => opts[i].flag)
  }

  predicate HasFlag(opts: seq<Opt>, f: string)
  {
    f in Flags(opts)
  }

  /** The values given to the first occurrence of flag `f`. */
  function ArgsOf(opts: seq<Opt>, f: string): Option<seq<string>>
    decreases |opts|
  {
    if opts == [] then None
    else if opts[0].flag == f then Some(opts[0].args)
    else ArgsOf(opts[1..], f)
  }
}
