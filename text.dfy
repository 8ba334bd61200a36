/** The string operations of Python's `str` that the control script relies on:
    `" ".join`, `split(" ")`, `split()`, `replace`, `lower`/`upper`, and the
    `\w` character class of its regular expressions. */
module Text {

  /** `sep.join(ws)`. */
  function Join(ws: seq<string>, sep: string): string
  {
    if |ws| == 0 then ""
    else if |ws| == 1 then ws[0]
    else ws[0] + sep + Join(ws[1..], sep)
  }

  lemma {:induction false} JoinAppend(a: seq<string>, b: seq<string>, sep: string)
    requires |a| > 0 && |b| > 0
    ensures Join(a + b, sep) == Join(a, sep) + sep + Join(b, sep)
    decreases |a|
  {
    assert (a + b)[0] == a[0];
    assert (a + b)[1..] == a[1..] + b;
    if |a| > 1 {
      JoinAppend(a[1..], b, sep);
    }
  }

  /** `s.split(c)` for a one-character separator: the pieces between the
      separators, empty ones included (so `"".split(c) == [""]`). */
  function Split(s: string, c: char): (r: seq<string>)
    ensures |r| > 0
    decreases |s|
  {
    if s == [] then [""]
    else
      var rest := Split(s[1..], c);
      if s[0] == c then [""] + rest
      else [[s[0]] + rest[0]] + rest[1..]
  }

  lemma {:induction false} SplitWithout(w: string, c: char)
    requires c !in w
    ensures Split(w, c) == [w]
    decreases |w|
  {
    if w != [] {
      SplitWithout(w[1..], c);
      assert [w[0]] + w[1..] == w;
    }
  }

  /** Splitting at one separator splits the two sides independently. */
  lemma {:induction false} SplitAt(x: string, y: string, c: char)
    ensures Split(x + [c] + y, c) == Split(x, c) + Split(y, c)
    decreases |x|
  {
    if x == [] {
      assert x + [c] + y == [c] + y;
      assert ([c] + y)[1..] == y;
    } else {
      var s := x + [c] + y;
      assert s[0] == x[0];
      assert s[1..] == x[1..] + [c] + y;
      SplitAt(x[1..], y, c);
    }
  }

  /** Splitting a joined list of separator-free words gives the words back. */
  lemma {:induction false} SplitJoin(ws: seq<string>, c: char)
    requires |ws| > 0
    requires forall i :: 0 <= i < |ws| ==> c !in ws[i]
    ensures Split(Join(ws, [c]), c) == ws
    decreases |ws|
  {
    if |ws| == 1 {
      SplitWithout(ws[0], c);
    } else {
      SplitJoin(ws[1..], c);
      SplitWithout(ws[0], c);
      SplitAt(ws[0], Join(ws[1..], [c]), c);
      assert ws == [ws[0]] + ws[1..];
    }
  }

  /** The characters for which Python's `str.isspace()` holds. */
  predicate IsSpace(ch: char)
  {
    || ('\t' <= ch <= '\r')
    || ('\U{1C}' <= ch <= '\U{20}')
    || ch == '\U{85}' || ch == '\U{A0}' || ch == '\U{1680}'
    || ('\U{2000}' <= ch <= '\U{200A}')
    || ch == '\U{2028}' || ch == '\U{2029}' || ch == '\U{202F}'
    || ch == '\U{205F}' || ch == '\U{3000}'
  }

  predicate SpaceFree(w: string)
  {
    forall j :: 0 <= j < |w| ==> !IsSpace(w[j])
  }

  /** Length of the leading run of non-space characters. */
  function WordLength(s: string): (n: nat)
    ensures n <= |s|
    ensures forall j :: 0 <= j < n ==> !IsSpace(s[j])
    ensures n == |s| || IsSpace(s[n])
    decreases |s|
  {
    if s == [] || IsSpace(s[0]) then 0 else 1 + WordLength(s[1..])
  }

  /** `s.split()`: the maximal runs of non-space characters. */
  function Words(s: string): (r: seq<string>)
    ensures forall i :: 0 <= i < |r| ==> |r[i]| > 0 && SpaceFree(r[i])
    decreases |s|
  {
    if s == [] then []
    else if IsSpace(s[0]) then Words(s[1..])
    else
      var n := WordLength(s);
      [s[..n]] + Words(s[n..])
  }

  lemma {:induction false} WordLengthOf(w: string, rest: string)
    requires SpaceFree(w)
    requires rest == [] || IsSpace(rest[0])
    ensures WordLength(w + rest) == |w|
    decreases |w|
  {
    if w == [] {
      assert w + rest == rest;
    } else {
      assert (w + rest)[1..] == w[1..] + rest;
      WordLengthOf(w[1..], rest);
    }
  }

  /** `" ".join(ws).split() == ws` for non-empty words without white space. */
  lemma {:induction false} WordsJoin(ws: seq<string>)
    requires forall i :: 0 <= i < |ws| ==> |ws[i]| > 0 && SpaceFree(ws[i])
    ensures Words(Join(ws, " ")) == ws
    decreases |ws|
  {
    if |ws| == 1 {
      WordLengthOf(ws[0], "");
      assert ws[0] + "" == ws[0];
      assert ws[0][|ws[0]|..] == [];
    } else if |ws| > 1 {
      var w := ws[0];
      var tail := Join(ws[1..], " ");
      var s := w + " " + tail;
      assert s == w + (" " + tail);
      WordLengthOf(w, " " + tail);
      assert s[..|w|] == w;
      assert s[|w|..] == " " + tail;
      assert (" " + tail)[1..] == tail;
      WordsJoin(ws[1..]);
      assert ws == [w] + ws[1..];
    }
  }

  /** `s.replace(a, b)` for single characters. */
  function ReplaceChar(s: string, a: char, b: char): (r: string)
    ensures |r| == |s|
    ensures forall i :: 0 <= i < |s| ==> r[i] == if s[i] == a then b else s[i]
  {
    seq(|s|, i requires 0 <= i < |s| => if s[i] == a then b else s[i])
  }

  lemma ReplaceCharBack(s: string, a: char, b: char)
    requires b !in s
    ensures ReplaceChar(ReplaceChar(s, a, b), b, a) == s
  {
  }

  /** `s.replace(p, r)`: every non-overlapping occurrence of `p`, from left to
      right, replaced by `r`. */
  function ReplaceAll(s: string, p: string, r: string): string
    requires p != ""
    decreases |s|
  {
    if |s| < |p| then s
    else if s[..|p|] == p then r + ReplaceAll(s[|p|..], p, r)
    else [s[0]] + ReplaceAll(s[1..], p, r)
  }

  /** A string missing one of the pattern's characters contains no occurrence,
      so `replace` leaves it alone. */
  lemma {:induction false} ReplaceAllAbsent(s: string, p: string, r: string, c: char)
    requires p != "" && c in p && c !in s
    ensures ReplaceAll(s, p, r) == s
    decreases |s|
  {
    if |s| >= |p| {
      var k :| 0 <= k < |p| && p[k] == c;
      assert s[..|p|] != p by {
        assert s[..|p|][k] == s[k];
      }
      ReplaceAllAbsent(s[1..], p, r, c);
      assert s == [s[0]] + s[1..];
    }
  }

  lemma ReplaceAllLeading(x: string, p: string, r: string)
    requires p != ""
    ensures ReplaceAll(p + x, p, r) == r + ReplaceAll(x, p, r)
  {
    assert (p + x)[..|p|] == p;
    assert (p + x)[|p|..] == x;
  }

  /** ASCII case mapping (Python's `lower`/`upper` on ASCII text). */
  function LowerChar(ch: char): char
  {
    if 'A' <= ch <= 'Z' then (ch as int + 32) as char else ch
  }

  function UpperChar(ch: char): char
  {
    if 'a' <= ch <= 'z' then (ch as int - 32) as char else ch
  }

  function Lower(s: string): (r: string)
    ensures |r| == |s| && forall i :: 0 <= i < |s| ==> r[i] == LowerChar(s[i])
  {
    seq(|s|, i requires 0 <= i < |s| => LowerChar(s[i]))
  }

  function Upper(s: string): (r: string)
    ensures |r| == |s| && forall i :: 0 <= i < |s| ==> r[i] == UpperChar(s[i])
  {
    seq(|s|, i requires 0 <= i < |s| => UpperChar(s[i]))
  }

  /** The regular-expression class `\w`, on ASCII. */
  predicate IsWordChar(ch: char)
  {
    ('a' <= ch <= 'z') || ('A' <= ch <= 'Z') || ('0' <= ch <= '9') || ch == '_'
  }

  /** Length of the leading run of `\w` characters. */
  function WordCharRun(s: string): (n: nat)
    ensures n <= |s|
    ensures forall j :: 0 <= j < n ==> IsWordChar(s[j])
    ensures n == |s| || !IsWordChar(s[n])
    decreases |s|
  {
    if s == [] || !IsWordChar(s[0]) then 0 else 1 + WordCharRun(s[1..])
  }

  /** The run of word characters is pinned by where it stops. */
  lemma WordCharRunAt(s: string, n: nat)
    requires n <= |s| && forall j :: 0 <= j < n ==> IsWordChar(s[j])
    requires n == |s| || !IsWordChar(s[n])
    ensures WordCharRun(s) == n
  {
  }

  lemma {:induction false} WordCharRunOf(w: string, rest: string)
    requires forall j :: 0 <= j < |w| ==> IsWordChar(w[j])
    requires rest == [] || !IsWordChar(rest[0])
    ensures WordCharRun(w + rest) == |w|
    decreases |w|
  {
    if w == [] {
      assert w + rest == rest;
    } else {
      assert (w + rest)[1..] == w[1..] + rest;
      WordCharRunOf(w[1..], rest);
    }
  }

  /** Position of the first `c` in `s`, or `|s|` when there is none. */
  function IndexOf(s: string, c: char): (n: nat)
    ensures n <= |s|
    ensures forall j :: 0 <= j < n ==> s[j] != c
    ensures n == |s| || s[n] == c
    decreases |s|
  {
    if s == [] || s[0] == c then 0 else 1 + IndexOf(s[1..], c)
  }

  lemma IndexOfAt(s: string, c: char, n: nat)
    requires n <= |s| && forall j :: 0 <= j < n ==> s[j] != c
    requires n == |s| || s[n] == c
    ensures IndexOf(s, c) == n
  {
  }

  /** `str(n)` for a natural number. */
  function Decimal(n: nat): (r: string)
    ensures |r| > 0
    decreases n
  {
    if n < 10 then [DigitChar(n)] else Decimal(n / 10) + [DigitChar(n % 10)]
  }

  function DigitChar(d: nat): char
    requires d < 10
  {
    (48 + d) as char
  }

  lemma {:induction false} DecimalLong(n: nat)
    requires n >= 10
    ensures |Decimal(n)| >= 2
  {
  }

  /** Different numbers print differently. */
  lemma {:induction false} DecimalInjective(a: nat, b: nat)
    requires Decimal(a) == Decimal(b)
    ensures a == b
    decreases a
  {
    if a < 10 && b < 10 {
      assert Decimal(a)[0] == DigitChar(a);
    } else if a < 10 {
      DecimalLong(b);
    } else if b < 10 {
      DecimalLong(a);
    } else {
      var da, db := Decimal(a), Decimal(b);
      assert da[|da| - 1] == DigitChar(a % 10);
      assert db[|db| - 1] == DigitChar(b % 10);
      assert da[..|da| - 1] == Decimal(a / 10);
      assert db[..|db| - 1] == Decimal(b / 10);
      DecimalInjective(a / 10, b / 10);
    }
  }
}
