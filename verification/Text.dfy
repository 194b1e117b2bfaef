// The parts of Go's `strings` package the program uses. A Go string that holds
// valid UTF-8 is a sequence of Unicode scalar values here.
module Text {
  import opened Prelude

  // unicode.IsSpace
  predicate IsSpace(c: char) {
    || '\t' <= c <= '\r' || c == ' '
    || c == '\U{85}' || c == '\U{A0}' || c == '\U{1680}'
    || '\U{2000}' <= c <= '\U{200A}'
    || c == '\U{2028}' || c == '\U{2029}' || c == '\U{202F}' || c == '\U{205F}' || c == '\U{3000}'
  }

  // The code points with the Unicode property White_Space.
  const WHITE_SPACE: set<int> :=
    {0x09, 0x0A, 0x0B, 0x0C, 0x0D, 0x20, 0x85, 0xA0, 0x1680,
     0x2000, 0x2001, 0x2002, 0x2003, 0x2004, 0x2005, 0x2006, 0x2007, 0x2008, 0x2009, 0x200A,
     0x2028, 0x2029, 0x202F, 0x205F, 0x3000}

  lemma WhiteSpaceExactly(c: char)
    ensures IsSpace(c) <==> c as int in WHITE_SPACE
  {
  }

  function TrimLeft(s: string): (r: string)
    ensures forall c :: c in r ==> c in s
    ensures r == "" || !IsSpace(r[0])
  {
    if s != "" && IsSpace(s[0]) then TrimLeft(s[1..]) else s
  }

  function TrimRight(s: string): (r: string)
    ensures r <= s
    ensures r == "" || !IsSpace(r[|r| - 1])
  {
    if s != "" && IsSpace(s[|s| - 1]) then TrimRight(s[..|s| - 1]) else s
  }

  // strings.TrimSpace
  function TrimSpace(s: string): (r: string)
    ensures forall c :: c in r ==> c in s
    ensures r == "" || (!IsSpace(r[0]) && !IsSpace(r[|r| - 1]))
  {
    TrimRight(TrimLeft(s))
  }

  // Trimming stops exactly when both ends are not white space.
  lemma TrimFixed(s: string)
    ensures TrimSpace(s) == s <==> s == "" || (!IsSpace(s[0]) && !IsSpace(s[|s| - 1]))
  {
  }

  lemma TrimTwice(s: string)
    ensures TrimSpace(TrimSpace(s)) == TrimSpace(s)
  {
  }

  predicate AllSpace(s: string) { forall i :: 0 <= i < |s| ==> IsSpace(s[i]) }

  // Empty, or without white space at either end.
  predicate Bare(m: string) { m == "" || (!IsSpace(m[0]) && !IsSpace(m[|m| - 1])) }

  // m is the text inside s, without the white space around it.
  ghost predicate Inside(m: string, s: string) {
    Bare(m) && exists a, b :: s == a + m + b && AllSpace(a) && AllSpace(b)
  }

  lemma {:induction false} TrimLeftDrops(a: string, t: string)
    requires AllSpace(a) && (t == "" || !IsSpace(t[0]))
    ensures TrimLeft(a + t) == t
  {
    if a == "" {
      assert a + t == t;
    } else {
      assert (a + t)[1..] == a[1..] + t;
      TrimLeftDrops(a[1..], t);
    }
  }

  lemma {:induction false} TrimRightDrops(t: string, b: string)
    requires AllSpace(b) && (t == "" || !IsSpace(t[|t| - 1]))
    ensures TrimRight(t + b) == t
  {
    if b == "" {
      assert t + b == t;
    } else {
      assert (t + b)[..|t + b| - 1] == t + b[..|b| - 1];
      TrimRightDrops(t, b[..|b| - 1]);
    }
  }

  lemma {:induction false} TrimLeftKeeps(s: string) returns (a: string)
    ensures s == a + TrimLeft(s) && AllSpace(a)
  {
    a := "";
    if s != "" && IsSpace(s[0]) {
      var rest := TrimLeftKeeps(s[1..]);
      a := [s[0]] + rest;
      assert s == [s[0]] + s[1..];
    }
  }

  lemma {:induction false} TrimRightKeeps(s: string) returns (b: string)
    ensures s == TrimRight(s) + b && AllSpace(b)
  {
    b := "";
    if s != "" && IsSpace(s[|s| - 1]) {
      var rest := TrimRightKeeps(s[..|s| - 1]);
      b := rest + [s[|s| - 1]];
      assert s == s[..|s| - 1] + [s[|s| - 1]];
    }
  }

  lemma TrimPadded(a: string, m: string, b: string)
    requires AllSpace(a) && AllSpace(b) && Bare(m)
    ensures TrimSpace(a + m + b) == m
  {
    if m == "" {
      assert a + m + b == (a + b) + "";
      TrimLeftDrops(a + b, "");
    } else {
      assert a + m + b == a + (m + b);
      TrimLeftDrops(a, m + b);
      TrimRightDrops(m, b);
    }
  }

  lemma TrimIsInside(s: string)
    ensures Inside(TrimSpace(s), s)
  {
    var a := TrimLeftKeeps(s);
    var b := TrimRightKeeps(TrimLeft(s));
    assert s == a + TrimSpace(s) + b;
  }

  // What trimming computes: the one text inside.
  lemma TrimExactly(s: string, m: string)
    ensures TrimSpace(s) == m <==> Inside(m, s)
  {
    TrimIsInside(s);
    if Inside(m, s) {
      var a, b :| s == a + m + b && AllSpace(a) && AllSpace(b);
      TrimPadded(a, m, b);
    }
  }

  // strings.IndexByte / strings.IndexRune, with None for -1.
  function IndexOf(s: string, c: char): (r: Option<nat>)
    ensures r.None? ==> c !in s
    ensures r.Some? ==> r.value < |s| && s[r.value] == c && c !in s[..r.value]
  {
    if s == "" then None
    else if s[0] == c then Some(0)
    else
      match IndexOf(s[1..], c)
      case None => None
      case Some(i) => assert s[..i + 1] == [s[0]] + s[1..][..i]; Some(i + 1)
  }

  predicate HasPrefix(s: string, p: string) { p <= s }

  function TrimPrefix(s: string, p: string): string {
    if HasPrefix(s, p) then s[|p|..] else s
  }

  // strings.Split with a one-character separator: never empty.
  function Split(s: string, sep: char): (r: seq<string>)
    ensures |r| >= 1
  {
    if s == "" then [""]
    else
      var rest := Split(s[1..], sep);
      if s[0] == sep then [""] + rest else [[s[0]] + rest[0]] + rest[1..]
  }

  // strings.Join with a one-character separator.
  function Join(xs: seq<string>, sep: char): string {
    if xs == [] then ""
    else if |xs| == 1 then xs[0]
    else xs[0] + [sep] + Join(xs[1..], sep)
  }

  lemma {:induction false} SplitPieces(s: string, sep: char)
    ensures forall x :: x in Split(s, sep) ==> sep !in x
  {
    if s != "" {
      SplitPieces(s[1..], sep);
      var rest := Split(s[1..], sep);
      forall x | x in Split(s, sep)
        ensures sep !in x
      {
        if s[0] != sep && x == Split(s, sep)[0] {
          assert rest[0] in rest;
        } else if x != "" {
          assert x in rest;
        }
      }
    }
  }

  // A separator-free piece in front of a separator is split off whole.
  lemma {:induction false} SplitHead(x: string, t: string, sep: char)
    requires sep !in x
    ensures Split(x, sep) == [x]
    ensures Split(x + [sep] + t, sep) == [x] + Split(t, sep)
  {
    var whole := x + [sep] + t;
    if x == "" {
      assert whole[1..] == t;
    } else {
      SplitHead(x[1..], t, sep);
      assert whole[1..] == x[1..] + [sep] + t;
      assert [x[0]] + x[1..] == x;
    }
  }

  lemma {:induction false} SplitJoin(xs: seq<string>, sep: char)
    requires xs != []
    requires forall x :: x in xs ==> sep !in x
    ensures Split(Join(xs, sep), sep) == xs
  {
    SplitHead(xs[0], "", sep);
    if |xs| > 1 {
      assert forall x :: x in xs[1..] ==> x in xs;
      SplitJoin(xs[1..], sep);
      SplitHead(xs[0], Join(xs[1..], sep), sep);
      assert xs == [xs[0]] + xs[1..];
    }
  }
}
