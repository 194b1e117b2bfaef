// System-generated channel names "{prefix}-{username}-{group}-{seq}".
module Names {
  import opened Prelude
  import opened Text
  import opened Decimal

  const PROBES := 1000

  // The parts in front of the sequence number; blank prefix and group are omitted.
  function Stem(prefix: string, username: string, group: string): seq<string> {
    (if TrimSpace(prefix) != "" then [TrimSpace(prefix)] else [])
    + [username]
    + (if TrimSpace(group) != "" then [TrimSpace(group)] else [])
  }

  function Build(prefix: string, username: string, group: string, n: nat): string {
    Join(Stem(prefix, username, group) + [Itoa(n)], '-')
  }

  // The text after the last dash of a name.
  function Tail(name: string): (t: string)
    ensures '-' !in t
  {
    if name == "" || name[|name| - 1] == '-' then "" else Tail(name[..|name| - 1]) + [name[|name| - 1]]
  }

  // The sequence number a name carries.
  function SeqOf(name: string): nat {
    if AllDigits(Tail(name)) then Value(Tail(name)) else 0
  }

  lemma {:induction false} TailOfJoin(xs: seq<string>, last: string)
    requires xs != [] && '-' !in last
    ensures Tail(Join(xs + [last], '-')) == last
    decreases |xs|, 0
  {
    var ys := xs + [last];
    if |xs| == 1 {
      assert ys[1..] == [last];
      TailOfSuffix(xs[0], last);
    } else {
      assert ys[1..] == xs[1..] + [last];
      TailOfJoin(xs[1..], last);
      TailIgnoresFront(xs[0] + ['-'], Join(ys[1..], '-'), last);
    }
  }

  lemma {:induction false} TailOfSuffix(x: string, last: string)
    requires '-' !in last
    ensures Tail(x + ['-'] + last) == last
    decreases |last|
  {
    var s := x + ['-'] + last;
    if last != "" {
      assert s[..|s| - 1] == x + ['-'] + last[..|last| - 1];
      assert forall c :: c in last[..|last| - 1] ==> c in last;
      TailOfSuffix(x, last[..|last| - 1]);
    }
  }

  // Text in front of a name does not change its tail once a dash precedes the tail.
  lemma {:induction false} TailIgnoresFront(x: string, s: string, t: string)
    requires x != "" && x[|x| - 1] == '-' && Tail(s) == t
    ensures Tail(x + s) == t
    decreases |s|
  {
    if s != "" && s[|s| - 1] != '-' {
      assert (x + s)[..|x + s| - 1] == x + s[..|s| - 1];
      TailIgnoresFront(x, s[..|s| - 1], Tail(s[..|s| - 1]));
    } else if s == "" {
      assert x + s == x;
    }
  }

  // The number is recovered from the name alone, whatever prefix, user name and
  // group surround it; so names with different numbers differ.
  lemma SeqOfBuild(prefix: string, username: string, group: string, n: nat)
    ensures SeqOf(Build(prefix, username, group, n)) == n
    ensures Tail(Build(prefix, username, group, n)) == Itoa(n)
  {
    ValueItoa(n);
    TailOfJoin(Stem(prefix, username, group), Itoa(n));
  }

  // Trimmed prefix, user name, trimmed group and number with dashes between them; a blank
  // prefix or group leaves out its dash too.
  function FullName(prefix: string, username: string, group: string, n: nat): string {
    (if TrimSpace(prefix) == "" then "" else TrimSpace(prefix) + "-")
    + username
    + (if TrimSpace(group) == "" then "" else "-" + TrimSpace(group))
    + "-" + Itoa(n)
  }

  // What a built name is, as one text.
  lemma BuildText(prefix: string, username: string, group: string, n: nat)
    ensures Build(prefix, username, group, n) == FullName(prefix, username, group, n)
  {
    var p, g, k := TrimSpace(prefix), TrimSpace(group), Itoa(n);
    JoinTwo(username, k);
    JoinTwo(g, k);
    JoinMore(username, [g, k]);
    JoinMore(p, [username, k]);
    JoinMore(p, [username, g, k]);
    if p == "" {
      if g == "" {
        assert Stem(prefix, username, group) + [k] == [username, k];
      } else {
        assert Stem(prefix, username, group) + [k] == [username, g, k];
      }
    } else if g == "" {
      assert Stem(prefix, username, group) + [k] == [p, username, k];
    } else {
      assert Stem(prefix, username, group) + [k] == [p, username, g, k];
    }
  }

  lemma JoinTwo(x: string, y: string)
    ensures Join([x, y], '-') == x + "-" + y
  {
    assert [x, y][1..] == [y];
  }

  lemma JoinMore(x: string, ys: seq<string>)
    requires ys != []
    ensures Join([x] + ys, '-') == x + "-" + Join(ys, '-')
  {
    assert ([x] + ys)[1..] == ys;
  }

  // --- Probing: which of the names build(0), build(1), ... is taken? ---

  // The first probe from `i` on that is free; PROBES when all of them are taken.
  function FirstFree(taken: set<string>, build: nat -> string, i: nat): (k: nat)
    requires i <= PROBES
    ensures i <= k <= PROBES
    ensures k < PROBES ==> build(k) !in taken
    ensures forall j :: i <= j < k ==> build(j) in taken
    decreases PROBES - i
  {
    if i == PROBES || build(i) !in taken then i else FirstFree(taken, build, i + 1)
  }

  // The first free probe, or the first probe when all are taken.
  function Chosen(taken: set<string>, build: nat -> string): string {
    var k := FirstFree(taken, build, 0);
    if k < PROBES then build(k) else build(0)
  }

  lemma FreeFirstProbe(taken: set<string>, build: nat -> string)
    requires build(0) !in taken
    ensures Chosen(taken, build) == build(0)
  {
  }

  method ProbeForName(taken: set<string>, build: nat -> string) returns (name: string)
    ensures name == Chosen(taken, build)
  {
    for i := 0 to PROBES
      invariant forall j :: 0 <= j < i ==> build(j) in taken
    {
      name := build(i);
      var isTaken := name in taken;
      if !isTaken {
        return;
      }
    }
    name := build(0);
  }

  ghost predicate Injective(build: nat -> string) { forall i, j :: build(i) == build(j) ==> i == j }

  function ProbeSet(build: nat -> string, n: nat): set<string> { set i | 0 <= i < n :: build(i) }

  // n probes of an injective builder are n different names.
  lemma {:induction false} ProbesDistinct(build: nat -> string, n: nat)
    requires Injective(build)
    ensures |ProbeSet(build, n)| == n
  {
    if n > 0 {
      ProbesDistinct(build, n - 1);
      assert ProbeSet(build, n) == ProbeSet(build, n - 1) + {build(n - 1)};
      assert build(n - 1) !in ProbeSet(build, n - 1);
    }
  }

  // A taken name comes back exactly when all probed names are taken, which needs
  // at least PROBES taken names.
  lemma ChosenExact(taken: set<string>, build: nat -> string)
    requires Injective(build)
    ensures Chosen(taken, build) in taken <==> ProbeSet(build, PROBES) <= taken
    ensures |taken| < PROBES ==> Chosen(taken, build) !in taken
  {
    if FirstFree(taken, build, 0) < PROBES {
      assert build(FirstFree(taken, build, 0)) in ProbeSet(build, PROBES);
    } else {
      assert build(0) in ProbeSet(build, PROBES);
      ProbesDistinct(build, PROBES);
      SubsetSize(ProbeSet(build, PROBES), taken + ProbeSet(build, PROBES));
      assert taken + ProbeSet(build, PROBES) == taken;
    }
  }

  // --- Channel names ---

  // What a name is built from: the surrounding parts and the first number to try.
  datatype Plan = Plan(prefix: string, username: string, group: string, first: nat) {
    // The i-th name probed.
    function Name(i: nat): string { Build(prefix, username, group, first + i) }

    function Builder(): nat -> string { (i: nat) => Name(i) }

    function Generated(taken: set<string>): string { Chosen(taken, Builder()) }

    lemma NumberOfName(i: nat)
      ensures SeqOf(Name(i)) == first + i
    {
      SeqOfBuild(prefix, username, group, first + i);
    }

    lemma FreeFirstName(taken: set<string>)
      requires Name(0) !in taken
      ensures Generated(taken) == Name(0)
    {
      assert Builder()(0) == Name(0);
      FreeFirstProbe(taken, Builder());
    }

    lemma BuilderInjective()
      ensures Injective(Builder())
    {
      forall i, j | Builder()(i) == Builder()(j)
        ensures i == j
      {
        NumberOfName(i);
        NumberOfName(j);
      }
    }

    // On any table, fewer than PROBES rows for the pair guarantee a fresh name, and a
    // taken one is generated only when every probed name is taken.
    lemma GeneratedExact(taken: set<string>)
      ensures Generated(taken) in taken <==> forall i: nat :: i < PROBES ==> Builder()(i) in taken
      ensures |taken| < PROBES ==> Generated(taken) !in taken
    {
      BuilderInjective();
      ChosenExact(taken, Builder());
      if forall i: nat :: i < PROBES ==> Builder()(i) in taken {
        assert ProbeSet(Builder(), PROBES) <= taken;
      }
      forall i: nat | i < PROBES && ProbeSet(Builder(), PROBES) <= taken
        ensures Builder()(i) in taken
      {
        assert Builder()(i) in ProbeSet(Builder(), PROBES);
      }
    }

    method GenerateName(taken: set<string>) returns (name: string)
      ensures name == Generated(taken)
    {
      name := ProbeForName(taken, Builder());
    }
  }
}
