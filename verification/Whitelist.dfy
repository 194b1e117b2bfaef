// The upload validator: a platform whitelist, optionally narrowed by a grant.
module Whitelist {
  import opened Prelude
  import opened Text
  import opened Catalog

  datatype ChannelInput = ChannelInput(kind: int, models: seq<string>, group: string)

  datatype Accepted = Accepted(modelsCsv: string, group: string)

  datatype Violation =
    | UnsupportedType
    | TypeNotPermitted
    | NoModel
    | ModelNotPermitted(model: string)
    | GroupNotPermitted(group: string)

  // --- The declarative rule ---

  function GrantTypes(g: Option<Grant>): seq<int> { if g.Some? then g.value.allowedTypes else [] }
  function GrantModels(g: Option<Grant>): seq<string> { if g.Some? then g.value.allowedModels else [] }
  function GrantGroups(g: Option<Grant>): seq<string> { if g.Some? then g.value.allowedGroups else [] }

  // Some entry of the list, trimmed, is s.
  predicate Lists(xs: seq<string>, s: string) { exists x :: x in xs && TrimSpace(x) == s }

  // An empty grant list inherits the platform list, where empty means anything; a
  // non-empty grant list demands membership of both lists.
  predicate TypePermitted(p: Platform, g: Option<Grant>, kind: int) {
    if GrantTypes(g) == [] then p.allowedTypes == [] || kind in p.allowedTypes
    else kind in p.allowedTypes && kind in GrantTypes(g)
  }

  predicate TextPermitted(platform: seq<string>, grant: seq<string>, s: string) {
    if grant == [] then platform == [] || Lists(platform, s)
    else Lists(platform, s) && Lists(grant, s)
  }

  predicate ModelPermitted(p: Platform, g: Option<Grant>, model: string) {
    TextPermitted(p.allowedModels, GrantModels(g), model)
  }

  predicate GroupPermitted(p: Platform, g: Option<Grant>, group: string) {
    group == "" || TextPermitted(p.allowedGroups, GrantGroups(g), group)
  }

  // --- Model normalisation ---

  // The trimmed, non-empty entries, each at its first occurrence.
  function Normalized(xs: seq<string>): seq<string> {
    if xs == [] then []
    else
      var front := Normalized(xs[..|xs| - 1]);
      var m := TrimSpace(xs[|xs| - 1]);
      if m == "" || m in front then front else front + [m]
  }

  predicate Distinct(xs: seq<string>) { forall i, j :: 0 <= i < j < |xs| ==> xs[i] != xs[j] }

  // Every entry is in the output exactly when it is a non-empty trimmed input.
  lemma {:induction false} NormalizedMembers(xs: seq<string>)
    ensures Distinct(Normalized(xs))
    ensures forall m :: m in Normalized(xs) <==> m != "" && Lists(xs, m)
  {
    if xs != [] {
      var init, last := xs[..|xs| - 1], xs[|xs| - 1];
      NormalizedMembers(init);
      assert xs == init + [last];
      forall m
        ensures m in Normalized(xs) <==> m != "" && Lists(xs, m)
      {
        assert Lists(xs, m) <==> Lists(init, m) || TrimSpace(last) == m by {
          assert last in xs;
          assert forall x :: x in xs <==> x in init || x == last;
        }
      }
    }
  }

  // The members once more, in terms of the texts themselves: a normalised list has each
  // non-empty text that is inside some entry, once.
  lemma NormalizedExactly(xs: seq<string>)
    ensures Distinct(Normalized(xs))
    ensures forall m :: m in Normalized(xs) <==> m != "" && exists x :: x in xs && Inside(m, x)
  {
    NormalizedMembers(xs);
    forall m
      ensures Lists(xs, m) <==> exists x :: x in xs && Inside(m, x)
    {
      ListsExactly(xs, m);
    }
  }

  lemma ListsExactly(xs: seq<string>, m: string)
    ensures Lists(xs, m) <==> exists x :: x in xs && Inside(m, x)
  {
    forall x | x in xs
      ensures TrimSpace(x) == m <==> Inside(m, x)
    {
      TrimExactly(x, m);
    }
  }

  // At which input position an output entry first occurs.
  ghost predicate FirstAt(xs: seq<string>, m: string, k: nat) {
    k < |xs| && TrimSpace(xs[k]) == m && forall j :: 0 <= j < k ==> TrimSpace(xs[j]) != m
  }

  // An entry kept from a prefix first occurs inside that prefix.
  lemma FirstInPrefix(xs: seq<string>, n: nat, m: string, k: nat)
    requires n <= |xs| && m in Normalized(xs[..n]) && FirstAt(xs, m, k)
    ensures k < n && FirstAt(xs[..n], m, k)
  {
    NormalizedMembers(xs[..n]);
    var x :| x in xs[..n] && TrimSpace(x) == m;
    var l :| 0 <= l < n && xs[l] == x;
  }

  // Output order is the order of first occurrence.
  lemma {:induction false} NormalizedOrder(xs: seq<string>, a: nat, b: nat, i: nat, j: nat)
    requires a < b < |Normalized(xs)|
    requires FirstAt(xs, Normalized(xs)[a], i) && FirstAt(xs, Normalized(xs)[b], j)
    ensures i < j
  {
    var n := |xs| - 1;
    var front := Normalized(xs[..n]);
    FirstInPrefix(xs, n, front[a], i);
    if b < |front| {
      FirstInPrefix(xs, n, front[b], j);
      NormalizedOrder(xs[..n], a, b, i, j);
    } else {
      NormalizedMembers(xs[..n]);
      forall k | 0 <= k < n
        ensures TrimSpace(xs[k]) == "" || TrimSpace(xs[k]) in front
      {
        assert xs[..n][k] in xs[..n];
      }
    }
  }

  // Normalising a list that is already normal changes nothing.
  lemma {:induction false} NormalFixed(xs: seq<string>)
    requires Distinct(xs)
    requires forall x :: x in xs ==> x != "" && TrimSpace(x) == x
    ensures Normalized(xs) == xs
  {
    if xs != [] {
      var init, last := xs[..|xs| - 1], xs[|xs| - 1];
      assert last in xs && forall x :: x in init ==> x in xs;
      NormalFixed(init);
      NormalAppend(init, last);
      assert xs == init + [last];
    }
  }

  lemma NormalAppend(init: seq<string>, m: string)
    requires Normalized(init) == init && m !in init && m != "" && TrimSpace(m) == m
    ensures Normalized(init + [m]) == init + [m]
  {
    assert (init + [m])[..|init|] == init;
  }

  method NormalizeModels(xs: seq<string>) returns (out: seq<string>)
    ensures out == Normalized(xs)
  {
    var seen: set<string> := {};
    out := [];
    for i := 0 to |xs|
      invariant out == Normalized(xs[..i])
      invariant forall m :: m in seen <==> m in out
    {
      assert xs[..i + 1][..i] == xs[..i];
      var m := TrimSpace(xs[i]);
      if m == "" || m in seen {
        continue;
      }
      seen := seen + {m};
      out := out + [m];
    }
    assert xs[..|xs|] == xs;
  }

  // The CSV column an upload stores for a requested model text.
  function StoredCsv(models: string): string { Join(Normalized(Split(models, ',')), ',') }

  // Storing, re-splitting and re-normalising a model list yields the same column.
  lemma ModelsFixedPoint(models: string)
    ensures StoredCsv(StoredCsv(models)) == StoredCsv(models)
    ensures Normalized(Split(models, ',')) != [] ==>
              Normalized(Split(StoredCsv(models), ',')) == Normalized(Split(models, ','))
  {
    var pieces := Split(models, ',');
    var ms := Normalized(pieces);
    NormalizedMembers(pieces);
    SplitPieces(models, ',');
    forall m | m in ms
      ensures ',' !in m && m != "" && TrimSpace(m) == m
    {
      var x :| x in pieces && TrimSpace(x) == m;
      TrimTwice(x);
    }
    if ms != [] {
      SplitJoin(ms, ',');
      NormalFixed(ms);
    } else {
      TrimFixed("");
      assert Normalized([""]) == [];
    }
  }

  // A stored column is empty only when the request named no model.
  lemma StoredNonEmpty(models: string)
    ensures StoredCsv(models) == "" <==> Normalized(Split(models, ',')) == []
  {
    NormalizedMembers(Split(models, ','));
    var ms := Normalized(Split(models, ','));
    if ms != [] {
      assert ms[0] in ms;
    }
  }

  // --- The validator ---

  // The first model of the list that is not permitted.
  function FirstForbidden(p: Platform, g: Option<Grant>, models: seq<string>): (r: Option<string>)
    ensures r.None? <==> forall m :: m in models ==> ModelPermitted(p, g, m)
    ensures r.Some? ==> r.value in models && !ModelPermitted(p, g, r.value)
  {
    if models == [] then None
    else if !ModelPermitted(p, g, models[0]) then Some(models[0])
    else FirstForbidden(p, g, models[1..])
  }

  // The verdict, naming the first violated rule.
  function Upload(inp: ChannelInput, p: Platform, g: Option<Grant>): Result<Accepted, Violation> {
    var models := Normalized(inp.models);
    var group := TrimSpace(inp.group);
    if inp.kind !in SUPPORTED_TYPES then Err(UnsupportedType)
    else if !TypePermitted(p, g, inp.kind) then Err(TypeNotPermitted)
    else if models == [] then Err(NoModel)
    else if FirstForbidden(p, g, models).Some? then Err(ModelNotPermitted(FirstForbidden(p, g, models).value))
    else if !GroupPermitted(p, g, group) then Err(GroupNotPermitted(group))
    else Ok(Accepted(Join(models, ','), group))
  }

  // Accepted exactly when the three set rules hold of the raw request.
  lemma UploadExact(inp: ChannelInput, p: Platform, g: Option<Grant>)
    ensures Upload(inp, p, g).Ok? <==>
              && inp.kind in SUPPORTED_TYPES
              && TypePermitted(p, g, inp.kind)
              && (exists x :: x in inp.models && TrimSpace(x) != "")
              && (forall x :: x in inp.models && TrimSpace(x) != "" ==> ModelPermitted(p, g, TrimSpace(x)))
              && GroupPermitted(p, g, TrimSpace(inp.group))
  {
    UploadOk(inp, p, g);
    NormalizedMembers(inp.models);
    var models := Normalized(inp.models);
    if models != [] {
      assert models[0] in models;
    }
    forall x | x in inp.models && TrimSpace(x) != ""
      ensures TrimSpace(x) in models
    {
    }
  }

  // Left unrestricted, a platform takes exactly OpenAI, Azure, Anthropic, Gemini, AWS and
  // Vertex AI.
  lemma SixTypes(kind: int, models: seq<string>, p: Platform)
    requires p.allowedTypes == [] && p.allowedModels == [] && p.allowedGroups == []
    requires exists x :: x in models && TrimSpace(x) != ""
    ensures Upload(ChannelInput(kind, models, ""), p, None).Ok? <==>
              kind == 1 || kind == 3 || kind == 14 || kind == 24 || kind == 33 || kind == 41
  {
    UploadExact(ChannelInput(kind, models, ""), p, None);
    TrimFixed("");
  }

  lemma UploadOk(inp: ChannelInput, p: Platform, g: Option<Grant>)
    ensures Upload(inp, p, g).Ok? <==>
              && inp.kind in SUPPORTED_TYPES
              && TypePermitted(p, g, inp.kind)
              && Normalized(inp.models) != []
              && (forall m :: m in Normalized(inp.models) ==> ModelPermitted(p, g, m))
              && GroupPermitted(p, g, TrimSpace(inp.group))
  {
  }

  // What an accepted upload stores.
  lemma UploadStores(inp: ChannelInput, p: Platform, g: Option<Grant>)
    requires Upload(inp, p, g).Ok?
    ensures Normalized(inp.models) != []
    ensures Upload(inp, p, g).value == Accepted(Join(Normalized(inp.models), ','), TrimSpace(inp.group))
  {
  }

  // --- The imperative form: sets built by loops ---

  datatype Effective = Effective(
    types: set<int>, models: set<string>, groups: set<string>,
    typesUnrestricted: bool, modelsUnrestricted: bool, groupsUnrestricted: bool)

  method ToIntSet(xs: seq<int>) returns (s: set<int>)
    ensures forall x :: x in s <==> x in xs
  {
    s := {};
    for i := 0 to |xs|
      invariant forall x :: x in s <==> x in xs[..i]
    {
      s := s + {xs[i]};
    }
    assert xs[..|xs|] == xs;
  }

  method ToStrSet(xs: seq<string>) returns (s: set<string>)
    ensures forall x :: x in s <==> Lists(xs, x)
  {
    s := {};
    for i := 0 to |xs|
      invariant forall x :: x in s <==> Lists(xs[..i], x)
    {
      s := s + {TrimSpace(xs[i])};
      forall x
        ensures Lists(xs[..i + 1], x) <==> Lists(xs[..i], x) || TrimSpace(xs[i]) == x
      {
        assert xs[..i + 1] == xs[..i] + [xs[i]];
        assert xs[i] in xs[..i + 1];
      }
    }
    assert xs[..|xs|] == xs;
  }

  method IntersectInts(a: seq<int>, b: seq<int>) returns (out: seq<int>)
    ensures forall x :: x in out <==> x in a && x in b
  {
    var bs := ToIntSet(b);
    out := [];
    for i := 0 to |a|
      invariant forall x :: x in out <==> x in a[..i] && x in b
    {
      if a[i] in bs {
        out := out + [a[i]];
      }
    }
    assert a[..|a|] == a;
  }

  method IntersectStrings(a: seq<string>, b: seq<string>) returns (out: seq<string>)
    ensures forall x :: x in out <==> x in a && Lists(b, TrimSpace(x))
  {
    var bs := ToStrSet(b);
    out := [];
    for i := 0 to |a|
      invariant forall x :: x in out <==> x in a[..i] && Lists(b, TrimSpace(x))
    {
      if TrimSpace(a[i]) in bs {
        out := out + [a[i]];
      }
    }
    assert a[..|a|] == a;
  }

  // The effective whitelist decides exactly the declarative rule.
  method ComputeEffective(p: Platform, g: Option<Grant>) returns (eff: Effective)
    ensures forall t :: eff.typesUnrestricted || t in eff.types <==> TypePermitted(p, g, t)
    ensures forall m :: eff.modelsUnrestricted || m in eff.models <==> ModelPermitted(p, g, m)
    ensures forall r :: r == "" || eff.groupsUnrestricted || r in eff.groups <==> GroupPermitted(p, g, r)
  {
    var pTypes, pModels, pGroups := p.allowedTypes, p.allowedModels, p.allowedGroups;
    if g.Some? {
      if |g.value.allowedTypes| > 0 {
        pTypes := IntersectInts(pTypes, g.value.allowedTypes);
      }
      if |g.value.allowedModels| > 0 {
        pModels := IntersectStrings(pModels, g.value.allowedModels);
      }
      if |g.value.allowedGroups| > 0 {
        pGroups := IntersectStrings(pGroups, g.value.allowedGroups);
      }
    }
    var types := ToIntSet(pTypes);
    var models := ToStrSet(pModels);
    var groups := ToStrSet(pGroups);
    eff := Effective(types, models, groups,
                     |pTypes| == 0 && GrantTypes(g) == [],
                     |pModels| == 0 && GrantModels(g) == [],
                     |pGroups| == 0 && GrantGroups(g) == []);
  }

  method ChannelUpload(inp: ChannelInput, p: Platform, g: Option<Grant>)
    returns (r: Result<Accepted, Violation>)
    ensures r == Upload(inp, p, g)
  {
    if inp.kind !in SUPPORTED_TYPES {
      return Err(UnsupportedType);
    }
    var eff := ComputeEffective(p, g);
    if !eff.typesUnrestricted && inp.kind !in eff.types {
      return Err(TypeNotPermitted);
    }
    var models := NormalizeModels(inp.models);
    if |models| == 0 {
      return Err(NoModel);
    }
    if !eff.modelsUnrestricted {
      for i := 0 to |models|
        invariant FirstForbidden(p, g, models) == FirstForbidden(p, g, models[i..])
      {
        if models[i] !in eff.models {
          return Err(ModelNotPermitted(models[i]));
        }
        assert models[i..][1..] == models[i + 1..];
      }
    }
    var group := TrimSpace(inp.group);
    if !eff.groupsUnrestricted && group != "" && group !in eff.groups {
      return Err(GroupNotPermitted(group));
    }
    r := Ok(Accepted(Join(models, ','), group));
  }

  // --- Narrowing ---

  // A grant only ever takes permissions away: what it lets through, the platform
  // alone lets through with the same stored fields, and it lies in every list the
  // grant spells out.
  lemma GrantNarrows(inp: ChannelInput, p: Platform, g: Grant)
    requires Upload(inp, p, Some(g)).Ok?
    ensures Upload(inp, p, None) == Upload(inp, p, Some(g))
    ensures g.allowedTypes != [] ==> inp.kind in g.allowedTypes
    ensures g.allowedModels != [] ==>
              forall m :: m in Normalized(inp.models) ==> Lists(g.allowedModels, m)
    ensures g.allowedGroups != [] && TrimSpace(inp.group) != "" ==>
              Lists(g.allowedGroups, TrimSpace(inp.group))
  {
  }

  // The whitelist the supplier's platform page displays: the grant's list when it
  // has one, otherwise the platform's.
  function Shown<T>(platform: seq<T>, grant: seq<T>): seq<T> { if grant == [] then platform else grant }

  lemma AcceptedIsDisplayed(inp: ChannelInput, p: Platform, g: Grant)
    requires Upload(inp, p, Some(g)).Ok?
    ensures var ts := Shown(p.allowedTypes, g.allowedTypes); ts == [] || inp.kind in ts
    ensures var ms := Shown(p.allowedModels, g.allowedModels);
            ms == [] || forall m :: m in Normalized(inp.models) ==> Lists(ms, m)
    ensures var rs := Shown(p.allowedGroups, g.allowedGroups);
            rs == [] || TrimSpace(inp.group) == "" || Lists(rs, TrimSpace(inp.group))
  {
  }

  // The display promises exactly what the validator permits if and only if the
  // grant adds nothing outside the platform's own list. In particular an
  // unrestricted platform under a non-empty grant list shows that list and then
  // denies everything.
  lemma DisplayedTypesExact(p: Platform, g: Grant)
    ensures (forall t :: TypePermitted(p, Some(g), t)
                         <==> Shown(p.allowedTypes, g.allowedTypes) == [] || t in Shown(p.allowedTypes, g.allowedTypes))
            <==> forall t :: t in g.allowedTypes ==> t in p.allowedTypes
  {
  }

  lemma DisplayedTextExact(platform: seq<string>, grant: seq<string>)
    ensures (forall s :: TextPermitted(platform, grant, s)
                         <==> Shown(platform, grant) == [] || Lists(Shown(platform, grant), s))
            <==> forall s :: Lists(grant, s) ==> Lists(platform, s)
  {
    if s :| Lists(grant, s) && !Lists(platform, s) {
      assert !TextPermitted(platform, grant, s);
      assert Lists(Shown(platform, grant), s);
    }
  }

  lemma UnrestrictedPlatformUnderGrantDeniesAll(inp: ChannelInput, p: Platform, g: Grant)
    requires (p.allowedTypes == [] && g.allowedTypes != [])
             || (p.allowedModels == [] && g.allowedModels != [])
             || (p.allowedGroups == [] && g.allowedGroups != [] && TrimSpace(inp.group) != "")
    ensures Upload(inp, p, Some(g)).Err?
  {
  }
}
