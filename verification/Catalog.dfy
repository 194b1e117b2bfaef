// Platforms and grants, with their JSON list columns already decoded (null, the
// empty text and "[]" all decode to the empty list).
module Catalog {
  import opened Prelude

  const STATUS_ENABLED := 1
  const STATUS_DISABLED := 2

  // The closed set of provider numbers an upload may name.
  const SUPPORTED_TYPES: set<int> := {1, 3, 14, 24, 33, 41}

  datatype PlatformGroup = PlatformGroup(name: string, kind: int, showAmount: bool)

  datatype Platform = Platform(
    name: string, baseUrl: string, status: int, namePrefix: string,
    groups: seq<PlatformGroup>,
    allowedTypes: seq<int>, allowedModels: seq<string>, allowedGroups: seq<string>)
  {
    // The first configured group bound to a channel type.
    function GroupForType(kind: int): (r: Option<PlatformGroup>)
      ensures r.Some? <==> exists i :: 0 <= i < |groups| && groups[i].kind == kind
      ensures r.Some? ==> exists i :: 0 <= i < |groups| && r.value == groups[i] && groups[i].kind == kind
                                      && forall j :: 0 <= j < i ==> groups[j].kind != kind
    {
      FirstOfType(groups, kind)
    }

    // Unknown groups default to hidden.
    function ShowAmountForGroup(name: string): bool {
      ShowAmount(groups, name)
    }
  }

  datatype Grant = Grant(
    userId: int, platformId: int,
    allowedTypes: seq<int>, allowedModels: seq<string>, allowedGroups: seq<string>,
    maxChannels: int, status: int)

  function FirstOfType(gs: seq<PlatformGroup>, kind: int): (r: Option<PlatformGroup>)
    ensures r.Some? <==> exists i :: 0 <= i < |gs| && gs[i].kind == kind
    ensures r.Some? ==> exists i :: 0 <= i < |gs| && r.value == gs[i] && gs[i].kind == kind
                                    && forall j :: 0 <= j < i ==> gs[j].kind != kind
  {
    if gs == [] then None
    else if gs[0].kind == kind then Some(gs[0])
    else
      var r := FirstOfType(gs[1..], kind);
      assert r.Some? ==> exists i :: 0 <= i < |gs| && r.value == gs[i] && gs[i].kind == kind
                                     && forall j :: 0 <= j < i ==> gs[j].kind != kind by {
        if r.Some? {
          var i :| 0 <= i < |gs[1..]| && r.value == gs[1..][i] && gs[1..][i].kind == kind
                   && forall j :: 0 <= j < i ==> gs[1..][j].kind != kind;
          assert r.value == gs[i + 1];
          assert forall j :: 1 <= j < i + 1 ==> gs[j] == gs[1..][j - 1];
        }
      }
      r
  }

  // The toggle of the first group of the name; hidden when there is none.
  function ShowAmount(gs: seq<PlatformGroup>, name: string): bool {
    if gs == [] then false
    else if gs[0].name == name then gs[0].showAmount
    else ShowAmount(gs[1..], name)
  }

  lemma {:induction false} ShowAmountExactly(gs: seq<PlatformGroup>, name: string)
    ensures ShowAmount(gs, name) <==>
              exists i :: 0 <= i < |gs| && gs[i].name == name && gs[i].showAmount
                          && forall j :: 0 <= j < i ==> gs[j].name != name
  {
    if gs != [] {
      var rest := gs[1..];
      ShowAmountExactly(rest, name);
      if gs[0].name != name {
        if i :| 0 <= i < |rest| && rest[i].name == name && rest[i].showAmount
                && forall j :: 0 <= j < i ==> rest[j].name != name {
          assert gs[i + 1].name == name && gs[i + 1].showAmount;
          assert forall j :: 1 <= j < i + 1 ==> gs[j] == rest[j - 1];
        }
        if i :| 0 <= i < |gs| && gs[i].name == name && gs[i].showAmount
                && forall j :: 0 <= j < i ==> gs[j].name != name {
          assert rest[i - 1] == gs[i];
          assert forall j :: 0 <= j < i - 1 ==> rest[j] == gs[j + 1];
        }
      }
    }
  }
}
