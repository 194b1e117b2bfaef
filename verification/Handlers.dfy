// The handlers as they run: statement after statement against the database tables.
// Each method leaves exactly the store, and gives exactly the answer, of its request;
// what that means is spelled out in `Effects`.
module Handlers {
  import opened Prelude
  import opened Text
  import opened Vaults
  import opened Catalog
  import opened Whitelist
  import opened ChannelRows
  import opened Names
  import opened Registry
  import opened Integrity
  import opened Effects

  class Database {
    var users: map<int, User>
    var platforms: map<int, Platform>
    var grants: map<int, Grant>
    var channels: Rows
    var nextChannel: nat

    function State(): Store
      reads this
    {
      Store(users, platforms, grants, channels, nextChannel)
    }

    constructor ()
      ensures State() == Empty
    {
      users, platforms, grants, channels, nextChannel := map[], map[], map[], map[], 1;
    }

    // --- Admin side ---

    // Three statements without a transaction; `stop` of them run.
    method DeleteUserRows(id: int, stop: nat)
      modifies this
      ensures State() == DoDeleteUser(old(State()), id, stop)
      ensures UserCascade(old(State()), State(), id, stop)
    {
      DeleteUserEffect(State(), id, stop);
      if stop == 0 {
        return;
      }
      grants := map i | i in grants && grants[i].userId != id :: grants[i];
      if stop == 1 {
        return;
      }
      channels := map i | i in channels ::
        if channels[i].userId == id then channels[i].(deleted := true) else channels[i];
      if stop == 2 {
        return;
      }
      users := users - {id};
    }

    method DeletePlatformRows(id: int, stop: nat) returns (resp: Response)
      modifies this
      ensures (State(), resp) == DoDeletePlatform(old(State()), id, stop)
      ensures PlatformCascade(old(State()), State(), id, stop, resp)
    {
      DeletePlatformEffect(State(), id, stop);
      var n := |Referring(channels, id)|;
      if n > 0 {
        return Fail(409, "platform still has channels; remove them first");
      }
      if stop == 0 {
        return Fail(500, "failed to delete platform");
      }
      grants := map i | i in grants && grants[i].platformId != id :: grants[i];
      if stop == 1 {
        return Fail(500, "failed to delete platform");
      }
      platforms := platforms - {id};
      resp := Done(id);
    }

    // The lookup ignores the status, so a disabled grant is found and rewritten.
    method UpsertGrantRow(newId: int, grant: Grant) returns (resp: Response)
      modifies this
      ensures (State(), resp) == DoUpsertGrant(old(State()), newId, grant)
      ensures old(OnePerPair(State())) ==> GrantSaved(old(State()), State(), newId, grant, resp)
    {
      if OnePerPair(State()) {
        UpsertGrantEffect(State(), newId, grant);
      }
      if grant.userId <= 0 || grant.platformId <= 0 {
        return Fail(400, "user_id and platform_id are required");
      }
      if grant.userId !in users {
        return Fail(400, "user not found");
      }
      if users[grant.userId].role != ROLE_SUPPLIER {
        return Fail(400, "grants can only target supplier accounts");
      }
      if grant.platformId !in platforms {
        return Fail(400, "platform not found");
      }
      var g := grant;
      if g.status == 0 {
        g := g.(status := Catalog.STATUS_ENABLED);
      }
      var existing := FirstId(GrantIds(State(), g.userId, g.platformId));
      if existing.None? {
        if newId in grants {
          return Fail(500, "failed to save grant");
        }
        grants := grants[newId := g];
        return Done(newId);
      }
      grants := grants[existing.value := g];
      resp := Done(existing.value);
    }

    // --- Supplier side ---

    method AuthorizePlatform(userId: int, platformId: int) returns (r: Result<(Platform, Grant), string>)
      ensures r == Authorize(State(), userId, platformId)
      ensures r.Ok? <==> platformId != 0 && platformId in platforms && platforms[platformId].status != STATUS_DISABLED
                         && exists i :: i in EnabledGrantIds(State(), userId, platformId)
    {
      AuthorizeExactly(State(), userId, platformId);
      if platformId == 0 || platformId !in platforms {
        return Err("platform not found");
      }
      var p := platforms[platformId];
      if p.status == STATUS_DISABLED {
        return Err("platform is disabled");
      }
      var g := GetGrant(State(), userId, platformId);
      if g.None? {
        return Err("you are not authorized to use this platform");
      }
      r := Ok((p, g.value));
    }

    // The checks of an upload, in the order the handler makes them.
    method ValidateFields(r: Request) returns (res: Result<(Grant, Accepted), Response>)
      requires r.CreateChannel?
      ensures res == CheckFields(State(), r)
    {
      if TrimSpace(r.key) == "" {
        return Err(Fail(400, "key is required"));
      }
      var auth := AuthorizePlatform(r.userId, r.platformId);
      if auth.Err? {
        return Err(Fail(403, auth.error));
      }
      var (p, g) := auth.value;
      var bound := p.GroupForType(r.kind);
      if bound.None? {
        return Err(Fail(400, "no group is configured for this channel type"));
      }
      var checked := ChannelUpload(ChannelInput(r.kind, Split(r.models, ','), bound.value.name), p, Some(g));
      if checked.Err? {
        return Err(Rejected(checked.error));
      }
      res := Ok((g, checked.value));
    }

    method ValidateUpload(v: Vault, r: Request) returns (res: Result<Accepted, Response>)
      requires r.CreateChannel?
      ensures res == CheckUpload(v, State(), r)
    {
      var fields := ValidateFields(r);
      if fields.Err? {
        return Err(fields.error);
      }
      var (g, accepted) := fields.value;
      if g.maxChannels > 0 {
        var count := |LivePair(channels, r.userId, r.platformId)|;
        if count >= g.maxChannels {
          return Err(Fail(403, "channel limit reached for this platform"));
        }
      }
      if FingerprintExists(channels, r.userId, r.platformId, v.digest(Utf8(r.key))) {
        return Err(Fail(409, "this key has already been uploaded to this platform"));
      }
      res := Ok(accepted);
    }

    // The key sealed, the name generated, and both in the row to insert.
    method BuildRow(v: Vault, r: Request, a: Accepted) returns (row: Channel)
      requires r.CreateChannel? && |r.nonce| == NONCE_SIZE && r.platformId in platforms
      ensures row == NewRow(v, State(), r, a)
    {
      var sealed := v.Seal(r.nonce, Utf8(r.key));
      var prefix := platforms[r.platformId].namePrefix;
      var plan := Plan(prefix, r.username, a.group, |PairRows(channels, r.userId, r.platformId)| + 1);
      var name := plan.GenerateName(PairNames(channels, r.userId, r.platformId));
      row := FreshRow(r.userId, r.platformId, name, r.kind, sealed, v.digest(Utf8(r.key)), Last4(Utf8(r.key)),
                      a.modelsCsv, a.group, r.now);
    }

    method CreateChannel(v: Vault, r: Request) returns (resp: Response)
      requires r.CreateChannel? && |r.nonce| == NONCE_SIZE
      modifies this
      ensures (State(), resp) == DoCreateChannel(v, old(State()), r)
    {
      var checked := ValidateUpload(v, r);
      if checked.Err? {
        return checked.error;
      }
      AcceptedPlatform(v, State(), r);
      var row := BuildRow(v, r, checked.value);
      var id := nextChannel;
      channels := channels[id := row];
      nextChannel := nextChannel + 1;
      resp := Uploaded(id, row.keyState, row.syncStatus);
    }

    method ValidateUpdate(r: Request) returns (res: Result<Accepted, Response>)
      requires r.UpdateChannel?
      ensures res == CheckUpdate(State(), r)
    {
      if !Live(channels, r.id) || channels[r.id].userId != r.userId {
        return Err(Fail(404, "channel not found"));
      }
      var c := channels[r.id];
      var auth := AuthorizePlatform(r.userId, c.platformId);
      if auth.Err? {
        return Err(Fail(403, auth.error));
      }
      var (p, g) := auth.value;
      var models := c.models;
      if r.models != "" {
        models := r.models;
      }
      var group := c.group;
      var bound := p.GroupForType(c.kind);
      if bound.Some? {
        group := bound.value.name;
      }
      var checked := ChannelUpload(ChannelInput(c.kind, Split(models, ','), group), p, Some(g));
      if checked.Err? {
        return Err(Rejected(checked.error));
      }
      res := Ok(checked.value);
    }

    // Two statements: the metadata, then the key if the request brings one.
    method UpdateChannel(v: Vault, r: Request) returns (resp: Response)
      requires r.UpdateChannel? && |r.nonce| == NONCE_SIZE
      modifies this
      ensures (State(), resp) == DoUpdateChannel(v, old(State()), r)
      ensures v.Sound() && resp.Done? ==> UpdateDone(v, old(State()), channels, r)
      ensures v.Sound() && !resp.Done? ==> State() == old(State())
    {
      if v.Sound() {
        UpdateEffect(v, State(), r);
      }
      var checked := ValidateUpdate(r);
      if checked.Err? {
        return checked.error;
      }
      var a := checked.value;
      channels := UpdateMetadata(channels, r.id, channels[r.id].name, "", a.modelsCsv, a.group, r.now);
      if TrimSpace(r.key) != "" {
        var sealed := v.Seal(r.nonce, Utf8(r.key));
        channels := ReplaceKey(channels, r.id, sealed, v.digest(Utf8(r.key)), Last4(Utf8(r.key)), r.now);
      }
      resp := Done(r.id);
    }

    // A platform lookup behind a request-local cache.
    method CachedPlatform(cache: map<int, Platform>, id: int) returns (p: Option<Platform>, cache': map<int, Platform>)
      requires forall i :: i in cache ==> GetPlatform(State(), i) == Some(cache[i])
      ensures p == GetPlatform(State(), id)
      ensures forall i :: i in cache' ==> GetPlatform(State(), i) == Some(cache'[i])
    {
      if id in cache {
        return Some(cache[id]), cache;
      }
      p := GetPlatform(State(), id);
      cache' := if p.Some? then cache[id := p.value] else cache;
    }

    // A page of the supplier's rows, each with its platform's show-amount toggle.
    method ListChannels(r: Request) returns (resp: Response)
      requires r.ListChannels?
      ensures resp == DoListChannels(State(), r)
    {
      var ids := NewestFirst(channels, nextChannel, r.userId, r.platformId);
      var page := Page(ids, r.offset, r.limit);
      var views := PageViews(page);
      resp := Listed(views, |ids|);
    }

    method PageViews(page: seq<int>) returns (views: seq<View>)
      requires forall i :: i in page ==> i in channels
      ensures views == Views(State(), page)
    {
      var cache: map<int, Platform> := map[];
      views := [];
      for i := 0 to |page|
        invariant forall p :: p in cache ==> GetPlatform(State(), p) == Some(cache[p])
        invariant views == Views(State(), page[..i])
      {
        var id := page[i];
        assert id in page;
        var c := channels[id];
        var p, cache' := CachedPlatform(cache, c.platformId);
        cache := cache';
        var show := false;
        if p.Some? {
          show := p.value.ShowAmountForGroup(c.group);
        }
        views := views + [View(id, c.(encKey := []), show)];
      }
      assert page[..|page|] == page;
    }

    method DeleteChannel(userId: int, id: int) returns (resp: Response)
      modifies this
      ensures (State(), resp) == DoDeleteChannel(old(State()), userId, id)
      ensures OnlyRow(old(channels), channels, id)
      ensures resp == Done(id) ==> channels[id] == old(channels)[id].(deleted := true)
      ensures resp != Done(id) ==> State() == old(State())
    {
      DeleteChannelEffect(State(), userId, id);
      if !(Live(channels, id) && channels[id].userId == userId) {
        return Fail(404, "channel not found");
      }
      channels := channels[id := channels[id].(deleted := true)];
      resp := Done(id);
    }

    // `answer` is AGT's reply to the usage query, or the error that replaces it.
    method RefreshUsage(r: Request) returns (resp: Response)
      requires r.RefreshUsage?
      modifies this
      ensures (State(), resp) == DoRefreshUsage(old(State()), r)
      ensures OnlyRow(old(channels), channels, r.id)
      ensures resp.UsageOf? ==> SameSecret(old(channels)[r.id], channels[r.id])
                                && channels[r.id].syncStatus == old(channels)[r.id].syncStatus
    {
      RefreshUsageEffect(State(), r);
      if !(Live(channels, r.id) && channels[r.id].userId == r.userId) {
        return Fail(404, "channel not found");
      }
      var c := channels[r.id];
      if c.remoteId == 0 {
        return Fail(502, "channel has not been synced to AGT yet");
      }
      if GetPlatform(State(), c.platformId).None? {
        return Fail(502, "platform not found");
      }
      if r.answer.Err? {
        return Fail(502, r.answer.error);
      }
      channels := SetUsage(channels, r.id, r.answer.value, r.now);
      resp := UsageOf(r.id, r.answer.value);
    }

    method ResyncChannel(userId: int, id: int) returns (resp: Response)
      ensures (State(), resp) == DoResyncChannel(State(), userId, id)
    {
      if !(Live(channels, id) && channels[id].userId == userId) {
        return Fail(404, "channel not found");
      }
      if channels[id].syncAttempts >= MAX_SYNC_RETRIES {
        return Fail(429, "max retries reached; please re-upload the key");
      }
      resp := Done(id);
    }
  }

  // --- The supplier's platform page ---

  datatype PlatformView = PlatformView(
    platformId: int, name: string, baseUrl: string, status: int,
    allowedTypes: seq<int>, allowedModels: seq<string>, allowedGroups: seq<string>, maxChannels: int)

  function ViewFor(p: Platform, g: Grant): PlatformView {
    PlatformView(g.platformId, p.name, p.baseUrl, p.status,
                 Shown(p.allowedTypes, g.allowedTypes), Shown(p.allowedModels, g.allowedModels),
                 Shown(p.allowedGroups, g.allowedGroups), g.maxChannels)
  }

  // One view per grant whose platform is found, in order.
  function MyPlatforms(s: Store, gs: seq<Grant>): seq<PlatformView> {
    if gs == [] then []
    else
      var front, g := MyPlatforms(s, gs[..|gs| - 1]), gs[|gs| - 1];
      match GetPlatform(s, g.platformId)
      case None => front
      case Some(p) => front + [ViewFor(p, g)]
  }

  // `gs` is the supplier's enabled grants in the order the database returns them.
  method ListMyPlatforms(s: Store, gs: seq<Grant>) returns (views: seq<PlatformView>)
    ensures views == MyPlatforms(s, gs)
  {
    views := [];
    for i := 0 to |gs|
      invariant views == MyPlatforms(s, gs[..i])
    {
      assert gs[..i + 1][..i] == gs[..i];
      var g := gs[i];
      var p := GetPlatform(s, g.platformId);
      if p.None? {
        continue;
      }
      var types := g.allowedTypes;
      if |types| == 0 {
        types := p.value.allowedTypes;
      }
      var models := g.allowedModels;
      if |models| == 0 {
        models := p.value.allowedModels;
      }
      var groups := g.allowedGroups;
      if |groups| == 0 {
        groups := p.value.allowedGroups;
      }
      views := views + [PlatformView(g.platformId, p.value.name, p.value.baseUrl, p.value.status,
                                     types, models, groups, g.maxChannels)];
    }
    assert gs[..|gs|] == gs;
  }

  // Each view has its platform's name, base URL and status, its grant's cap, and for each
  // list the grant's, or the platform's where the grant has none.
  predicate ShowsGrant(s: Store, g: Grant, view: PlatformView) {
    && g.platformId != 0 && g.platformId in s.platforms
    && var p := s.platforms[g.platformId];
       && view.platformId == g.platformId && view.maxChannels == g.maxChannels
       && view.name == p.name && view.baseUrl == p.baseUrl && view.status == p.status
       && view.allowedTypes == (if |g.allowedTypes| > 0 then g.allowedTypes else p.allowedTypes)
       && view.allowedModels == (if |g.allowedModels| > 0 then g.allowedModels else p.allowedModels)
       && view.allowedGroups == (if |g.allowedGroups| > 0 then g.allowedGroups else p.allowedGroups)
  }

  // The grants whose platform is found.
  function Found(s: Store, gs: seq<Grant>): seq<Grant> {
    if gs == [] then []
    else
      var g := gs[|gs| - 1];
      Found(s, gs[..|gs| - 1]) + if g.platformId != 0 && g.platformId in s.platforms then [g] else []
  }

  // The page shows those grants, in their order.
  lemma {:induction false} PageShowsGrants(s: Store, gs: seq<Grant>)
    ensures var views, found := MyPlatforms(s, gs), Found(s, gs);
            |views| == |found| && forall i :: 0 <= i < |views| ==> ShowsGrant(s, found[i], views[i])
  {
    if gs != [] {
      PageShowsGrants(s, gs[..|gs| - 1]);
    }
  }

  lemma {:induction false} ViewIsListed(s: Store, gs: seq<Grant>, g: Grant)
    requires g in gs && GetPlatform(s, g.platformId).Some?
    ensures ViewFor(GetPlatform(s, g.platformId).value, g) in MyPlatforms(s, gs)
  {
    if g != gs[|gs| - 1] {
      assert g in gs[..|gs| - 1];
      ViewIsListed(s, gs[..|gs| - 1], g);
    }
  }

  // Whatever upload the handler lets through, the supplier's page shows a view of that
  // platform whose lists permit it.
  lemma UploadIsDisplayed(v: Vault, s: Store, r: Request, gs: seq<Grant>)
    returns (view: PlatformView)
    requires r.CreateChannel? && CheckUpload(v, s, r).Ok?
    requires forall i :: i in s.grants && s.grants[i].userId == r.userId && s.grants[i].status == Catalog.STATUS_ENABLED
               ==> s.grants[i] in gs
    ensures view in MyPlatforms(s, gs) && view.platformId == r.platformId
    ensures view.allowedTypes == [] || r.kind in view.allowedTypes
    ensures view.allowedModels == []
            || forall m :: m in Normalized(Split(r.models, ',')) ==> Lists(view.allowedModels, m)
    ensures var group := CheckUpload(v, s, r).value.group;
            view.allowedGroups == [] || group == "" || Lists(view.allowedGroups, group)
  {
    var (p, g) := Authorize(s, r.userId, r.platformId).value;
    var ids := EnabledGrantIds(s, r.userId, r.platformId);
    assert FirstId(ids).value in ids;
    var inp := ChannelInput(r.kind, Split(r.models, ','), p.GroupForType(r.kind).value.name);
    view := ViewFor(p, g);
    ViewIsListed(s, gs, g);
    AcceptedIsDisplayed(inp, p, g);
    UploadStores(inp, p, Some(g));
  }
}
