// What the handlers' answers mean: when each is given, what has changed, what has not.
module Effects {
  import opened Prelude
  import opened Text
  import opened Vaults
  import opened Catalog
  import opened Whitelist
  import opened ChannelRows
  import opened Decimal
  import opened Names
  import opened Registry
  import opened Integrity

  // Every request reaches its own handler.
  lemma EveryRequestHandled(v: Vault, s: Store, r: Request)
    ensures FromAdmin(r) ==> Handle(v, s, r) == HandleAdmin(s, r)
    ensures r.DeletePlatform? ==> HandleAdmin(s, r) == DoDeletePlatform(s, r.id, r.stop)
    ensures r.UpsertGrant? ==> HandleAdmin(s, r) == DoUpsertGrant(s, r.newId, r.grant)
    ensures r.CreateChannel? ==> Handle(v, s, r) == DoCreateChannel(v, s, r)
    ensures r.UpdateChannel? ==> Handle(v, s, r) == DoUpdateChannel(v, s, r)
    ensures r.DeleteChannel? ==> Handle(v, s, r) == DoDeleteChannel(s, r.userId, r.id)
    ensures r.ResyncChannel? ==> Handle(v, s, r) == DoResyncChannel(s, r.userId, r.id)
    ensures r.RefreshUsage? ==> Handle(v, s, r) == DoRefreshUsage(s, r)
    ensures r.ListChannels? ==> Handle(v, s, r) == (s, DoListChannels(s, r))
  {
  }

  // --- Cascades ---

  // After the first `stop` statements of a user's deletion. Nothing of anybody else
  // changes, and the user's channel rows stay in the table with all their columns.
  ghost predicate UserCascade(s: Store, s': Store, id: int, stop: nat) {
    && s'.platforms == s.platforms && s'.nextChannel == s.nextChannel
    && (forall i :: i in s'.grants <==> i in s.grants && (stop >= 1 ==> s.grants[i].userId != id))
    && (forall i :: i in s'.grants ==> s'.grants[i] == s.grants[i])
    && s'.channels.Keys == s.channels.Keys
    && (forall i :: i in s.channels ==> s'.channels[i].(deleted := false) == s.channels[i].(deleted := false))
    && (forall i :: i in s.channels && s.channels[i].userId != id ==> s'.channels[i] == s.channels[i])
    && (stop >= 2 ==> forall i :: Live(s'.channels, i) ==> s'.channels[i].userId != id)
    && (stop < 2 ==> s'.channels == s.channels)
    && s'.users == if stop >= 3 then s.users - {id} else s.users
  }

  lemma CascadeChannels(rows: Rows, id: int)
    ensures var rows' := WithoutChannelsOf(rows, id);
            && rows'.Keys == rows.Keys
            && (forall i :: i in rows ==> rows'[i].(deleted := false) == rows[i].(deleted := false))
            && (forall i :: i in rows && rows[i].userId != id ==> rows'[i] == rows[i])
            && (forall i :: Live(rows', i) ==> rows'[i].userId != id)
  {
  }

  lemma DeleteUserEffect(s: Store, id: int, stop: nat)
    ensures UserCascade(s, DoDeleteUser(s, id, stop), id, stop)
  {
    CascadeChannels(s.channels, id);
  }

  lemma DeleteUserAnswer(s: Store, id: int, stop: nat)
    ensures var (s', resp) := HandleAdmin(s, Request.DeleteUser(id, stop));
            && s' == DoDeleteUser(s, id, stop)
            && resp == (if stop >= 3 then Done(id) else Fail(500, "failed to delete user"))
            && (resp == Done(id) ==> id !in s'.users)
  {
  }

  // A request that changes nothing and says why, by its status code.
  predicate RefusedWith(s: Store, after: (Store, Response), code: int) {
    after.0 == s && after.1.Fail? && after.1.code == code
  }

  // A platform in use stays as it is; otherwise its grants go, by the first statement, and
  // then it goes too, by the second, so that no prefix of the statements leaves a grant or
  // a live channel pointing nowhere.
  ghost predicate PlatformCascade(s: Store, s': Store, id: int, stop: nat, resp: Response) {
    && s'.users == s.users && s'.channels == s.channels
    && (forall i :: i in s'.grants ==> i in s.grants && s'.grants[i] == s.grants[i])
    && (forall i :: i in s.grants && s.grants[i].platformId != id ==> i in s'.grants)
    && (s'.platforms == s.platforms || s'.platforms == s.platforms - {id})
    && ((exists i :: Live(s.channels, i) && s.channels[i].platformId == id) <==> resp.Fail? && resp.code == 409)
    && (resp.Fail? && resp.code == 409 ==> s' == s)
    && (resp.Done? <==> resp == Done(id))
    && (resp.Done? ==> id !in s'.platforms)
    && (!(resp.Fail? && resp.code == 409) ==>
          && (resp.Done? <==> stop >= 2)
          && (stop >= 1 ==> forall i :: i in s'.grants ==> s'.grants[i].platformId != id)
          && s'.platforms == if stop >= 2 then s.platforms - {id} else s.platforms)
    && (id in s.platforms && id !in s'.platforms ==>
          && (forall i :: i in s'.grants ==> s'.grants[i].platformId != id)
          && (forall i :: Live(s'.channels, i) ==> s'.channels[i].platformId != id))
  }

  lemma InUseExactly(s: Store, id: int)
    ensures PlatformInUse(s, id) <==> exists i :: Live(s.channels, i) && s.channels[i].platformId == id
  {
    if i :| Live(s.channels, i) && s.channels[i].platformId == id {
      assert i in Referring(s.channels, id);
    }
    if PlatformInUse(s, id) {
      var i := Pick(Referring(s.channels, id));
      assert Live(s.channels, i);
    }
  }

  lemma DeletePlatformEffect(s: Store, id: int, stop: nat)
    ensures PlatformCascade(s, DoDeletePlatform(s, id, stop).0, id, stop, DoDeletePlatform(s, id, stop).1)
  {
    InUseExactly(s, id);
  }

  // --- Grants ---

  predicate ValidGrant(s: Store, g: Grant) {
    && g.userId > 0 && g.userId in s.users && s.users[g.userId].role == ROLE_SUPPLIER
    && g.platformId > 0 && g.platformId in s.platforms
  }

  // Saved exactly when the grant is valid and, should the pair have none yet, the new id
  // is free. Then the pair has one grant, under its old id if it had one, whatever its
  // status was; and no other grant has changed.
  ghost predicate GrantSaved(s: Store, s': Store, newId: int, g: Grant, resp: Response) {
    && (resp.Done? <==> ValidGrant(s, g) && (GrantIds(s, g.userId, g.platformId) != {} || newId !in s.grants))
    && (!resp.Done? ==> s' == s)
    && (resp.Done? ==>
          && s' == s.(grants := s'.grants)
          && s'.grants.Keys == s.grants.Keys + {resp.id}
          && (forall i :: i in s.grants && i != resp.id ==> s'.grants[i] == s.grants[i])
          && s'.grants[resp.id].(status := g.status) == g
          && s'.grants[resp.id].status == (if g.status == 0 then Catalog.STATUS_ENABLED else g.status)
          && (if GrantIds(s, g.userId, g.platformId) == {} then resp.id == newId
              else resp.id in GrantIds(s, g.userId, g.platformId))
          && GrantIds(s', g.userId, g.platformId) == {resp.id})
  }

  lemma CheckGrantExactly(s: Store, g: Grant)
    ensures CheckGrant(s, g).None? <==> ValidGrant(s, g)
    ensures CheckGrant(s, g).Some? ==> CheckGrant(s, g).value.Fail?
  {
  }

  lemma UpsertGrantEffect(s: Store, newId: int, g: Grant)
    requires OnePerPair(s)
    ensures GrantSaved(s, DoUpsertGrant(s, newId, g).0, newId, g, DoUpsertGrant(s, newId, g).1)
  {
    CheckGrantExactly(s, g);
    if CheckGrant(s, g).None? {
      var ids := GrantIds(s, g.userId, g.platformId);
      if ids != {} {
        var i := FirstId(ids).value;
        forall j | j in ids
          ensures j == i
        {
        }
        assert ids == {i};
      }
    }
  }

  // A deleted grant is gone, whatever it was, and nothing else changes.
  lemma DeleteGrantEffect(s: Store, id: int)
    ensures var (s', resp) := HandleAdmin(s, Request.DeleteGrant(id));
            && resp == Done(id) && s' == s.(grants := s'.grants)
            && id !in s'.grants
            && (forall i :: i in s'.grants ==> i in s.grants && s'.grants[i] == s.grants[i])
            && (forall i :: i in s.grants && i != id ==> i in s'.grants)
            && (OnePerPair(s) && id in s.grants ==>
                  GrantIds(s', s.grants[id].userId, s.grants[id].platformId) == {})
  {
    if OnePerPair(s) && id in s.grants {
      var s' := HandleAdmin(s, Request.DeleteGrant(id)).0;
      forall i
        ensures i !in GrantIds(s', s.grants[id].userId, s.grants[id].platformId)
      {
        assert i in s'.grants ==> i in s.grants && i != id;
      }
    }
  }

  // --- Users and platforms ---

  // Supplier, admin or root.
  predicate ValidRole(role: int) { role == 1 || role == 10 || role == 100 }

  predicate NameTaken(s: Store, username: string) { exists i :: i in s.users && s.users[i].username == username }

  // A user comes in exactly with a name nobody has, a password of eight characters or more
  // and a role there is; the role defaults to supplier, and the account is enabled.
  lemma CreateUserEffect(s: Store, r: Request)
    requires r.CreateUser?
    ensures var (s', resp) := HandleAdmin(s, r);
            && (resp.Done? <==>
                  && r.username != "" && r.passwordLength >= 8 && (r.role == 0 || ValidRole(r.role))
                  && !NameTaken(s, r.username) && r.newId > 0 && r.newId !in s.users)
            && (resp.Done? ==>
                  && resp.id == r.newId && s' == s.(users := s'.users)
                  && s'.users.Keys == s.users.Keys + {r.newId}
                  && (forall i :: i in s.users ==> s'.users[i] == s.users[i])
                  && s'.users[r.newId].username == r.username && s'.users[r.newId].status == 1
                  && s'.users[r.newId].role == (if r.role == 0 then 1 else r.role))
            && (!resp.Done? ==> s' == s)
    ensures var after := HandleAdmin(s, r);
            && (r.username == "" || r.passwordLength < 8 || (r.role != 0 && !ValidRole(r.role)) ==>
                  RefusedWith(s, after, 400))
            && (r.username != "" && r.passwordLength >= 8 && (r.role == 0 || ValidRole(r.role)) ==>
                  NameTaken(s, r.username) ==> RefusedWith(s, after, 409))
  {
  }

  // Role and status change where the request names them; the name never does.
  lemma UpdateUserEffect(s: Store, r: Request)
    requires r.UpdateUser?
    ensures var (s', resp) := HandleAdmin(s, r);
            && (resp.Done? <==> r.id != 0 && r.id in s.users && (r.role == 0 || ValidRole(r.role)))
            && (resp.Done? ==>
                  && resp.id == r.id && s' == s.(users := s'.users) && s'.users.Keys == s.users.Keys
                  && (forall i :: i in s.users && i != r.id ==> s'.users[i] == s.users[i])
                  && s'.users[r.id].username == s.users[r.id].username
                  && s'.users[r.id].role == (if r.role == 0 then s.users[r.id].role else r.role)
                  && s'.users[r.id].status == (if r.status == 0 then s.users[r.id].status else r.status))
            && (!resp.Done? ==> RefusedWith(s, (s', resp), if r.id == 0 || r.id !in s.users then 404 else 400))
  {
  }

  ghost predicate UsernamesDistinct(s: Store) {
    forall i, j :: i in s.users && j in s.users && i != j ==> s.users[i].username != s.users[j].username
  }

  lemma UsernamesStep(v: Vault, s: Store, r: Request)
    requires UsernamesDistinct(s)
    ensures UsernamesDistinct(After(v, s, r))
  {
    if FromAdmin(r) {
      AdminAfter(v, s, r);
      if r.CreateUser? {
        CreateUserEffect(s, r);
      } else if r.UpdateUser? {
        UpdateUserEffect(s, r);
      } else {
        UsersOnlyGo(s, r);
      }
    } else {
      SupplierKeepsCatalog(v, s, r);
    }
  }

  lemma UsersOnlyGo(s: Store, r: Request)
    requires FromAdmin(r) && !r.CreateUser? && !r.UpdateUser?
    ensures forall i :: i in HandleAdmin(s, r).0.users ==> i in s.users && HandleAdmin(s, r).0.users[i] == s.users[i]
  {
  }

  // Over every run no two users share a name.
  lemma {:induction false} UsernamesStayDistinct(v: Vault, s: Store, rs: seq<Request>)
    requires UsernamesDistinct(s)
    ensures UsernamesDistinct(Serve(v, s, rs))
    decreases |rs|
  {
    if rs != [] {
      UsernamesStep(v, s, rs[0]);
      UsernamesStayDistinct(v, After(v, s, rs[0]), rs[1..]);
    }
  }

  ghost predicate OnlyPlatform(s: Store, s': Store, id: int) {
    && s' == s.(platforms := s'.platforms) && s'.platforms.Keys == s.platforms.Keys + {id}
    && forall i :: i in s.platforms && i != id ==> s'.platforms[i] == s.platforms[i]
  }

  lemma CreatePlatformEffect(s: Store, r: Request)
    requires r.CreatePlatform?
    ensures var (s', resp) := HandleAdmin(s, r);
            && (resp.Done? <==>
                  && r.platform.name != "" && r.platform.baseUrl != "" && r.hasToken
                  && r.newId > 0 && r.newId !in s.platforms)
            && (resp.Done? ==>
                  && resp.id == r.newId && OnlyPlatform(s, s', r.newId)
                  && s'.platforms[r.newId].(status := r.platform.status) == r.platform
                  && s'.platforms[r.newId].status ==
                     (if r.platform.status == 0 then Catalog.STATUS_ENABLED else r.platform.status))
            && (!resp.Done? ==> s' == s)
            && (r.platform.name == "" || r.platform.baseUrl == "" || !r.hasToken ==> RefusedWith(s, (s', resp), 400))
  {
  }

  // An omitted name, base URL or status keeps the old value; prefix, groups and lists are
  // always those of the request, also when they are empty.
  lemma UpdatePlatformEffect(s: Store, r: Request)
    requires r.UpdatePlatform?
    ensures var (s', resp) := HandleAdmin(s, r);
            && (resp.Done? <==> r.id != 0 && r.id in s.platforms)
            && (resp.Done? ==>
                  && resp.id == r.id && OnlyPlatform(s, s', r.id)
                  && var p, q, p' := s.platforms[r.id], r.platform, s'.platforms[r.id];
                     && p'.name == (if q.name == "" then p.name else q.name)
                     && p'.baseUrl == (if q.baseUrl == "" then p.baseUrl else q.baseUrl)
                     && p'.status == (if q.status == 0 then p.status else q.status)
                     && p'.namePrefix == q.namePrefix && p'.groups == q.groups
                     && p'.allowedTypes == q.allowedTypes && p'.allowedModels == q.allowedModels
                     && p'.allowedGroups == q.allowedGroups)
            && (!resp.Done? ==> RefusedWith(s, (s', resp), 404))
  {
  }

  // --- Authorization and uploads ---

  // Let through exactly when the platform exists and is enabled and the supplier has an
  // enabled grant for it; then the platform found and the pair's first enabled grant.
  lemma AuthorizeExactly(s: Store, userId: int, platformId: int)
    ensures var r := Authorize(s, userId, platformId);
            && (r.Ok? <==>
                  && platformId != 0 && platformId in s.platforms
                  && s.platforms[platformId].status != STATUS_DISABLED
                  && exists i :: i in EnabledGrantIds(s, userId, platformId))
            && (r.Ok? ==>
                  && r.value.0 == s.platforms[platformId]
                  && exists i :: IsLeast(EnabledGrantIds(s, userId, platformId), i) && r.value.1 == s.grants[i])
  {
    var ids := EnabledGrantIds(s, userId, platformId);
    if FirstId(ids).Some? {
      assert IsLeast(ids, FirstId(ids).value);
    }
  }

  lemma FieldsExactly(s: Store, r: Request)
    requires r.CreateChannel?
    ensures CheckFields(s, r).Ok? <==>
              && TrimSpace(r.key) != ""
              && Authorize(s, r.userId, r.platformId).Ok?
              && var (p, g) := Authorize(s, r.userId, r.platformId).value;
                 && p.GroupForType(r.kind).Some?
                 && Upload(ChannelInput(r.kind, Split(r.models, ','), p.GroupForType(r.kind).value.name),
                           p, Some(g)).Ok?
    ensures CheckFields(s, r).Ok? ==>
              CheckFields(s, r).value.0 == Authorize(s, r.userId, r.platformId).value.1
  {
  }

  // An upload is accepted exactly when there is a key, the supplier is authorized, a
  // group is configured for the type, type, models and group satisfy the set rules, the
  // pair is below its cap, and no live row of the pair has the key's fingerprint.
  lemma UploadAcceptedExactly(v: Vault, s: Store, r: Request)
    requires r.CreateChannel?
    ensures CheckUpload(v, s, r).Ok? <==>
              && TrimSpace(r.key) != ""
              && Authorize(s, r.userId, r.platformId).Ok?
              && var (p, g) := Authorize(s, r.userId, r.platformId).value;
                 && p.GroupForType(r.kind).Some?
                 && r.kind in SUPPORTED_TYPES && TypePermitted(p, Some(g), r.kind)
                 && (exists x :: x in Split(r.models, ',') && TrimSpace(x) != "")
                 && (forall x :: x in Split(r.models, ',') && TrimSpace(x) != "" ==>
                       ModelPermitted(p, Some(g), TrimSpace(x)))
                 && GroupPermitted(p, Some(g), TrimSpace(p.GroupForType(r.kind).value.name))
                 && (g.maxChannels > 0 ==> |LivePair(s.channels, r.userId, r.platformId)| < g.maxChannels)
                 && forall i :: Live(s.channels, i) && s.channels[i].userId == r.userId
                                && s.channels[i].platformId == r.platformId ==>
                      s.channels[i].fingerprint != v.digest(Utf8(r.key))
  {
    FieldsExactly(s, r);
    NoLiveDuplicate(s.channels, r.userId, r.platformId, v.digest(Utf8(r.key)));
    if Authorize(s, r.userId, r.platformId).Ok? {
      var (p, g) := Authorize(s, r.userId, r.platformId).value;
      if p.GroupForType(r.kind).Some? {
        UploadExact(ChannelInput(r.kind, Split(r.models, ','), p.GroupForType(r.kind).value.name), p, Some(g));
      }
    }
  }

  lemma NoLiveDuplicate(rows: Rows, userId: int, platformId: int, fingerprint: string)
    ensures !FingerprintExists(rows, userId, platformId, fingerprint) <==>
              forall i :: Live(rows, i) && rows[i].userId == userId && rows[i].platformId == platformId ==>
                rows[i].fingerprint != fingerprint
  {
    if i :| Live(rows, i) && rows[i].userId == userId && rows[i].platformId == platformId
            && rows[i].fingerprint == fingerprint {
      assert i in LivePair(rows, userId, platformId);
    }
  }

  // --- What an accepted upload stores ---

  // The row holds what was asked for: owner, platform, type, normalised models, the group
  // the platform binds to the type, and the key, sealed; and nothing has happened to it.
  ghost predicate FreshlyStored(v: Vault, s: Store, r: Request, c: Channel)
    requires r.CreateChannel?
  {
    && c.userId == r.userId && c.platformId == r.platformId && c.kind == r.kind
    && c.models == StoredCsv(r.models) && c.models != ""
    && r.platformId in s.platforms && s.platforms[r.platformId].GroupForType(r.kind).Some?
    && c.group == TrimSpace(s.platforms[r.platformId].GroupForType(r.kind).value.name)
    && v.Open(c.encKey) == Ok(Utf8(r.key)) && c.fingerprint == v.digest(Utf8(r.key)) && c.last4 == Last4(Utf8(r.key))
    && c.keyState == Pending && c.syncStatus == 0 && c.syncError == "" && c.syncAttempts == 0
    && c.remoteId == 0 && c.lastSyncTime == 0 && c.usedQuota == 0 && c.usageSyncTime == 0
    && c.baseUrl == "" && c.status == ChannelRows.STATUS_ENABLED && !c.deleted
    && c.createdTime == r.now && c.updatedTime == r.now
  }

  // A system-generated name for the row: the platform's prefix, the uploader, the group and
  // a number above the pair's row count, within the probes.
  ghost predicate NamedFor(s: Store, r: Request, group: string, name: string)
    requires r.CreateChannel? && r.platformId in s.platforms
  {
    var count := |PairRows(s.channels, r.userId, r.platformId)|;
    exists n: nat :: count < n <= count + 1000
                     && name == FullName(s.platforms[r.platformId].namePrefix, r.username, group, n)
  }

  lemma NewRowStored(v: Vault, s: Store, r: Request, a: Accepted)
    requires v.Sound() && r.CreateChannel? && |r.nonce| == NONCE_SIZE
    requires r.platformId in s.platforms && s.platforms[r.platformId].GroupForType(r.kind).Some?
    requires a.modelsCsv == StoredCsv(r.models) && a.modelsCsv != ""
    requires a.group == TrimSpace(s.platforms[r.platformId].GroupForType(r.kind).value.name)
    ensures FreshlyStored(v, s, r, NewRow(v, s, r, a))
  {
    v.OpenSeal(r.nonce, Utf8(r.key));
  }

  // The name probed, whichever it is.
  lemma GeneratedIsName(plan: Plan, taken: set<string>) returns (n: nat)
    ensures plan.first <= n < plan.first + 1000
    ensures plan.Generated(taken) == FullName(plan.prefix, plan.username, plan.group, n)
  {
    var i := FirstFree(taken, plan.Builder(), 0);
    if i == PROBES {
      i := 0;
    }
    assert plan.Builder()(i) == plan.Name(i);
    n := plan.first + i;
    BuildText(plan.prefix, plan.username, plan.group, n);
  }

  lemma NewRowName(v: Vault, s: Store, r: Request, a: Accepted)
    requires r.CreateChannel? && r.platformId in s.platforms
    ensures var prefix := s.platforms[r.platformId].namePrefix;
            var plan := NamingPlan(s, r.userId, r.username, r.platformId, prefix, a.group);
            NewRow(v, s, r, a).name == plan.Generated(PairNames(s.channels, r.userId, r.platformId))
  {
  }

  lemma NewRowNamed(v: Vault, s: Store, r: Request, a: Accepted)
    requires r.CreateChannel? && r.platformId in s.platforms
    ensures NamedFor(s, r, a.group, NewRow(v, s, r, a).name)
  {
    var plan := NamingPlan(s, r.userId, r.username, r.platformId, s.platforms[r.platformId].namePrefix, a.group);
    NewRowName(v, s, r, a);
    var n := GeneratedIsName(plan, PairNames(s.channels, r.userId, r.platformId));
  }

  lemma AuthorizedPlatform(s: Store, userId: int, platformId: int)
    requires Authorize(s, userId, platformId).Ok?
    ensures platformId in s.platforms && Authorize(s, userId, platformId).value.0 == s.platforms[platformId]
  {
  }

  // What the field checks hand on.
  lemma FieldsGive(s: Store, r: Request)
    requires r.CreateChannel? && CheckFields(s, r).Ok?
    ensures Authorize(s, r.userId, r.platformId).Ok?
    ensures var (p, g) := Authorize(s, r.userId, r.platformId).value;
            && p.GroupForType(r.kind).Some?
            && CheckFields(s, r).value.1
               == Accepted(StoredCsv(r.models), TrimSpace(p.GroupForType(r.kind).value.name))
            && Normalized(Split(r.models, ',')) != []
  {
    FieldsExactly(s, r);
    var (p, g) := Authorize(s, r.userId, r.platformId).value;
    UploadStores(ChannelInput(r.kind, Split(r.models, ','), p.GroupForType(r.kind).value.name), p, Some(g));
  }

  lemma AcceptedAs(v: Vault, s: Store, r: Request)
    requires Inserts(v, s, r)
    ensures var a := CheckUpload(v, s, r).value;
            && r.platformId in s.platforms && s.platforms[r.platformId].GroupForType(r.kind).Some?
            && a.modelsCsv == StoredCsv(r.models) && a.modelsCsv != ""
            && a.group == TrimSpace(s.platforms[r.platformId].GroupForType(r.kind).value.name)
  {
    AcceptedFields(v, s, r);
    FieldsGive(s, r);
    AuthorizedPlatform(s, r.userId, r.platformId);
    StoredNonEmpty(r.models);
  }

  // One row comes in under an id no row had, and that id is the one answered; every other
  // row and table is as it was.
  ghost predicate OneRowIn(s: Store, s': Store, resp: Response) {
    var id := s.nextChannel;
    && resp == Uploaded(id, Pending, 0)
    && s' == s.(channels := s'.channels, nextChannel := id + 1)
    && id !in s.channels && s'.channels.Keys == s.channels.Keys + {id}
    && (forall i :: i in s.channels ==> s'.channels[i] == s.channels[i])
  }

  lemma InsertIsOneRow(s: Store, row: Channel)
    requires IdsIntact(s) && row.keyState == Pending && row.syncStatus == 0
    ensures OneRowIn(s, InsertRow(s, row).0, InsertRow(s, row).1)
    ensures InsertRow(s, row).0.channels[s.nextChannel] == row
  {
  }

  lemma CreateInserts(v: Vault, s: Store, r: Request)
    requires Inserts(v, s, r)
    ensures r.platformId in s.platforms
    ensures DoCreateChannel(v, s, r) == InsertRow(s, NewRow(v, s, r, CheckUpload(v, s, r).value))
  {
    AcceptedPlatform(v, s, r);
  }

  // An accepted upload brings in exactly the row asked for, under a system-generated name.
  lemma UploadEffect(v: Vault, s: Store, r: Request)
    requires v.Sound() && Inserts(v, s, r) && |r.nonce| == NONCE_SIZE && IdsIntact(s)
    ensures var (s', resp) := DoCreateChannel(v, s, r);
            && OneRowIn(s, s', resp)
            && FreshlyStored(v, s, r, s'.channels[s.nextChannel])
            && NamedFor(s, r, s'.channels[s.nextChannel].group, s'.channels[s.nextChannel].name)
  {
    AcceptedAs(v, s, r);
    var a := CheckUpload(v, s, r).value;
    NewRowStored(v, s, r, a);
    NewRowNamed(v, s, r, a);
    CreateInserts(v, s, r);
    InsertIsOneRow(s, NewRow(v, s, r, a));
  }

  // Over whole runs the number in the name is exactly the rank of the row within its pair.
  lemma UploadedName(v: Vault, rs: seq<Request>, r: Request)
    requires Inserts(v, Serve(v, Empty, rs), r)
    ensures var s := Serve(v, Empty, rs);
            && r.platformId in s.platforms
            && var row := NewRow(v, s, r, CheckUpload(v, s, r).value);
               row.name == FullName(s.platforms[r.platformId].namePrefix, r.username, row.group,
                                    |PairRows(s.channels, r.userId, r.platformId)| + 1)
  {
    var s := Serve(v, Empty, rs);
    NumberedRun(v, Empty, rs);
    AcceptedPlatform(v, s, r);
    RankedName(s, r, CheckUpload(v, s, r).value.group);
  }

  lemma RankedName(s: Store, r: Request, group: string)
    requires Numbered(s.channels) && r.CreateChannel? && r.platformId in s.platforms
    ensures var prefix := s.platforms[r.platformId].namePrefix;
            var plan := NamingPlan(s, r.userId, r.username, r.platformId, prefix, group);
            plan.Generated(PairNames(s.channels, r.userId, r.platformId))
            == FullName(prefix, r.username, group, |PairRows(s.channels, r.userId, r.platformId)| + 1)
  {
    var prefix := s.platforms[r.platformId].namePrefix;
    FirstProbeIsFree(s, r.userId, r.username, r.platformId, prefix, group);
    BuildText(prefix, r.username, group, |PairRows(s.channels, r.userId, r.platformId)| + 1);
  }

  // --- Updates, deletes and usage ---

  // The columns of a row's secret.
  predicate SameSecret(a: Channel, b: Channel) {
    && a.encKey == b.encKey && a.fingerprint == b.fingerprint && a.last4 == b.last4
    && a.keyState == b.keyState && a.syncAttempts == b.syncAttempts
  }

  // Apart from metadata, secret, sync status and update time a row stays as it is.
  predicate SameOutsideUpdate(a: Channel, b: Channel) {
    b.(models := a.models, group := a.group, baseUrl := a.baseUrl, syncStatus := a.syncStatus,
       updatedTime := a.updatedTime, encKey := a.encKey, fingerprint := a.fingerprint, last4 := a.last4,
       keyState := a.keyState, syncAttempts := a.syncAttempts) == a
  }

  // The group the row's platform now binds to its type, or the row's own when none is.
  function BoundGroup(s: Store, c: Channel): string
    requires c.platformId in s.platforms
  {
    match s.platforms[c.platformId].GroupForType(c.kind)
    case Some(g) => TrimSpace(g.name)
    case None => TrimSpace(c.group)
  }

  // An accepted update normalises the models asked for, or keeps the row's own, re-resolves
  // the group and clears the base URL; a key in the request replaces the secret by one that
  // opens to it and may be tried anew, and no key leaves the secret alone. The row needs a
  // new sync either way.
  ghost predicate UpdateDone(v: Vault, s: Store, b: Rows, r: Request)
    requires r.UpdateChannel?
  {
    && Live(s.channels, r.id) && OnlyRow(s.channels, b, r.id)
    && var c, c' := s.channels[r.id], b[r.id];
       && SameOutsideUpdate(c, c') && c'.syncStatus == 0 && c'.updatedTime == r.now && c'.baseUrl == ""
       && c'.models == StoredCsv(if r.models != "" then r.models else c.models) && c'.models != ""
       && c.platformId in s.platforms && c'.group == BoundGroup(s, c)
       && if TrimSpace(r.key) != "" then
            && v.Open(c'.encKey) == Ok(Utf8(r.key)) && c'.HasRecoverableKey() && c'.keyState == Pending
            && c'.fingerprint == v.digest(Utf8(r.key)) && c'.last4 == Last4(Utf8(r.key)) && c'.syncAttempts == 0
          else SameSecret(c, c')
  }

  lemma UpdatedRowsDone(v: Vault, s: Store, r: Request, a: Accepted)
    requires v.Sound() && r.UpdateChannel? && |r.nonce| == NONCE_SIZE && Live(s.channels, r.id)
    requires a.modelsCsv == StoredCsv(if r.models != "" then r.models else s.channels[r.id].models)
    requires a.modelsCsv != "" && s.channels[r.id].platformId in s.platforms
    requires a.group == BoundGroup(s, s.channels[r.id])
    ensures UpdateDone(v, s, UpdatedRows(v, s, r, a), r)
  {
    v.OpenSeal(r.nonce, Utf8(r.key));
  }

  lemma UpdateGroup(s: Store, r: Request)
    requires r.UpdateChannel? && CheckUpdate(s, r).Ok?
    ensures var c := s.channels[r.id];
            c.platformId in s.platforms && CheckUpdate(s, r).value.group == BoundGroup(s, c)
  {
    var c := s.channels[r.id];
    var (p, g) := Authorize(s, r.userId, c.platformId).value;
    var group := match p.GroupForType(c.kind) case Some(bound) => bound.name case None => c.group;
    UploadStores(ChannelInput(c.kind, Split(if r.models != "" then r.models else c.models, ','), group), p, Some(g));
  }

  lemma UpdateEffect(v: Vault, s: Store, r: Request)
    requires v.Sound() && r.UpdateChannel? && |r.nonce| == NONCE_SIZE
    ensures var (s', resp) := DoUpdateChannel(v, s, r);
            && (resp == Done(r.id) <==> CheckUpdate(s, r).Ok?)
            && (resp.Done? ==> resp == Done(r.id))
            && (resp.Done? ==> s' == s.(channels := s'.channels) && UpdateDone(v, s, s'.channels, r))
            && (!resp.Done? ==> s' == s)
  {
    RefusedUpdateIsError(s, r);
    if CheckUpdate(s, r).Ok? {
      UpdateCsv(s, r);
      UpdateGroup(s, r);
      UpdatedRowsDone(v, s, r, CheckUpdate(s, r).value);
    }
  }

  lemma RefusedUpdateIsError(s: Store, r: Request)
    requires r.UpdateChannel?
    ensures CheckUpdate(s, r).Err? ==> CheckUpdate(s, r).error.Fail? || CheckUpdate(s, r).error.Rejected?
    ensures CheckUpdate(s, r).Ok? ==> OwnedLive(s, r.userId, r.id)
  {
  }

  // A supplier deletes exactly their own live channels. The row stays, with every column
  // but the flag, and a second delete finds nothing.
  lemma DeleteChannelEffect(s: Store, userId: int, id: int)
    ensures var (s', resp) := DoDeleteChannel(s, userId, id);
            && (resp == Done(id) <==> OwnedLive(s, userId, id))
            && s' == s.(channels := s'.channels) && OnlyRow(s.channels, s'.channels, id)
            && (resp == Done(id) ==> s'.channels[id] == s.channels[id].(deleted := true))
            && (resp != Done(id) ==> s' == s)
            && DoDeleteChannel(s', userId, id) == (s', Fail(404, "channel not found"))
  {
  }

  // A usage refresh answers with AGT's number exactly for a published live channel of the
  // caller on an existing platform, stores that number, and touches no other column.
  lemma RefreshUsageEffect(s: Store, r: Request)
    requires r.RefreshUsage?
    ensures var (s', resp) := DoRefreshUsage(s, r);
            && (resp.UsageOf? <==>
                  && OwnedLive(s, r.userId, r.id) && s.channels[r.id].remoteId != 0 && r.answer.Ok?
                  && s.channels[r.id].platformId != 0 && s.channels[r.id].platformId in s.platforms)
            && s' == s.(channels := s'.channels) && OnlyRow(s.channels, s'.channels, r.id)
            && (resp.UsageOf? ==> s'.channels[r.id].usedQuota == r.answer.value == resp.quota)
            && (resp.UsageOf? ==>
                  var c := s.channels[r.id];
                  s'.channels[r.id].(usedQuota := c.usedQuota, usageSyncTime := c.usageSyncTime) == c)
            && (!resp.UsageOf? ==> s' == s)
  {
  }
}
