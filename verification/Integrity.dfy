// What every request keeps: references, names and model columns.
module Integrity {
  import opened Prelude
  import opened Text
  import opened Decimal
  import opened Vaults
  import opened Catalog
  import opened Whitelist
  import opened ChannelRows
  import opened Names
  import opened Registry
  import P = Protocol

  // --- How a request changes the channel table ---

  // Columns no request changes once a row exists; deletion is final.
  predicate SameIdentity(a: Channel, b: Channel) {
    && a.userId == b.userId && a.platformId == b.platformId && a.name == b.name && a.kind == b.kind
    && (a.deleted ==> b.deleted)
  }

  ghost predicate TableEvolves(s: Store, s': Store) {
    && s'.channels.Keys == s.channels.Keys && s'.nextChannel == s.nextChannel
    && forall i :: i in s.channels ==> SameIdentity(s.channels[i], s'.channels[i])
  }

  // What a request may do to columns that only uploads and updates write.
  ghost predicate SameContent(s: Store, s': Store) {
    forall i :: i in s.channels ==>
      i in s'.channels && s'.channels[i].models == s.channels[i].models
      && s'.channels[i].fingerprint == s.channels[i].fingerprint
  }

  predicate Inserts(v: Vault, s: Store, r: Request) { r.CreateChannel? && CheckUpload(v, s, r).Ok? }

  // --- The store after each kind of request ---

  lemma ReadsAfter(v: Vault, s: Store, r: Request)
    requires r.ListChannels? || r.ResyncChannel?
    ensures After(v, s, r) == s
  {
  }

  lemma RefusedUpload(v: Vault, s: Store, r: Request)
    requires r.CreateChannel? && !Inserts(v, s, r)
    ensures After(v, s, r) == s && Handle(v, s, r).1 == CheckUpload(v, s, r).error
  {
  }

  lemma AcceptedFields(v: Vault, s: Store, r: Request)
    requires r.CreateChannel? && CheckUpload(v, s, r).Ok?
    ensures CheckFields(s, r).Ok? && CheckFields(s, r).value.1 == CheckUpload(v, s, r).value
  {
  }

  lemma AcceptedPlatform(v: Vault, s: Store, r: Request)
    requires r.CreateChannel? && CheckUpload(v, s, r).Ok?
    ensures r.platformId in s.platforms
  {
    AcceptedFields(v, s, r);
    assert Authorize(s, r.userId, r.platformId).Ok?;
  }

  // The insert of an accepted upload.
  lemma InsertTable(v: Vault, s: Store, r: Request)
    requires Inserts(v, s, r)
    ensures r.platformId in s.platforms
    ensures After(v, s, r) == InsertRow(s, NewRow(v, s, r, CheckUpload(v, s, r).value)).0
  {
    AcceptedPlatform(v, s, r);
  }

  // The rows an accepted update leaves.
  lemma UpdateAfter(v: Vault, s: Store, r: Request)
    requires r.UpdateChannel? && CheckUpdate(s, r).Ok?
    ensures Live(s.channels, r.id)
    ensures After(v, s, r) == s.(channels := UpdatedRows(v, s, r, CheckUpdate(s, r).value))
  {
  }

  lemma RefusedUpdate(v: Vault, s: Store, r: Request)
    requires r.UpdateChannel? && CheckUpdate(s, r).Err?
    ensures After(v, s, r) == s
  {
  }

  lemma DeleteAfter(v: Vault, s: Store, r: Request)
    requires r.DeleteChannel?
    ensures After(v, s, r) ==
            s.(channels := if OwnedLive(s, r.userId, r.id) then SoftDelete(s.channels, r.id) else s.channels)
  {
  }

  lemma UsageAfter(v: Vault, s: Store, r: Request)
    requires r.RefreshUsage?
    ensures After(v, s, r) ==
            s.(channels := if DoRefreshUsage(s, r).1.UsageOf? then SetUsage(s.channels, r.id, r.answer.value, r.now)
                           else s.channels)
    ensures DoRefreshUsage(s, r).1.UsageOf? ==> r.answer.Ok?
  {
  }

  lemma MarkAfter(v: Vault, s: Store, r: Request)
    requires r.SyncMark?
    ensures After(v, s, r) == s.(channels := P.MarkRows(s.channels, r.id, r.mark, r.now))
  {
  }

  lemma AdminAfter(v: Vault, s: Store, r: Request)
    requires FromAdmin(r)
    ensures After(v, s, r) == HandleAdmin(s, r).0
  {
  }

  // Apart from the deletion of a user, admin requests leave the channel table alone.
  lemma UsersKeepRows(s: Store, r: Request)
    requires r.CreateUser? || r.UpdateUser?
    ensures HandleAdmin(s, r).0.channels == s.channels && HandleAdmin(s, r).0.nextChannel == s.nextChannel
  {
  }

  lemma PlatformsKeepRows(s: Store, r: Request)
    requires r.CreatePlatform? || r.UpdatePlatform?
    ensures HandleAdmin(s, r).0.channels == s.channels && HandleAdmin(s, r).0.nextChannel == s.nextChannel
  {
  }

  lemma PlatformDeletionKeepsRows(s: Store, id: int, stop: nat)
    ensures DoDeletePlatform(s, id, stop).0.channels == s.channels
    ensures DoDeletePlatform(s, id, stop).0.nextChannel == s.nextChannel
  {
  }

  lemma UpsertKeepsRows(s: Store, newId: int, g: Grant)
    ensures DoUpsertGrant(s, newId, g).0.channels == s.channels
    ensures DoUpsertGrant(s, newId, g).0.nextChannel == s.nextChannel
  {
  }

  lemma AdminKeepsRows(v: Vault, s: Store, r: Request)
    requires FromAdmin(r) && !r.DeleteUser?
    ensures After(v, s, r).channels == s.channels && After(v, s, r).nextChannel == s.nextChannel
  {
    AdminAfter(v, s, r);
    if r.CreateUser? || r.UpdateUser? {
      UsersKeepRows(s, r);
    } else if r.CreatePlatform? || r.UpdatePlatform? {
      PlatformsKeepRows(s, r);
    } else if r.DeletePlatform? {
      PlatformDeletionKeepsRows(s, r.id, r.stop);
    } else if r.UpsertGrant? {
      UpsertKeepsRows(s, r.newId, r.grant);
    }
  }

  // --- How the statements change the table ---

  lemma UpdatedTable(v: Vault, s: Store, r: Request, a: Accepted)
    requires r.UpdateChannel? && r.id in s.channels
    ensures TableEvolves(s, s.(channels := UpdatedRows(v, s, r, a)))
  {
  }

  // A statement that changes one row, and neither its identity nor its content.
  lemma OneRowTable(s: Store, rows': Rows, id: int)
    requires OnlyRow(s.channels, rows', id)
    requires id in s.channels ==>
               && SameIdentity(s.channels[id], rows'[id])
               && rows'[id].models == s.channels[id].models && rows'[id].fingerprint == s.channels[id].fingerprint
    ensures var s1 := s.(channels := rows'); TableEvolves(s, s1) && SameContent(s, s1)
  {
  }

  lemma CascadeTable(s: Store, id: int, stop: nat)
    ensures TableEvolves(s, DoDeleteUser(s, id, stop))
    ensures SameContent(s, DoDeleteUser(s, id, stop))
  {
  }

  // Everything but an upload and an update leaves content alone.
  lemma OtherTable(v: Vault, s: Store, r: Request)
    requires !r.CreateChannel? && !r.UpdateChannel?
    ensures TableEvolves(s, After(v, s, r)) && SameContent(s, After(v, s, r))
  {
    if FromAdmin(r) {
      if r.DeleteUser? {
        AdminAfter(v, s, r);
        CascadeTable(s, r.id, r.stop);
      } else {
        AdminKeepsRows(v, s, r);
      }
    } else if r.ListChannels? || r.ResyncChannel? {
      ReadsAfter(v, s, r);
    } else {
      StatementAfter(v, s, r);
    }
  }

  lemma StatementAfter(v: Vault, s: Store, r: Request)
    requires r.DeleteChannel? || r.RefreshUsage? || r.SyncMark?
    ensures TableEvolves(s, After(v, s, r)) && SameContent(s, After(v, s, r))
  {
    if r.DeleteChannel? {
      DeleteAfter(v, s, r);
      OneRowTable(s, After(v, s, r).channels, r.id);
    } else if r.RefreshUsage? {
      UsageAfter(v, s, r);
      OneRowTable(s, After(v, s, r).channels, r.id);
    } else {
      MarkAfter(v, s, r);
      OneRowTable(s, After(v, s, r).channels, r.id);
    }
  }

  lemma TableStep(v: Vault, s: Store, r: Request)
    requires !Inserts(v, s, r)
    ensures TableEvolves(s, After(v, s, r))
  {
    if r.CreateChannel? {
      RefusedUpload(v, s, r);
    } else if r.UpdateChannel? {
      if CheckUpdate(s, r).Ok? {
        UpdateAfter(v, s, r);
        UpdatedTable(v, s, r, CheckUpdate(s, r).value);
      } else {
        RefusedUpdate(v, s, r);
      }
    } else {
      OtherTable(v, s, r);
    }
  }

  // --- References ---

  ghost predicate OnePerPair(s: Store) {
    forall i, j :: i in s.grants && j in s.grants && i != j ==>
      (s.grants[i].userId, s.grants[i].platformId) != (s.grants[j].userId, s.grants[j].platformId)
  }

  ghost predicate GrantsIntact(s: Store) {
    && (forall i :: i in s.grants ==> s.grants[i].userId in s.users && s.grants[i].platformId in s.platforms)
    && OnePerPair(s)
  }

  ghost predicate ChannelsIntact(s: Store) {
    forall i :: i in s.channels && !s.channels[i].deleted ==>
      s.channels[i].userId in s.users && s.channels[i].platformId in s.platforms
  }

  ghost predicate IdsIntact(s: Store) {
    0 < s.nextChannel && forall i :: i in s.channels ==> 0 < i < s.nextChannel
  }

  ghost predicate Intact(s: Store) { GrantsIntact(s) && ChannelsIntact(s) && IdsIntact(s) }

  lemma UpsertGrants(s: Store, newId: int, g: Grant)
    requires GrantsIntact(s)
    ensures GrantsIntact(DoUpsertGrant(s, newId, g).0)
  {
    if CheckGrant(s, g).None? {
      var ids := GrantIds(s, g.userId, g.platformId);
      assert forall i :: i in s.grants && i !in ids ==>
               (s.grants[i].userId, s.grants[i].platformId) != (g.userId, g.platformId);
      if FirstId(ids).Some? {
        assert FirstId(ids).value in ids;
      }
    }
  }

  lemma DeleteUserGrants(s: Store, id: int, stop: nat)
    requires GrantsIntact(s)
    ensures GrantsIntact(DoDeleteUser(s, id, stop))
  {
  }

  lemma DeletePlatformGrants(s: Store, id: int, stop: nat)
    requires GrantsIntact(s)
    ensures GrantsIntact(DoDeletePlatform(s, id, stop).0)
  {
  }

  ghost predicate GrantsShrink(s: Store, s': Store) {
    forall i :: i in s'.grants ==> i in s.grants && s'.grants[i] == s.grants[i]
  }

  // Suppliers and syncs write channels only.
  lemma SupplierKeepsCatalog(v: Vault, s: Store, r: Request)
    requires !FromAdmin(r)
    ensures var s' := After(v, s, r); s'.users == s.users && s'.platforms == s.platforms && s'.grants == s.grants
  {
    if r.ListChannels? || r.ResyncChannel? {
      ReadsAfter(v, s, r);
    } else if r.CreateChannel? {
      if Inserts(v, s, r) { InsertTable(v, s, r); } else { RefusedUpload(v, s, r); }
    } else if r.UpdateChannel? {
      if CheckUpdate(s, r).Ok? { UpdateAfter(v, s, r); } else { RefusedUpdate(v, s, r); }
    } else if r.DeleteChannel? {
      DeleteAfter(v, s, r);
    } else if r.RefreshUsage? {
      UsageAfter(v, s, r);
    } else {
      MarkAfter(v, s, r);
    }
  }

  lemma UserRequests(s: Store, r: Request)
    requires r.CreateUser? || r.UpdateUser?
    ensures var s' := HandleAdmin(s, r).0;
            s.users.Keys <= s'.users.Keys && s'.platforms == s.platforms && s'.grants == s.grants
  {
  }

  lemma PlatformRequests(s: Store, r: Request)
    requires r.CreatePlatform? || r.UpdatePlatform?
    ensures var s' := HandleAdmin(s, r).0;
            s'.users == s.users && s.platforms.Keys <= s'.platforms.Keys && s'.grants == s.grants
  {
  }

  // Apart from grant writes and the two cascades, grants only go away and users and
  // platforms only come.
  lemma CatalogGrows(v: Vault, s: Store, r: Request)
    requires !r.UpsertGrant? && !r.DeleteUser? && !r.DeletePlatform?
    ensures var s' := After(v, s, r);
            GrantsShrink(s, s') && s.users.Keys <= s'.users.Keys && s.platforms.Keys <= s'.platforms.Keys
  {
    if FromAdmin(r) {
      AdminAfter(v, s, r);
      if r.CreateUser? || r.UpdateUser? {
        UserRequests(s, r);
      } else if r.CreatePlatform? || r.UpdatePlatform? {
        PlatformRequests(s, r);
      }
    } else {
      SupplierKeepsCatalog(v, s, r);
    }
  }

  lemma ShrunkGrants(s: Store, s': Store)
    requires GrantsIntact(s) && GrantsShrink(s, s')
    requires s.users.Keys <= s'.users.Keys && s.platforms.Keys <= s'.platforms.Keys
    ensures GrantsIntact(s')
  {
  }

  lemma GrantsStep(v: Vault, s: Store, r: Request)
    requires GrantsIntact(s)
    ensures GrantsIntact(After(v, s, r))
  {
    if r.UpsertGrant? || r.DeleteUser? || r.DeletePlatform? {
      AdminAfter(v, s, r);
      if r.UpsertGrant? {
        UpsertGrants(s, r.newId, r.grant);
      } else if r.DeleteUser? {
        DeleteUserGrants(s, r.id, r.stop);
      } else {
        DeletePlatformGrants(s, r.id, r.stop);
      }
    } else {
      CatalogGrows(v, s, r);
      ShrunkGrants(s, After(v, s, r));
    }
  }

  // The owner of a new channel exists because a grant names it.
  lemma UploaderExists(v: Vault, s: Store, r: Request)
    requires GrantsIntact(s) && Inserts(v, s, r)
    ensures r.userId in s.users && r.platformId in s.platforms
    ensures exists i :: i in s.grants && s.grants[i].userId == r.userId && s.grants[i].platformId == r.platformId
                        && GetGrant(s, r.userId, r.platformId) == Some(s.grants[i])
  {
    var ids := EnabledGrantIds(s, r.userId, r.platformId);
    var i := FirstId(ids).value;
    assert i in ids && i in s.grants;
  }

  lemma DeleteUserChannels(s: Store, id: int, stop: nat)
    requires ChannelsIntact(s)
    ensures ChannelsIntact(DoDeleteUser(s, id, stop))
  {
  }

  lemma DeletePlatformChannels(s: Store, id: int, stop: nat)
    requires ChannelsIntact(s)
    ensures ChannelsIntact(DoDeletePlatform(s, id, stop).0)
  {
    if !PlatformInUse(s, id) {
      assert forall i :: i in s.channels && !s.channels[i].deleted ==>
               s.channels[i].platformId == id ==> i in Referring(s.channels, id);
    }
  }

  lemma InsertChannels(v: Vault, s: Store, r: Request)
    requires Intact(s) && Inserts(v, s, r)
    ensures ChannelsIntact(After(v, s, r)) && IdsIntact(After(v, s, r))
  {
    UploaderExists(v, s, r);
    InsertTable(v, s, r);
    RowIntact(s, After(v, s, r), s.nextChannel, NewRow(v, s, r, CheckUpload(v, s, r).value));
  }

  lemma RowIntact(s: Store, s': Store, n: int, row: Channel)
    requires ChannelsIntact(s) && IdsIntact(s) && n == s.nextChannel
    requires s' == s.(channels := s.channels[n := row], nextChannel := n + 1)
    requires row.userId in s.users && row.platformId in s.platforms
    ensures ChannelsIntact(s') && IdsIntact(s')
  {
  }

  // A table that only evolves stays intact while users and platforms do not shrink.
  lemma EvolvedChannels(s: Store, s': Store)
    requires ChannelsIntact(s) && TableEvolves(s, s')
    requires s.users.Keys <= s'.users.Keys && s.platforms.Keys <= s'.platforms.Keys
    ensures ChannelsIntact(s')
  {
  }

  lemma EvolvedIds(s: Store, s': Store)
    requires IdsIntact(s) && TableEvolves(s, s')
    ensures IdsIntact(s')
  {
  }

  lemma AdminChannels(s: Store, r: Request)
    requires ChannelsIntact(s) && (r.DeleteUser? || r.DeletePlatform? || r.UpsertGrant?)
    ensures ChannelsIntact(HandleAdmin(s, r).0)
  {
    if r.DeleteUser? {
      DeleteUserChannels(s, r.id, r.stop);
    } else if r.DeletePlatform? {
      DeletePlatformChannels(s, r.id, r.stop);
    } else {
      UpsertKeepsRows(s, r.newId, r.grant);
      UpsertKeepsCatalog(s, r.newId, r.grant);
    }
  }

  lemma UpsertKeepsCatalog(s: Store, newId: int, g: Grant)
    ensures DoUpsertGrant(s, newId, g).0.users == s.users && DoUpsertGrant(s, newId, g).0.platforms == s.platforms
  {
  }

  lemma ChannelsStep(v: Vault, s: Store, r: Request)
    requires Intact(s)
    ensures ChannelsIntact(After(v, s, r)) && IdsIntact(After(v, s, r))
  {
    if Inserts(v, s, r) {
      InsertChannels(v, s, r);
    } else {
      TableStep(v, s, r);
      EvolvedIds(s, After(v, s, r));
      if r.DeleteUser? || r.DeletePlatform? || r.UpsertGrant? {
        AdminAfter(v, s, r);
        AdminChannels(s, r);
      } else {
        CatalogGrows(v, s, r);
        EvolvedChannels(s, After(v, s, r));
      }
    }
  }

  lemma {:induction false} IntactRun(v: Vault, s: Store, rs: seq<Request>)
    requires Intact(s)
    ensures Intact(Serve(v, s, rs))
    decreases |rs|
  {
    if rs != [] {
      GrantsStep(v, s, rs[0]);
      ChannelsStep(v, s, rs[0]);
      IntactRun(v, After(v, s, rs[0]), rs[1..]);
    }
  }

  // Main theorem. In every run of requests, even when cascades stop after any prefix
  // of their statements: every grant's user and platform exist, a pair has at most
  // one grant, and every live channel's owner and platform exist.
  lemma ReferencesHold(v: Vault, rs: seq<Request>)
    ensures Intact(Serve(v, Empty, rs))
  {
    IntactRun(v, Empty, rs);
  }

  // --- Names ---

  // The rows of a row's pair created no later than it.
  function UpTo(rows: Rows, i: int): set<int>
    requires i in rows
  {
    set j | j in PairRows(rows, rows[i].userId, rows[i].platformId) && j <= i
  }

  // A row's name carries its rank: the k-th row ever created for its pair has number k.
  ghost predicate Numbered(rows: Rows) {
    forall i :: i in rows ==> SeqOf(rows[i].name) == |UpTo(rows, i)|
  }

  lemma PairRowsFixed(rows: Rows, rows': Rows, userId: int, platformId: int)
    requires rows'.Keys == rows.Keys
    requires forall i :: i in rows ==> SameIdentity(rows[i], rows'[i])
    ensures PairRows(rows', userId, platformId) == PairRows(rows, userId, platformId)
  {
    forall i
      ensures i in PairRows(rows', userId, platformId) <==> i in PairRows(rows, userId, platformId)
    {
      assert i in rows.Keys <==> i in rows'.Keys;
    }
  }

  // In a numbered table no row of a pair carries a number above the pair's row count.
  lemma NumbersBounded(rows: Rows, userId: int, platformId: int, name: string)
    requires Numbered(rows) && name in PairNames(rows, userId, platformId)
    ensures SeqOf(name) <= |PairRows(rows, userId, platformId)|
  {
    var i :| i in PairRows(rows, userId, platformId) && rows[i].name == name;
    assert UpTo(rows, i) <= PairRows(rows, userId, platformId);
    SubsetSize(UpTo(rows, i), PairRows(rows, userId, platformId));
  }

  // So the first probe for a new row is free.
  lemma FirstProbeIsFree(s: Store, userId: int, username: string, platformId: int, prefix: string, group: string)
    requires Numbered(s.channels)
    ensures var plan := NamingPlan(s, userId, username, platformId, prefix, group);
            && plan.Generated(PairNames(s.channels, userId, platformId)) == plan.Name(0)
            && SeqOf(plan.Name(0)) == |PairRows(s.channels, userId, platformId)| + 1
  {
    var plan := NamingPlan(s, userId, username, platformId, prefix, group);
    plan.NumberOfName(0);
    if plan.Name(0) in PairNames(s.channels, userId, platformId) {
      NumbersBounded(s.channels, userId, platformId, plan.Name(0));
    }
    plan.FreeFirstName(PairNames(s.channels, userId, platformId));
  }

  // A new row with the highest id is the last of its own pair, and no other row notices.
  lemma UpToNew(rows: Rows, n: int, row: Channel)
    requires forall i :: i in rows ==> i < n
    ensures UpTo(rows[n := row], n) == PairRows(rows, row.userId, row.platformId) + {n}
  {
  }

  lemma UpToOther(rows: Rows, n: int, row: Channel, i: int)
    requires i in rows && i < n && n !in rows
    ensures UpTo(rows[n := row], i) == UpTo(rows, i)
  {
  }

  lemma NumberedInsert(rows: Rows, n: int, row: Channel)
    requires Numbered(rows) && forall i :: i in rows ==> i < n
    requires SeqOf(row.name) == |PairRows(rows, row.userId, row.platformId)| + 1
    ensures Numbered(rows[n := row])
  {
    var rows' := rows[n := row];
    UpToNew(rows, n, row);
    assert n !in PairRows(rows, row.userId, row.platformId);
    forall i | i in rows'
      ensures SeqOf(rows'[i].name) == |UpTo(rows', i)|
    {
      if i != n {
        UpToOther(rows, n, row, i);
      }
    }
  }

  lemma NumberedStep(v: Vault, s: Store, r: Request)
    requires IdsIntact(s) && Numbered(s.channels)
    ensures Numbered(After(v, s, r).channels)
  {
    var rows, rows' := s.channels, After(v, s, r).channels;
    if Inserts(v, s, r) {
      var a := CheckUpload(v, s, r).value;
      InsertTable(v, s, r);
      FirstProbeIsFree(s, r.userId, r.username, r.platformId, s.platforms[r.platformId].namePrefix, a.group);
      NumberedInsert(rows, s.nextChannel, NewRow(v, s, r, a));
    } else {
      TableStep(v, s, r);
      forall i | i in rows'
        ensures SeqOf(rows'[i].name) == |UpTo(rows', i)|
      {
        assert i in rows.Keys && SameIdentity(rows[i], rows'[i]);
        PairRowsFixed(rows, rows', rows[i].userId, rows[i].platformId);
        assert UpTo(rows', i) == UpTo(rows, i);
      }
    }
  }

  lemma {:induction false} NumberedRun(v: Vault, s: Store, rs: seq<Request>)
    requires Intact(s) && Numbered(s.channels)
    ensures Numbered(Serve(v, s, rs).channels)
    decreases |rs|
  {
    if rs != [] {
      GrantsStep(v, s, rs[0]);
      ChannelsStep(v, s, rs[0]);
      NumberedStep(v, s, rs[0]);
      NumberedRun(v, After(v, s, rs[0]), rs[1..]);
    }
  }

  // Main theorem. In every run the k-th row ever created for a pair is numbered k, so
  // two rows of a pair never share a name: not across changes of prefix, user name and
  // group, and not with soft-deleted rows.
  lemma NamesNeverRepeat(v: Vault, rs: seq<Request>)
    ensures var rows := Serve(v, Empty, rs).channels;
            && Numbered(rows)
            && forall i, j :: i in rows && j in rows && i != j
                              && rows[i].userId == rows[j].userId && rows[i].platformId == rows[j].platformId
                 ==> rows[i].name != rows[j].name
  {
    NumberedRun(v, Empty, rs);
    var rows := Serve(v, Empty, rs).channels;
    forall i, j | i in rows && j in rows && i < j
                  && rows[i].userId == rows[j].userId && rows[i].platformId == rows[j].platformId
      ensures rows[i].name != rows[j].name
    {
      assert UpTo(rows, i) <= UpTo(rows, j) - {j};
      assert j in UpTo(rows, j);
      SubsetSize(UpTo(rows, i), UpTo(rows, j) - {j});
      assert SeqOf(rows[i].name) == |UpTo(rows, i)|;
      assert SeqOf(rows[j].name) == |UpTo(rows, j)|;
    }
  }

  // Fewer than 1000 rows for the pair guarantee a name none of them has, whatever the
  // table holds.
  lemma SmallTableGetsFreshName(s: Store, userId: int, username: string, platformId: int, prefix: string, group: string)
    requires |PairRows(s.channels, userId, platformId)| < 1000
    ensures var taken := PairNames(s.channels, userId, platformId);
            NamingPlan(s, userId, username, platformId, prefix, group).Generated(taken) !in taken
  {
    NamesNoMoreThanRows(s.channels, PairRows(s.channels, userId, platformId));
    var plan := NamingPlan(s, userId, username, platformId, prefix, group);
    plan.GeneratedExact(PairNames(s.channels, userId, platformId));
  }

  lemma {:induction false} NamesNoMoreThanRows(rows: Rows, ids: set<int>)
    requires ids <= rows.Keys
    ensures |set i | i in ids :: rows[i].name| <= |ids|
    decreases |ids|
  {
    if ids != {} {
      var x := Pick(ids);
      NamesNoMoreThanRows(rows, ids - {x});
      assert (set i | i in ids :: rows[i].name) == (set i | i in ids - {x} :: rows[i].name) + {rows[x].name};
    }
  }

  // --- Stored model lists ---

  // Every stored model column is already normal.
  ghost predicate ModelsNormal(rows: Rows) {
    forall i :: i in rows ==> StoredCsv(rows[i].models) == rows[i].models && rows[i].models != ""
  }

  // An accepted model text is stored in normal form.
  lemma AcceptedCsv(kind: int, models: string, group: string, p: Platform, g: Option<Grant>)
    requires Upload(ChannelInput(kind, Split(models, ','), group), p, g).Ok?
    ensures var csv := Upload(ChannelInput(kind, Split(models, ','), group), p, g).value.modelsCsv;
            csv == StoredCsv(models) && StoredCsv(csv) == csv && csv != ""
  {
    UploadStores(ChannelInput(kind, Split(models, ','), group), p, g);
    ModelsFixedPoint(models);
    StoredNonEmpty(models);
  }

  lemma ModelsInsert(v: Vault, s: Store, r: Request)
    requires Inserts(v, s, r)
    ensures var csv := CheckUpload(v, s, r).value.modelsCsv; StoredCsv(csv) == csv && csv != ""
  {
    var (p, g) := Authorize(s, r.userId, r.platformId).value;
    AcceptedCsv(r.kind, r.models, p.GroupForType(r.kind).value.name, p, Some(g));
  }

  lemma UpdatedModels(v: Vault, s: Store, r: Request, a: Accepted)
    requires r.UpdateChannel? && Live(s.channels, r.id)
    ensures var rows' := UpdatedRows(v, s, r, a);
            && rows'.Keys == s.channels.Keys
            && forall i :: i in s.channels ==>
                 rows'[i].models == if i == r.id then a.modelsCsv else s.channels[i].models
  {
  }

  lemma UpdatedNormal(v: Vault, s: Store, r: Request, a: Accepted)
    requires ModelsNormal(s.channels) && r.UpdateChannel? && Live(s.channels, r.id)
    requires StoredCsv(a.modelsCsv) == a.modelsCsv && a.modelsCsv != ""
    ensures ModelsNormal(UpdatedRows(v, s, r, a))
  {
    UpdatedModels(v, s, r, a);
    assert forall i :: i in UpdatedRows(v, s, r, a) <==> i in s.channels.Keys;
  }

  lemma ModelsUpdate(v: Vault, s: Store, r: Request)
    requires ModelsNormal(s.channels) && r.UpdateChannel? && CheckUpdate(s, r).Ok?
    ensures ModelsNormal(After(v, s, r).channels)
  {
    UpdateAfter(v, s, r);
    UpdateCsv(s, r);
    UpdatedNormal(v, s, r, CheckUpdate(s, r).value);
  }

  lemma SameContentNormal(s: Store, s': Store)
    requires ModelsNormal(s.channels) && TableEvolves(s, s') && SameContent(s, s')
    ensures ModelsNormal(s'.channels)
  {
    assert forall i :: i in s'.channels <==> i in s.channels.Keys;
  }

  lemma InsertedNormal(rows: Rows, n: int, row: Channel)
    requires ModelsNormal(rows) && StoredCsv(row.models) == row.models && row.models != ""
    ensures ModelsNormal(rows[n := row])
  {
  }

  lemma ModelsStep(v: Vault, s: Store, r: Request)
    requires ModelsNormal(s.channels)
    ensures ModelsNormal(After(v, s, r).channels)
  {
    if Inserts(v, s, r) {
      ModelsInsert(v, s, r);
      InsertTable(v, s, r);
      InsertedNormal(s.channels, s.nextChannel, NewRow(v, s, r, CheckUpload(v, s, r).value));
    } else if r.CreateChannel? {
      RefusedUpload(v, s, r);
    } else if r.UpdateChannel? {
      if CheckUpdate(s, r).Ok? { ModelsUpdate(v, s, r); } else { RefusedUpdate(v, s, r); }
    } else {
      OtherTable(v, s, r);
      SameContentNormal(s, After(v, s, r));
    }
  }

  // What an accepted update stores as models: the request normalised, or, when the
  // request names none, exactly the column the row already had.
  lemma UpdateCsv(s: Store, r: Request)
    requires r.UpdateChannel? && CheckUpdate(s, r).Ok?
    ensures var csv := CheckUpdate(s, r).value.modelsCsv;
            && StoredCsv(csv) == csv && csv != ""
            && csv == StoredCsv(if r.models != "" then r.models else s.channels[r.id].models)
  {
    var c := s.channels[r.id];
    var (p, g) := Authorize(s, r.userId, c.platformId).value;
    var group := match p.GroupForType(c.kind) case Some(bound) => bound.name case None => c.group;
    AcceptedCsv(c.kind, if r.models != "" then r.models else c.models, group, p, Some(g));
  }

  lemma {:induction false} ModelsRun(v: Vault, s: Store, rs: seq<Request>)
    requires ModelsNormal(s.channels)
    ensures ModelsNormal(Serve(v, s, rs).channels)
    decreases |rs|
  {
    if rs != [] {
      ModelsStep(v, s, rs[0]);
      ModelsRun(v, After(v, s, rs[0]), rs[1..]);
    }
  }

  // Main theorem. After any run, an accepted update that names no models leaves the
  // stored model column as it was.
  lemma UpdateKeepsModels(v: Vault, rs: seq<Request>, r: Request)
    requires r.UpdateChannel? && r.models == ""
    ensures var s := Serve(v, Empty, rs);
            CheckUpdate(s, r).Ok? ==> After(v, s, r).channels[r.id].models == s.channels[r.id].models
  {
    ModelsRun(v, Empty, rs);
    var s := Serve(v, Empty, rs);
    if CheckUpdate(s, r).Ok? {
      UpdateAfter(v, s, r);
      UpdateCsv(s, r);
      UpdatedModels(v, s, r, CheckUpdate(s, r).value);
    }
  }
}
