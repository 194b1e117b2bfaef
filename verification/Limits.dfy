// The channel cap of a grant, and distinct keys within a pair.
module Limits {
  import opened Prelude
  import opened Text
  import opened Vaults
  import opened Catalog
  import opened Whitelist
  import opened ChannelRows
  import opened Registry
  import opened Integrity

  // --- The cap ---

  function LiveCount(s: Store, userId: int, platformId: int): nat { |LivePair(s.channels, userId, platformId)| }

  predicate GrantWithinCap(s: Store, g: Grant) {
    g.maxChannels > 0 ==> LiveCount(s, g.userId, g.platformId) <= g.maxChannels
  }

  // Every positive cap, of enabled and disabled grants alike, is respected.
  ghost predicate WithinCaps(s: Store) { forall i :: i in s.grants ==> GrantWithinCap(s, s.grants[i]) }

  // An accepted grant request whose positive cap is below the live count of its pair.
  predicate LowersCap(s: Store, r: Request) {
    && r.UpsertGrant?
    && CheckGrant(s, r.grant).None?
    && (GrantIds(s, r.grant.userId, r.grant.platformId) != {} || r.newId !in s.grants)
    && !GrantWithinCap(s, r.grant)
  }

  // Live rows of a pair only go away in a table that evolves.
  lemma LiveCountShrinks(s: Store, s': Store, userId: int, platformId: int)
    requires TableEvolves(s, s')
    ensures LiveCount(s', userId, platformId) <= LiveCount(s, userId, platformId)
  {
    var l, l' := LivePair(s.channels, userId, platformId), LivePair(s'.channels, userId, platformId);
    forall i | i in l'
      ensures i in l
    {
      assert i in s.channels.Keys && SameIdentity(s.channels[i], s'.channels[i]);
    }
    SubsetSize(l', l);
  }

  lemma ShrunkWithinCaps(s: Store, s': Store)
    requires WithinCaps(s) && TableEvolves(s, s') && GrantsShrink(s, s')
    ensures WithinCaps(s')
  {
    forall i | i in s'.grants
      ensures GrantWithinCap(s', s'.grants[i])
    {
      assert GrantWithinCap(s, s.grants[i]);
      LiveCountShrinks(s, s', s.grants[i].userId, s.grants[i].platformId);
    }
  }

  lemma CascadeGrantsShrink(s: Store, id: int, stop: nat)
    ensures GrantsShrink(s, DoDeleteUser(s, id, stop)) && GrantsShrink(s, DoDeletePlatform(s, id, stop).0)
  {
  }

  lemma UpsertCap(s: Store, newId: int, g: Grant)
    requires WithinCaps(s)
    ensures WithinCaps(DoUpsertGrant(s, newId, g).0) <==> !LowersCap(s, UpsertGrant(newId, g))
  {
    if CheckGrant(s, g).None? {
      var ids := GrantIds(s, g.userId, g.platformId);
      var s' := DoUpsertGrant(s, newId, g).0;
      if ids != {} || newId !in s.grants {
        var i := if ids != {} then FirstId(ids).value else newId;
        assert s'.channels == s.channels;
        assert s'.grants == s.grants[i := s'.grants[i]];
        assert GrantWithinCap(s', s'.grants[i]) <==> GrantWithinCap(s, g);
        forall j | j in s.grants && j != i
          ensures GrantWithinCap(s', s'.grants[j])
        {
          assert GrantWithinCap(s, s.grants[j]);
        }
      }
    }
  }

  lemma InsertedLive(s: Store, n: int, row: Channel, userId: int, platformId: int)
    requires n !in s.channels && !row.deleted
    ensures LivePair(s.channels[n := row], userId, platformId)
            == LivePair(s.channels, userId, platformId)
               + if row.userId == userId && row.platformId == platformId then {n} else {}
  {
  }

  // An upload is let through only below the cap of the pair's one grant.
  lemma UploadBelowCap(v: Vault, s: Store, r: Request, i: int)
    requires GrantsIntact(s) && Inserts(v, s, r)
    requires i in s.grants && s.grants[i].userId == r.userId && s.grants[i].platformId == r.platformId
    ensures s.grants[i].maxChannels > 0 ==> LiveCount(s, r.userId, r.platformId) < s.grants[i].maxChannels
  {
    UploaderExists(v, s, r);
    var j :| j in s.grants && s.grants[j].userId == r.userId && s.grants[j].platformId == r.platformId
             && GetGrant(s, r.userId, r.platformId) == Some(s.grants[j]);
    assert i == j;
  }

  lemma InsertCap(v: Vault, s: Store, r: Request)
    requires Intact(s) && WithinCaps(s) && Inserts(v, s, r)
    ensures WithinCaps(After(v, s, r))
  {
    InsertTable(v, s, r);
    var s' := After(v, s, r);
    var row := NewRow(v, s, r, CheckUpload(v, s, r).value);
    forall i | i in s'.grants
      ensures GrantWithinCap(s', s'.grants[i])
    {
      var g := s.grants[i];
      assert GrantWithinCap(s, g);
      InsertedLive(s, s.nextChannel, row, g.userId, g.platformId);
      if g.userId == r.userId && g.platformId == r.platformId {
        UploadBelowCap(v, s, r, i);
      }
    }
  }

  // A request keeps every cap respected if and only if it does not itself write a
  // positive cap below the live count.
  lemma CapStepExact(v: Vault, s: Store, r: Request)
    requires Intact(s) && WithinCaps(s)
    ensures WithinCaps(After(v, s, r)) <==> !LowersCap(s, r)
  {
    if Inserts(v, s, r) {
      InsertCap(v, s, r);
    } else if r.UpsertGrant? {
      AdminAfter(v, s, r);
      UpsertCap(s, r.newId, r.grant);
    } else {
      TableStep(v, s, r);
      if r.DeleteUser? || r.DeletePlatform? {
        AdminAfter(v, s, r);
        CascadeGrantsShrink(s, r.id, r.stop);
      } else {
        CatalogGrows(v, s, r);
      }
      ShrunkWithinCaps(s, After(v, s, r));
    }
  }

  ghost predicate NeverLowersCap(v: Vault, s: Store, rs: seq<Request>)
    decreases |rs|
  {
    rs != [] ==> !LowersCap(s, rs[0]) && NeverLowersCap(v, After(v, s, rs[0]), rs[1..])
  }

  lemma {:induction false} CapRun(v: Vault, s: Store, rs: seq<Request>)
    requires Intact(s) && WithinCaps(s) && NeverLowersCap(v, s, rs)
    ensures WithinCaps(Serve(v, s, rs))
    decreases |rs|
  {
    if rs != [] {
      GrantsStep(v, s, rs[0]);
      ChannelsStep(v, s, rs[0]);
      CapStepExact(v, s, rs[0]);
      CapRun(v, After(v, s, rs[0]), rs[1..]);
    }
  }

  // Main theorem. No run takes the live channels of a pair above its grant's positive
  // cap unless a grant request sets that cap below the count at that moment.
  lemma CapsHold(v: Vault, rs: seq<Request>)
    requires NeverLowersCap(v, Empty, rs)
    ensures WithinCaps(Serve(v, Empty, rs))
  {
    CapRun(v, Empty, rs);
  }

  // --- Distinct keys ---

  predicate SamePair(a: Channel, b: Channel) { a.userId == b.userId && a.platformId == b.platformId }

  // Live rows of a pair have pairwise different fingerprints.
  ghost predicate KeysDistinct(rows: Rows) {
    forall i, j :: i in rows && j in rows && i != j
                   && !rows[i].deleted && !rows[j].deleted && SamePair(rows[i], rows[j])
      ==> rows[i].fingerprint != rows[j].fingerprint
  }

  // An accepted rotation to a key that another live row of the pair already has.
  predicate ReusesKey(v: Vault, s: Store, r: Request) {
    && r.UpdateChannel? && CheckUpdate(s, r).Ok? && Rotates(r)
    && exists j :: j in s.channels && j != r.id && !s.channels[j].deleted && SamePair(s.channels[j], s.channels[r.id])
                   && s.channels[j].fingerprint == v.digest(Utf8(r.key))
  }

  lemma InsertDistinct(v: Vault, s: Store, r: Request)
    requires IdsIntact(s) && KeysDistinct(s.channels) && Inserts(v, s, r)
    ensures KeysDistinct(After(v, s, r).channels)
  {
    InsertTable(v, s, r);
    NoDuplicate(v, s, r);
    InsertedDistinct(s.channels, s.nextChannel, NewRow(v, s, r, CheckUpload(v, s, r).value));
  }

  lemma InsertedDistinct(rows: Rows, n: int, row: Channel)
    requires KeysDistinct(rows) && n !in rows
    requires forall i :: i in rows && !rows[i].deleted && SamePair(rows[i], row) ==>
               rows[i].fingerprint != row.fingerprint
    ensures KeysDistinct(rows[n := row])
  {
  }

  lemma NoDuplicate(v: Vault, s: Store, r: Request)
    requires Inserts(v, s, r)
    ensures forall i :: i in s.channels && !s.channels[i].deleted
                        && s.channels[i].userId == r.userId && s.channels[i].platformId == r.platformId
              ==> s.channels[i].fingerprint != v.digest(Utf8(r.key))
  {
    assert !FingerprintExists(s.channels, r.userId, r.platformId, v.digest(Utf8(r.key)));
    forall i | i in s.channels && !s.channels[i].deleted
               && s.channels[i].userId == r.userId && s.channels[i].platformId == r.platformId
      ensures s.channels[i].fingerprint != v.digest(Utf8(r.key))
    {
      assert i in LivePair(s.channels, r.userId, r.platformId);
    }
  }

  // An update touches one row, and its fingerprint only when it rotates.
  lemma UpdatedFingerprints(v: Vault, s: Store, r: Request, a: Accepted)
    requires r.UpdateChannel? && Live(s.channels, r.id)
    ensures var rows' := UpdatedRows(v, s, r, a);
            && rows'.Keys == s.channels.Keys
            && forall i :: i in s.channels ==>
                 && SamePair(rows'[i], s.channels[i]) && rows'[i].deleted == s.channels[i].deleted
                 && rows'[i].fingerprint ==
                    if i == r.id && Rotates(r) then v.digest(Utf8(r.key)) else s.channels[i].fingerprint
  {
  }

  lemma UpdateDistinct(v: Vault, s: Store, r: Request)
    requires KeysDistinct(s.channels) && r.UpdateChannel?
    ensures KeysDistinct(After(v, s, r).channels) <==> !ReusesKey(v, s, r)
  {
    if CheckUpdate(s, r).Ok? {
      UpdateAfter(v, s, r);
      UpdatedFingerprints(v, s, r, CheckUpdate(s, r).value);
      RotationDistinct(v, s, r, UpdatedRows(v, s, r, CheckUpdate(s, r).value));
    } else {
      RefusedUpdate(v, s, r);
    }
  }

  lemma RotationDistinct(v: Vault, s: Store, r: Request, rows': Rows)
    requires KeysDistinct(s.channels) && r.UpdateChannel? && CheckUpdate(s, r).Ok?
    requires rows'.Keys == s.channels.Keys
    requires forall i :: i in s.channels ==>
               && SamePair(rows'[i], s.channels[i]) && rows'[i].deleted == s.channels[i].deleted
               && rows'[i].fingerprint ==
                  if i == r.id && Rotates(r) then v.digest(Utf8(r.key)) else s.channels[i].fingerprint
    ensures KeysDistinct(rows') <==> !ReusesKey(v, s, r)
  {
    var rows := s.channels;
    assert forall i :: i in rows' <==> i in rows;
    if ReusesKey(v, s, r) {
      var j :| j in rows && j != r.id && !rows[j].deleted && SamePair(rows[j], rows[r.id])
               && rows[j].fingerprint == v.digest(Utf8(r.key));
      assert rows'[j].fingerprint == rows'[r.id].fingerprint;
    }
  }

  lemma EvolvedDistinct(s: Store, s': Store)
    requires KeysDistinct(s.channels) && TableEvolves(s, s') && SameContent(s, s')
    ensures KeysDistinct(s'.channels)
  {
  }

  // A request keeps the keys of every pair distinct if and only if it is not a
  // rotation to a key some other live row of the pair already has.
  lemma DistinctStepExact(v: Vault, s: Store, r: Request)
    requires IdsIntact(s) && KeysDistinct(s.channels)
    ensures KeysDistinct(After(v, s, r).channels) <==> !ReusesKey(v, s, r)
  {
    if Inserts(v, s, r) {
      InsertDistinct(v, s, r);
    } else if r.UpdateChannel? {
      UpdateDistinct(v, s, r);
    } else if r.CreateChannel? {
      RefusedUpload(v, s, r);
    } else {
      OtherTable(v, s, r);
      EvolvedDistinct(s, After(v, s, r));
    }
  }

  ghost predicate NeverReusesKey(v: Vault, s: Store, rs: seq<Request>)
    decreases |rs|
  {
    rs != [] ==> !ReusesKey(v, s, rs[0]) && NeverReusesKey(v, After(v, s, rs[0]), rs[1..])
  }

  lemma {:induction false} DistinctRun(v: Vault, s: Store, rs: seq<Request>)
    requires Intact(s) && KeysDistinct(s.channels) && NeverReusesKey(v, s, rs)
    ensures KeysDistinct(Serve(v, s, rs).channels)
    decreases |rs|
  {
    if rs != [] {
      GrantsStep(v, s, rs[0]);
      ChannelsStep(v, s, rs[0]);
      DistinctStepExact(v, s, rs[0]);
      DistinctRun(v, After(v, s, rs[0]), rs[1..]);
    }
  }

  // Main theorem. Through creates, updates, deletes and syncs, if every rotation
  // brings a key no other live row of its pair has, live rows stay pairwise distinct.
  lemma KeysStayDistinct(v: Vault, rs: seq<Request>)
    requires NeverReusesKey(v, Empty, rs)
    ensures KeysDistinct(Serve(v, Empty, rs).channels)
  {
    DistinctRun(v, Empty, rs);
  }
}
