// Sealed keys have no influence on anything a request answers.
module Noninterference {
  import opened Prelude
  import opened Vaults
  import opened Catalog
  import opened Whitelist
  import opened ChannelRows
  import opened Registry
  import opened Integrity
  import P = Protocol

  function MaskRows(rows: Rows): Rows { map i | i in rows :: rows[i].(encKey := []) }

  // The store with every sealed key blanked.
  function Masked(s: Store): Store { s.(channels := MaskRows(s.channels)) }

  lemma MaskedReads(s: Store, userId: int, platformId: int)
    ensures PairRows(MaskRows(s.channels), userId, platformId) == PairRows(s.channels, userId, platformId)
    ensures LivePair(MaskRows(s.channels), userId, platformId) == LivePair(s.channels, userId, platformId)
    ensures PairNames(MaskRows(s.channels), userId, platformId) == PairNames(s.channels, userId, platformId)
    ensures forall f :: FingerprintExists(MaskRows(s.channels), userId, platformId, f)
                        <==> FingerprintExists(s.channels, userId, platformId, f)
    ensures Authorize(Masked(s), userId, platformId) == Authorize(s, userId, platformId)
  {
  }

  // Equal answers, and stores that differ in sealed keys at most.
  ghost predicate LooksSame(a: (Store, Response), b: (Store, Response)) {
    a.1 == b.1 && Masked(a.0) == Masked(b.0)
  }

  ghost predicate Blind(v: Vault, s: Store, r: Request) {
    LooksSame(Handle(v, Masked(s), r), Handle(v, s, r))
  }

  lemma MaskTwice(s: Store)
    ensures Masked(Masked(s)) == Masked(s)
  {
  }

  lemma MaskedFields(s: Store, r: Request)
    requires r.CreateChannel?
    ensures CheckFields(Masked(s), r) == CheckFields(s, r)
  {
    MaskedReads(s, r.userId, r.platformId);
  }

  lemma MaskedCheck(v: Vault, s: Store, r: Request)
    requires r.CreateChannel?
    ensures CheckUpload(v, Masked(s), r) == CheckUpload(v, s, r)
  {
    MaskedFields(s, r);
    MaskedReads(s, r.userId, r.platformId);
  }

  lemma MaskedRow(v: Vault, s: Store, r: Request)
    requires Inserts(v, s, r)
    ensures r.platformId in s.platforms
    ensures var a := CheckUpload(v, s, r).value; NewRow(v, Masked(s), r, a) == NewRow(v, s, r, a)
  {
    AcceptedPlatform(v, s, r);
    MaskedNewRow(v, s, r, CheckUpload(v, s, r).value);
  }

  lemma MaskedNewRow(v: Vault, s: Store, r: Request, a: Accepted)
    requires r.CreateChannel? && r.platformId in s.platforms
    ensures NewRow(v, Masked(s), r, a) == NewRow(v, s, r, a)
  {
    MaskedPair(s, r.userId, r.platformId);
  }

  lemma MaskedPair(s: Store, userId: int, platformId: int)
    ensures PairRows(Masked(s).channels, userId, platformId) == PairRows(s.channels, userId, platformId)
    ensures PairNames(Masked(s).channels, userId, platformId) == PairNames(s.channels, userId, platformId)
  {
    MaskedReads(s, userId, platformId);
  }

  lemma BlindCreate(v: Vault, s: Store, r: Request)
    requires r.CreateChannel?
    ensures LooksSame(DoCreateChannel(v, Masked(s), r), DoCreateChannel(v, s, r))
  {
    MaskedCheck(v, s, r);
    if CheckUpload(v, s, r).Ok? {
      MaskedRow(v, s, r);
      BlindInsert(s, NewRow(v, s, r, CheckUpload(v, s, r).value));
    } else {
      MaskTwice(s);
    }
  }

  lemma BlindInsert(s: Store, row: Channel)
    ensures LooksSame(InsertRow(Masked(s), row), InsertRow(s, row))
  {
    MaskInsert(s.channels, s.nextChannel, row);
  }

  lemma MaskInsert(rows: Rows, n: int, row: Channel)
    ensures MaskRows(MaskRows(rows)[n := row]) == MaskRows(rows[n := row])
  {
  }

  lemma MaskedUpdateCheck(s: Store, r: Request)
    requires r.UpdateChannel?
    ensures CheckUpdate(Masked(s), r) == CheckUpdate(s, r)
  {
    if OwnedLive(s, r.userId, r.id) {
      MaskedReads(s, r.userId, s.channels[r.id].platformId);
    }
  }

  // A statement on one row acts alike on masked rows.
  lemma EditMask(rows: Rows, id: int, name: string, baseUrl: string, models: string, group: string, now: int)
    ensures MaskRows(UpdateMetadata(MaskRows(rows), id, name, baseUrl, models, group, now))
            == MaskRows(UpdateMetadata(rows, id, name, baseUrl, models, group, now))
  {
  }

  lemma RotateMask(a: Rows, b: Rows, id: int, sealed: Bytes, fingerprint: string, last4: Bytes, now: int)
    requires MaskRows(a) == MaskRows(b)
    ensures MaskRows(ReplaceKey(a, id, sealed, fingerprint, last4, now))
            == MaskRows(ReplaceKey(b, id, sealed, fingerprint, last4, now))
  {
    SameMask(a, b);
    var a' := ReplaceKey(a, id, sealed, fingerprint, last4, now);
    var b' := ReplaceKey(b, id, sealed, fingerprint, last4, now);
    forall i
      ensures i in a' <==> i in b'
      ensures i in a' ==> a'[i].(encKey := []) == b'[i].(encKey := [])
    {
      assert i in a <==> i in b;
    }
    EqualMasks(a', b');
  }

  lemma EqualMasks(a: Rows, b: Rows)
    requires forall i :: i in a <==> i in b
    requires forall i :: i in a ==> a[i].(encKey := []) == b[i].(encKey := [])
    ensures MaskRows(a) == MaskRows(b)
  {
    var x, y := MaskRows(a), MaskRows(b);
    forall i
      ensures i in x <==> i in y
      ensures i in x ==> x[i] == y[i]
    {
      assert i in a <==> i in b;
    }
  }

  // Rows with equal masks agree outside the sealed key.
  lemma SameMask(a: Rows, b: Rows)
    requires MaskRows(a) == MaskRows(b)
    ensures forall i :: i in a <==> i in b
    ensures forall i :: i in a ==> a[i].(encKey := []) == b[i].(encKey := []) && a[i].deleted == b[i].deleted
  {
    forall i
      ensures i in a <==> i in b
      ensures i in a ==> a[i].(encKey := []) == b[i].(encKey := [])
    {
      assert i in MaskRows(a) <==> i in MaskRows(b);
      if i in a { assert MaskRows(a)[i] == MaskRows(b)[i]; }
    }
  }

  lemma UpdatedMask(v: Vault, s: Store, r: Request, a: Accepted)
    requires r.UpdateChannel? && r.id in s.channels
    ensures MaskRows(UpdatedRows(v, Masked(s), r, a)) == MaskRows(UpdatedRows(v, s, r, a))
  {
    var name := s.channels[r.id].name;
    EditMask(s.channels, r.id, name, "", a.modelsCsv, a.group, r.now);
    if Rotates(r) {
      var key := Utf8(r.key);
      RotateMask(UpdateMetadata(MaskRows(s.channels), r.id, name, "", a.modelsCsv, a.group, r.now),
                 UpdateMetadata(s.channels, r.id, name, "", a.modelsCsv, a.group, r.now),
                 r.id, v.Blob(r.nonce, key), v.digest(key), Last4(key), r.now);
    }
  }

  lemma BlindUpdate(v: Vault, s: Store, r: Request)
    requires r.UpdateChannel?
    ensures LooksSame(DoUpdateChannel(v, Masked(s), r), DoUpdateChannel(v, s, r))
  {
    MaskedUpdateCheck(s, r);
    if CheckUpdate(s, r).Ok? {
      UpdatedMask(v, s, r, CheckUpdate(s, r).value);
    } else {
      MaskTwice(s);
    }
  }

  // The page a supplier sees is computed from masked rows.
  lemma {:induction false} MaskedList(s: Store, n: nat, userId: int, platformId: int)
    ensures NewestFirst(MaskRows(s.channels), n, userId, platformId) == NewestFirst(s.channels, n, userId, platformId)
  {
    if n > 0 {
      MaskedList(s, n - 1, userId, platformId);
    }
  }

  lemma MaskedViews(s: Store, ids: seq<int>)
    requires forall i :: i in ids ==> i in s.channels
    ensures Views(Masked(s), ids) == Views(s, ids)
  {
  }

  lemma BlindList(s: Store, r: Request)
    requires r.ListChannels?
    ensures DoListChannels(Masked(s), r) == DoListChannels(s, r)
  {
    MaskedList(s, s.nextChannel, r.userId, r.platformId);
    MaskedViews(s, Page(NewestFirst(s.channels, s.nextChannel, r.userId, r.platformId), r.offset, r.limit));
  }

  lemma MarkMask(rows: Rows, id: int, m: P.Mark, now: int)
    ensures MaskRows(P.MarkRows(MaskRows(rows), id, m, now)) == MaskRows(P.MarkRows(rows, id, m, now))
  {
  }

  lemma DeletedMask(rows: Rows, id: int)
    ensures MaskRows(SoftDelete(MaskRows(rows), id)) == MaskRows(SoftDelete(rows, id))
  {
  }

  lemma UsageMask(rows: Rows, id: int, quota: int, now: int)
    ensures MaskRows(SetUsage(MaskRows(rows), id, quota, now)) == MaskRows(SetUsage(rows, id, quota, now))
  {
  }

  // What the scoped reads of a masked row give.
  lemma MaskedRowReads(s: Store, userId: int, id: int)
    ensures OwnedLive(Masked(s), userId, id) == OwnedLive(s, userId, id)
    ensures id in s.channels ==> id in Masked(s).channels && Masked(s).channels[id] == s.channels[id].(encKey := [])
  {
  }

  lemma BlindDelete(s: Store, userId: int, id: int)
    ensures LooksSame(DoDeleteChannel(Masked(s), userId, id), DoDeleteChannel(s, userId, id))
  {
    MaskedRowReads(s, userId, id);
    DeletedMask(s.channels, id);
    MaskTwice(s);
  }

  lemma BlindResync(s: Store, userId: int, id: int)
    ensures LooksSame(DoResyncChannel(Masked(s), userId, id), DoResyncChannel(s, userId, id))
  {
    MaskedRowReads(s, userId, id);
    MaskTwice(s);
  }

  lemma BlindUsage(s: Store, r: Request)
    requires r.RefreshUsage?
    ensures LooksSame(DoRefreshUsage(Masked(s), r), DoRefreshUsage(s, r))
  {
    MaskedRowReads(s, r.userId, r.id);
    MaskTwice(s);
    if r.answer.Ok? {
      UsageMask(s.channels, r.id, r.answer.value, r.now);
    }
  }

  lemma BlindDeleteUser(s: Store, id: int, stop: nat)
    ensures Masked(DoDeleteUser(Masked(s), id, stop)) == Masked(DoDeleteUser(s, id, stop))
  {
    CascadeMask(s.channels, id);
    MaskTwice(s);
    if stop >= 2 {
      assert DoDeleteUser(Masked(s), id, stop).channels == WithoutChannelsOf(MaskRows(s.channels), id);
    }
  }

  lemma CascadeMask(rows: Rows, userId: int)
    ensures MaskRows(WithoutChannelsOf(MaskRows(rows), userId)) == MaskRows(WithoutChannelsOf(rows, userId))
  {
  }

  lemma BlindDeletePlatform(s: Store, id: int, stop: nat)
    ensures LooksSame(DoDeletePlatform(Masked(s), id, stop), DoDeletePlatform(s, id, stop))
  {
    MaskTwice(s);
    assert Referring(MaskRows(s.channels), id) == Referring(s.channels, id);
  }

  lemma BlindUpsert(s: Store, newId: int, g: Grant)
    ensures LooksSame(DoUpsertGrant(Masked(s), newId, g), DoUpsertGrant(s, newId, g))
  {
    assert GrantIds(Masked(s), g.userId, g.platformId) == GrantIds(s, g.userId, g.platformId);
    assert CheckGrant(Masked(s), g) == CheckGrant(s, g);
    MaskTwice(s);
  }

  lemma BlindUsers(s: Store, r: Request)
    requires r.CreateUser? || r.UpdateUser?
    ensures LooksSame(HandleAdmin(Masked(s), r), HandleAdmin(s, r))
  {
    MaskTwice(s);
  }

  lemma BlindPlatforms(s: Store, r: Request)
    requires r.CreatePlatform? || r.UpdatePlatform?
    ensures LooksSame(HandleAdmin(Masked(s), r), HandleAdmin(s, r))
  {
    MaskTwice(s);
  }

  lemma BlindAdmin(s: Store, r: Request)
    requires FromAdmin(r)
    ensures LooksSame(HandleAdmin(Masked(s), r), HandleAdmin(s, r))
  {
    if r.CreateUser? || r.UpdateUser? {
      BlindUsers(s, r);
    } else if r.CreatePlatform? || r.UpdatePlatform? {
      BlindPlatforms(s, r);
    } else if r.DeleteUser? {
      BlindDeleteUser(s, r.id, r.stop);
    } else if r.DeletePlatform? {
      BlindDeletePlatform(s, r.id, r.stop);
    } else if r.UpsertGrant? {
      BlindUpsert(s, r.newId, r.grant);
    } else {
      MaskTwice(s);
    }
  }

  lemma BlindStep(v: Vault, s: Store, r: Request)
    ensures Blind(v, s, r)
  {
    if FromAdmin(r) {
      BlindAdmin(s, r);
    } else {
      match r
      case CreateChannel(_, _, _, _, _, _, _, _) => BlindCreate(v, s, r);
      case UpdateChannel(_, _, _, _, _, _) => BlindUpdate(v, s, r);
      case ListChannels(_, _, _, _) => BlindList(s, r); MaskTwice(s);
      case DeleteChannel(userId, id) => BlindDelete(s, userId, id);
      case ResyncChannel(userId, id) => BlindResync(s, userId, id);
      case RefreshUsage(_, _, _, _) => BlindUsage(s, r);
      case SyncMark(id, mark, now) => MarkMask(s.channels, id, mark, now);
    }
  }

  function Answers(v: Vault, s: Store, rs: seq<Request>): seq<Response>
    decreases |rs|
  {
    if rs == [] then [] else [Handle(v, s, rs[0]).1] + Answers(v, After(v, s, rs[0]), rs[1..])
  }

  // Main theorem. Two stores that differ only in sealed keys answer every sequence of
  // requests alike and stay equal outside the sealed keys.
  lemma {:induction false} SealedKeysUnobservable(v: Vault, a: Store, b: Store, rs: seq<Request>)
    requires Masked(a) == Masked(b)
    ensures Answers(v, a, rs) == Answers(v, b, rs)
    ensures Masked(Serve(v, a, rs)) == Masked(Serve(v, b, rs))
    decreases |rs|
  {
    if rs != [] {
      BlindStep(v, a, rs[0]);
      BlindStep(v, b, rs[0]);
      SealedKeysUnobservable(v, After(v, a, rs[0]), After(v, b, rs[0]), rs[1..]);
    }
  }
}
