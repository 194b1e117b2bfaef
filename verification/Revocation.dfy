// A supplier whose grant is deleted stays locked out until another grant is written.
module Revocation {
  import opened Prelude
  import opened Vaults
  import opened Catalog
  import opened ChannelRows
  import opened Registry
  import opened Integrity
  import opened Limits
  import opened Effects

  predicate WritesGrant(r: Request, userId: int, platformId: int) {
    r.UpsertGrant? && r.grant.userId == userId && r.grant.platformId == platformId
  }

  lemma UpsertOtherPair(s: Store, newId: int, g: Grant, userId: int, platformId: int)
    requires GrantIds(s, userId, platformId) == {} && (g.userId != userId || g.platformId != platformId)
    ensures GrantIds(DoUpsertGrant(s, newId, g).0, userId, platformId) == {}
  {
    var s' := DoUpsertGrant(s, newId, g).0;
    forall i | i in s'.grants
      ensures s'.grants[i].userId != userId || s'.grants[i].platformId != platformId
    {
      assert i in s.grants && s'.grants[i] == s.grants[i] ==> i !in GrantIds(s, userId, platformId);
    }
  }

  lemma ShrunkPair(s: Store, s': Store, userId: int, platformId: int)
    requires GrantsShrink(s, s') && GrantIds(s, userId, platformId) == {}
    ensures GrantIds(s', userId, platformId) == {}
  {
    forall i | i in s'.grants
      ensures s'.grants[i].userId != userId || s'.grants[i].platformId != platformId
    {
      assert i !in GrantIds(s, userId, platformId);
    }
  }

  lemma UngrantedStep(v: Vault, s: Store, r: Request, userId: int, platformId: int)
    requires GrantIds(s, userId, platformId) == {} && !WritesGrant(r, userId, platformId)
    ensures GrantIds(After(v, s, r), userId, platformId) == {}
  {
    if r.UpsertGrant? {
      AdminAfter(v, s, r);
      UpsertOtherPair(s, r.newId, r.grant, userId, platformId);
    } else {
      if r.DeleteUser? || r.DeletePlatform? {
        AdminAfter(v, s, r);
        CascadeGrantsShrink(s, r.id, r.stop);
      } else {
        CatalogGrows(v, s, r);
      }
      ShrunkPair(s, After(v, s, r), userId, platformId);
    }
  }

  predicate WritesNoGrant(rs: seq<Request>, userId: int, platformId: int) {
    forall i :: 0 <= i < |rs| ==> !WritesGrant(rs[i], userId, platformId)
  }

  lemma {:induction false} UngrantedRun(v: Vault, s: Store, rs: seq<Request>, userId: int, platformId: int)
    requires GrantIds(s, userId, platformId) == {} && WritesNoGrant(rs, userId, platformId)
    ensures GrantIds(Serve(v, s, rs), userId, platformId) == {}
    decreases |rs|
  {
    if rs != [] {
      UngrantedStep(v, s, rs[0], userId, platformId);
      UngrantedRun(v, After(v, s, rs[0]), rs[1..], userId, platformId);
    }
  }

  // An upload to the platform, or an update of one of the supplier's rows on it.
  predicate Touches(s: Store, r: Request, userId: int, platformId: int) {
    || (r.CreateChannel? && r.userId == userId && r.platformId == platformId)
    || (r.UpdateChannel? && r.userId == userId && r.id in s.channels && s.channels[r.id].platformId == platformId)
  }

  predicate AcceptsIt(v: Vault, s: Store, r: Request)
    requires r.CreateChannel? || r.UpdateChannel?
  {
    if r.CreateChannel? then CheckUpload(v, s, r).Ok? else CheckUpdate(s, r).Ok?
  }

  lemma UngrantedRefused(v: Vault, s: Store, r: Request, userId: int, platformId: int)
    requires GrantIds(s, userId, platformId) == {} && Touches(s, r, userId, platformId)
    ensures !AcceptsIt(v, s, r)
  {
    AuthorizeExactly(s, userId, platformId);
    assert EnabledGrantIds(s, userId, platformId) == {};
    if r.CreateChannel? {
      FieldsExactly(s, r);
      if CheckUpload(v, s, r).Ok? { AcceptedFields(v, s, r); }
    }
  }

  // Main theorem. After any run, once a grant is deleted its supplier uploads nothing to
  // its platform and updates nothing there, whatever follows, until a grant of the pair is
  // written again.
  lemma RevokedStaysRefused(v: Vault, before: seq<Request>, id: int, after: seq<Request>, r: Request)
    requires id in Serve(v, Empty, before).grants
    requires var g := Serve(v, Empty, before).grants[id];
             var s := Serve(v, After(v, Serve(v, Empty, before), Request.DeleteGrant(id)), after);
             WritesNoGrant(after, g.userId, g.platformId) && Touches(s, r, g.userId, g.platformId)
    ensures !AcceptsIt(v, Serve(v, After(v, Serve(v, Empty, before), Request.DeleteGrant(id)), after), r)
  {
    var s0 := Serve(v, Empty, before);
    var g := s0.grants[id];
    ReferencesHold(v, before);
    AdminAfter(v, s0, Request.DeleteGrant(id));
    DeleteGrantEffect(s0, id);
    var s1 := After(v, s0, Request.DeleteGrant(id));
    UngrantedRun(v, s1, after, g.userId, g.platformId);
    UngrantedRefused(v, Serve(v, s1, after), r, g.userId, g.platformId);
  }
}
