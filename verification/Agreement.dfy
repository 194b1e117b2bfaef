// When a row says it is in sync, the remote copy is exactly the row.
module Agreement {
  import opened Prelude
  import opened Vaults
  import opened ChannelRows
  import opened Agt
  import opened Protocol
  import opened KeyConservation

  predicate HoldsMeta(remote: Remote, platformId: int, remoteId: int, m: Metadata) {
    (platformId, remoteId) in remote && remote[(platformId, remoteId)].meta == m
  }

  // sync_status = 1 means: the sealed key is gone, and AGT's entry has the row's
  // metadata and the latest uploaded key, which the row's fingerprint names.
  ghost predicate Agrees(v: Vault, s: State, id: int) {
    && id in s.rows && id in s.uploaded
    && var c := s.rows[id];
    c.syncStatus == 1 ==>
      && c.encKey == []
      && HoldsMeta(s.remote, c.platformId, c.remoteId, Meta(c))
      && s.remote[(c.platformId, c.remoteId)].key == s.uploaded[id]
      && c.fingerprint == v.digest(s.remote[(c.platformId, c.remoteId)].key)
  }

  // A sync that may still mark its row in sync.
  predicate Hopeful(y: Sync) { y.Loaded? || (y.Replied? && !y.mark.ToFailed?) }

  predicate Keyless(y: Sync) { Hopeful(y) && !CarriesKey(y) }

  // An edit is safe when it changes no forwarded column, or when no sync of the row is
  // hopeful and no request in transit can still write over the row's entry.
  ghost predicate EditSafe(s: State, id: int, m: Metadata) {
    || (id in s.rows && Meta(s.rows[id]) == m)
    || (&& (forall t :: t in s.syncs && s.syncs[t].id == id ==> !Hopeful(s.syncs[t]))
        && (forall q :: q in s.transit && q.maker == id ==> !Lands(s, q)))
  }

  // A rotation must in addition not meet a hopeful sync that carries no key.
  ghost predicate RotationApart(s: State, id: int, key: Bytes) {
    && RotationSafe(s, id, key)
    && forall t :: t in s.syncs && s.syncs[t].id == id ==> !Keyless(s.syncs[t])
  }

  function EditedMeta(s: State, step: Step): Metadata
    requires step.Edit? && step.id in s.rows
  {
    Metadata(step.name, s.rows[step.id].kind, step.baseUrl, step.models, step.group)
  }

  ghost predicate StepApart(v: Vault, s: State, step: Step) {
    Enabled(v, s, step) ==>
      && (step.Edit? ==> EditSafe(s, step.id, EditedMeta(s, step)))
      && (step.Rotate? ==> RotationApart(s, step.id, step.key))
  }

  ghost predicate RunApart(v: Vault, s: State, steps: seq<Step>)
    decreases |steps|
  {
    steps != [] ==> StepApart(v, s, steps[0]) && RunApart(v, Next(v, s, steps[0]), steps[1..])
  }

  ghost predicate RowHoldsMeta(s: State, id: int)
    requires id in s.rows
  {
    HoldsMeta(s.remote, s.rows[id].platformId, s.rows[id].remoteId, Meta(s.rows[id]))
  }

  // A hopeful sync saw the row's present metadata, and what it may record is there.
  ghost predicate SyncAgrees(s: State, y: Sync) {
    Hopeful(y) ==>
      && y.id in s.rows
      && Meta(y.snap) == Meta(s.rows[y.id])
      && (y.Replied? && y.mark.ToSynced? ==>
            HoldsMeta(s.remote, s.rows[y.id].platformId, y.mark.remoteId, Meta(y.snap)))
      && (Keyless(y) ==>
            && s.rows[y.id].encKey == []
            && ((y.Loaded? && s.rows[y.id].remoteId == y.snap.remoteId) || RowHoldsMeta(s, y.id)))
  }

  // A request in transit brings the row's present metadata, or goes where nobody looks.
  ghost predicate TransitAgrees(s: State, q: Outgoing) {
    q.maker in s.rows && (q.payload.meta == Meta(s.rows[q.maker]) || Adrift(s, q))
  }

  ghost predicate Agreeing(v: Vault, s: State) {
    && Conserving(v, s)
    && (forall id :: id in s.rows ==> Agrees(v, s, id))
    && (forall t :: t in s.syncs ==> SyncAgrees(s, s.syncs[t]))
    && (forall q :: q in s.transit ==> TransitAgrees(s, q))
  }

  // --- What a request does to the metadata AGT holds ---

  // A call rewrites only entries of its own row, with the metadata it loaded.
  lemma CallMeta(v: Vault, s: State, t: int, env: Env, r: (int, int))
    requires Kept(v, s) && Enabled(v, s, Call(t, env)) && r in s.remote
    ensures var y := s.syncs[t];
            var after := Apply(v, s, Call(t, env)).remote;
            r in after && (after[r] == s.remote[r] || (s.remote[r].maker == y.id && after[r].meta == Meta(y.snap)))
  {
    assert SyncKept(v, s, s.syncs[t]);
  }

  // A success leaves the entry it will record holding the metadata it loaded.
  lemma CallDeliversMeta(v: Vault, s: State, t: int, env: Env)
    requires Kept(v, s) && Enabled(v, s, Call(t, env))
    ensures var y := s.syncs[t];
            var after := Apply(v, s, Call(t, env)).remote;
            CallMark(v, y.snap, env).Some? ==>
              var m := CallMark(v, y.snap, env).value;
              && (m.ToSynced? ==> y.snap.HasRecoverableKey()
                                  && HoldsMeta(after, y.snap.platformId, m.remoteId, Meta(y.snap)))
              && (m.ToMetadataSynced? ==> !y.snap.HasRecoverableKey()
                                          && HoldsMeta(after, y.snap.platformId, y.snap.remoteId, Meta(y.snap)))
  {
  }

  // A request that arrives leaves metadata that agrees with a row as it was, in every
  // entry the row names or may come to name.
  lemma ArriveMeta(v: Vault, s: State, q: Outgoing, newId: int, id: int, remoteId: int)
    requires Agreeing(v, s) && Enabled(v, s, Arrive(q, newId)) && id in s.rows
    requires HoldsMeta(s.remote, s.rows[id].platformId, remoteId, Meta(s.rows[id]))
    requires s.remote[(s.rows[id].platformId, remoteId)].maker == id
    requires q.maker == id && Adrift(s, q) ==> q.payload.id == 0 || remoteId != q.payload.id
    ensures HoldsMeta(Apply(v, s, Arrive(q, newId)).remote, s.rows[id].platformId, remoteId, Meta(s.rows[id]))
  {
    assert TransitKept(s, q) && TransitAgrees(s, q);
  }

  // --- Rows of the next state ---

  lemma AgreesCall(v: Vault, s: State, t: int, env: Env, id: int)
    requires Agreeing(v, s) && Enabled(v, s, Call(t, env)) && id in s.rows
    requires Conserved(v, Apply(v, s, Call(t, env)), id)
    ensures Agrees(v, Apply(v, s, Call(t, env)), id)
  {
    var c := s.rows[id];
    assert Agrees(v, s, id) && RowKept(v, s, id) && SyncAgrees(s, s.syncs[t]);
    if c.syncStatus == 1 {
      CallMeta(v, s, t, env, (c.platformId, c.remoteId));
    }
  }

  lemma AgreesArrive(v: Vault, s: State, q: Outgoing, newId: int, id: int)
    requires Agreeing(v, s) && Enabled(v, s, Arrive(q, newId)) && id in s.rows
    requires Conserved(v, Apply(v, s, Arrive(q, newId)), id)
    ensures Agrees(v, Apply(v, s, Arrive(q, newId)), id)
  {
    assert Agrees(v, s, id) && RowKept(v, s, id);
    if s.rows[id].syncStatus == 1 {
      ArriveMeta(v, s, q, newId, id, s.rows[id].remoteId);
    }
  }

  lemma AgreesMark(v: Vault, s: State, t: int, now: int, id: int)
    requires Agreeing(v, s) && Enabled(v, s, WriteMark(t, now)) && id in s.rows
    requires Conserved(v, Apply(v, s, WriteMark(t, now)), id)
    ensures Agrees(v, Apply(v, s, WriteMark(t, now)), id)
  {
    assert Agrees(v, s, id);
    assert SyncAgrees(s, s.syncs[t]) && SyncKept(v, s, s.syncs[t]);
  }

  lemma AgreesOther(v: Vault, s: State, step: Step, id: int)
    requires v.Sound() && Agreeing(v, s) && Enabled(v, s, step)
    requires !step.Call? && !step.Arrive? && !step.WriteMark?
    requires id in Apply(v, s, step).rows && Conserved(v, Apply(v, s, step), id)
    ensures Agrees(v, Apply(v, s, step), id)
  {
    if id in s.rows { assert Agrees(v, s, id); }
  }

  lemma AgreesStep(v: Vault, s: State, step: Step, id: int)
    requires v.Sound() && Agreeing(v, s) && Enabled(v, s, step)
    requires id in Apply(v, s, step).rows && Conserved(v, Apply(v, s, step), id)
    ensures Agrees(v, Apply(v, s, step), id)
  {
    if step.Call? {
      AgreesCall(v, s, step.t, step.env, id);
    } else if step.Arrive? {
      AgreesArrive(v, s, step.q, step.newId, id);
    } else if step.WriteMark? {
      AgreesMark(v, s, step.t, step.now, id);
    } else {
      AgreesOther(v, s, step, id);
    }
  }

  // --- Syncs of the next state ---

  lemma SyncAgreesOwnCall(v: Vault, s: State, t: int, env: Env)
    requires Agreeing(v, s) && Enabled(v, s, Call(t, env))
    requires t in Apply(v, s, Call(t, env)).syncs
    ensures SyncAgrees(Apply(v, s, Call(t, env)), Apply(v, s, Call(t, env)).syncs[t])
  {
    assert SyncAgrees(s, s.syncs[t]) && SyncKept(v, s, s.syncs[t]) && RowKept(v, s, s.syncs[t].id);
    CallDeliversMeta(v, s, t, env);
    if RowHoldsMeta(s, s.syncs[t].id) {
      CallMeta(v, s, t, env, (s.rows[s.syncs[t].id].platformId, s.rows[s.syncs[t].id].remoteId));
    }
  }

  // The entries a hopeful sync relies on.
  lemma ReliedEntries(v: Vault, s: State, s': State, y: Sync)
    requires Kept(v, s) && SyncKept(v, s, y) && SyncAgrees(s, y) && s'.rows == s.rows
    requires y.Replied? && y.mark.ToSynced? ==>
               HoldsMeta(s'.remote, s.rows[y.id].platformId, y.mark.remoteId, Meta(y.snap))
    requires RowHoldsMeta(s, y.id) ==> RowHoldsMeta(s', y.id)
    ensures SyncAgrees(s', y)
  {
  }

  lemma SyncAgreesOtherCall(v: Vault, s: State, u: int, env: Env, t: int)
    requires Agreeing(v, s) && Enabled(v, s, Call(u, env)) && t in s.syncs && t != u
    ensures SyncAgrees(Apply(v, s, Call(u, env)), s.syncs[t])
  {
    var z, s' := s.syncs[t], Apply(v, s, Call(u, env));
    assert SyncAgrees(s, s.syncs[u]) && SyncAgrees(s, z) && SyncKept(v, s, z) && RowKept(v, s, z.id);
    if Hopeful(z) {
      if z.Replied? && z.mark.ToSynced? {
        CallMeta(v, s, u, env, (s.rows[z.id].platformId, z.mark.remoteId));
      }
      if RowHoldsMeta(s, z.id) {
        CallMeta(v, s, u, env, (s.rows[z.id].platformId, s.rows[z.id].remoteId));
      }
      ReliedEntries(v, s, s', z);
    }
  }

  lemma ArriveKeepsMarked(v: Vault, s: State, q: Outgoing, newId: int, t: int)
    requires Agreeing(v, s) && Enabled(v, s, Arrive(q, newId))
    requires t in s.syncs && s.syncs[t].Replied? && s.syncs[t].mark.ToSynced?
    ensures var y := s.syncs[t];
            y.id in s.rows
            && HoldsMeta(Apply(v, s, Arrive(q, newId)).remote, s.rows[y.id].platformId, y.mark.remoteId, Meta(y.snap))
  {
    var y := s.syncs[t];
    assert SyncAgrees(s, y) && SyncKept(v, s, y) && MayRecord(y, y.mark.remoteId);
    ArriveMeta(v, s, q, newId, y.id, y.mark.remoteId);
  }

  lemma ArriveKeepsRow(v: Vault, s: State, q: Outgoing, newId: int, id: int)
    requires Agreeing(v, s) && Enabled(v, s, Arrive(q, newId)) && id in s.rows && RowHoldsMeta(s, id)
    requires s.rows[id].remoteId != 0
    ensures RowHoldsMeta(Apply(v, s, Arrive(q, newId)), id)
  {
    assert RowKept(v, s, id);
    ArriveMeta(v, s, q, newId, id, s.rows[id].remoteId);
  }

  lemma SyncAgreesArrive(v: Vault, s: State, q: Outgoing, newId: int, t: int)
    requires Agreeing(v, s) && Enabled(v, s, Arrive(q, newId)) && t in s.syncs
    ensures SyncAgrees(Apply(v, s, Arrive(q, newId)), s.syncs[t])
  {
    var z := s.syncs[t];
    assert SyncAgrees(s, z);
    if Hopeful(z) {
      if z.Replied? && z.mark.ToSynced? {
        ArriveKeepsMarked(v, s, q, newId, t);
      }
      if Keyless(z) && RowHoldsMeta(s, z.id) {
        assert RowKept(v, s, z.id);
        ArriveKeepsRow(v, s, q, newId, z.id);
      }
    }
  }

  // A mark that wipes the key leaves the row naming an entry with the row's metadata.
  lemma SyncAgreesKeyMark(v: Vault, s: State, u: int, now: int, t: int)
    requires Agreeing(v, s) && Enabled(v, s, WriteMark(u, now)) && t in s.syncs && t != u
    requires s.syncs[u].mark.ToSynced?
    ensures SyncAgrees(Apply(v, s, WriteMark(u, now)), s.syncs[t])
  {
    assert SyncAgrees(s, s.syncs[t]) && SyncAgrees(s, s.syncs[u]);
    assert SyncKept(v, s, s.syncs[t]) && SyncKept(v, s, s.syncs[u]);
  }

  // Columns a sync does not rely on may change.
  lemma SameReliance(s: State, s': State, y: Sync)
    requires SyncAgrees(s, y) && s'.remote == s.remote
    requires forall id :: id in s.rows ==>
               && id in s'.rows && Meta(s'.rows[id]) == Meta(s.rows[id])
               && s'.rows[id].platformId == s.rows[id].platformId && s'.rows[id].remoteId == s.rows[id].remoteId
               && s'.rows[id].encKey == s.rows[id].encKey
    ensures SyncAgrees(s', y)
  {
  }

  lemma SyncAgreesPlainMark(v: Vault, s: State, u: int, now: int, y: Sync)
    requires Enabled(v, s, WriteMark(u, now)) && !s.syncs[u].mark.ToSynced? && SyncAgrees(s, y)
    ensures SyncAgrees(Apply(v, s, WriteMark(u, now)), y)
  {
    SameReliance(s, Apply(v, s, WriteMark(u, now)), y);
  }

  lemma SyncAgreesLoad(v: Vault, s: State, t: int)
    requires Agreeing(v, s) && Enabled(v, s, Load(t)) && t in Apply(v, s, Load(t)).syncs
    ensures SyncAgrees(Apply(v, s, Load(t)), Apply(v, s, Load(t)).syncs[t])
  {
    assert RowKept(v, s, s.syncs[t].id);
  }

  lemma SyncAgreesEdit(v: Vault, s: State, step: Step, t: int)
    requires Agreeing(v, s) && Enabled(v, s, step) && step.Edit? && EditSafe(s, step.id, EditedMeta(s, step))
    requires t in s.syncs
    ensures SyncAgrees(Apply(v, s, step), s.syncs[t])
  {
    assert SyncAgrees(s, s.syncs[t]);
  }

  lemma SyncAgreesRotate(v: Vault, s: State, step: Step, t: int)
    requires Agreeing(v, s) && Enabled(v, s, step) && step.Rotate? && RotationApart(s, step.id, step.key)
    requires t in s.syncs
    ensures SyncAgrees(Apply(v, s, step), s.syncs[t])
  {
    assert SyncAgrees(s, s.syncs[t]);
  }

  lemma SyncAgreesRow(v: Vault, s: State, step: Step, y: Sync)
    requires Enabled(v, s, step) && (step.Create? || step.Usage? || step.Delete?)
    requires SyncAgrees(s, y)
    ensures SyncAgrees(Apply(v, s, step), y)
  {
  }

  lemma SyncAgreesStep(v: Vault, s: State, step: Step, t: int)
    requires Agreeing(v, s) && Enabled(v, s, step) && StepApart(v, s, step)
    requires t in Apply(v, s, step).syncs
    ensures SyncAgrees(Apply(v, s, step), Apply(v, s, step).syncs[t])
  {
    if step.Call? && step.t == t {
      SyncAgreesOwnCall(v, s, t, step.env);
    } else if step.Load? && step.t == t {
      SyncAgreesLoad(v, s, t);
    } else {
      OtherSync(v, s, step, t);
      if t in s.syncs {
        SyncAgreesKeptOn(v, s, step, t);
      }
    }
  }

  lemma SyncAgreesKeptOn(v: Vault, s: State, step: Step, t: int)
    requires Agreeing(v, s) && Enabled(v, s, step) && StepApart(v, s, step)
    requires t in s.syncs && t in Apply(v, s, step).syncs && ((step.Call? || step.Load?) ==> step.t != t)
    ensures SyncAgrees(Apply(v, s, step), s.syncs[t])
  {
    if step.Call? {
      SyncAgreesOtherCall(v, s, step.t, step.env, t);
    } else if step.Arrive? {
      SyncAgreesArrive(v, s, step.q, step.newId, t);
    } else if step.WriteMark? {
      if s.syncs[step.t].mark.ToSynced? {
        SyncAgreesKeyMark(v, s, step.t, step.now, t);
      } else {
        assert SyncAgrees(s, s.syncs[t]);
        SyncAgreesPlainMark(v, s, step.t, step.now, s.syncs[t]);
      }
    } else if step.Dispatch? || step.Resync? || step.Load? || step.Drop? {
      assert SyncAgrees(s, s.syncs[t]);
    } else if step.Edit? {
      SyncAgreesEdit(v, s, step, t);
    } else if step.Rotate? {
      SyncAgreesRotate(v, s, step, t);
    } else {
      assert SyncAgrees(s, s.syncs[t]);
      SyncAgreesRow(v, s, step, s.syncs[t]);
    }
  }

  // --- Requests in transit of the next state ---

  lemma MetaStep(v: Vault, s: State, step: Step, id: int)
    requires Enabled(v, s, step) && id in s.rows && (step.Edit? ==> step.id != id)
    ensures id in Apply(v, s, step).rows && Meta(Apply(v, s, step).rows[id]) == Meta(s.rows[id])
  {
  }

  lemma TransitAgreesEdit(v: Vault, s: State, edit: Step, q: Outgoing)
    requires Agreeing(v, s) && Enabled(v, s, edit) && edit.Edit? && EditSafe(s, edit.id, EditedMeta(s, edit))
    requires q in s.transit && q.maker == edit.id
    ensures TransitAgrees(Apply(v, s, edit), q)
  {
    assert TransitKept(s, q) && TransitAgrees(s, q);
    if Adrift(s, q) {
      AdriftStays(v, s, edit, q);
    }
  }

  lemma TransitAgreesStep(v: Vault, s: State, step: Step, q: Outgoing)
    requires Agreeing(v, s) && Enabled(v, s, step) && StepApart(v, s, step)
    requires q in Apply(v, s, step).transit
    ensures TransitAgrees(Apply(v, s, step), q)
  {
    if q !in s.transit {
      NewInTransit(v, s, step, q);
      assert SyncAgrees(s, s.syncs[step.t]);
    } else if step.Edit? && step.id == q.maker {
      TransitAgreesEdit(v, s, step, q);
    } else {
      assert TransitKept(s, q) && TransitAgrees(s, q);
      MetaStep(v, s, step, q.maker);
      if Adrift(s, q) {
        AdriftStays(v, s, step, q);
      }
    }
  }

  lemma AgreeingStep(v: Vault, s: State, step: Step)
    requires v.Sound() && Agreeing(v, s) && StepApart(v, s, step)
    ensures Agreeing(v, Next(v, s, step))
  {
    ConservingStep(v, s, step);
    if Enabled(v, s, step) {
      var s' := Apply(v, s, step);
      forall id | id in s'.rows
        ensures Agrees(v, s', id)
      {
        AgreesStep(v, s, step, id);
      }
      forall t | t in s'.syncs
        ensures SyncAgrees(s', s'.syncs[t])
      {
        SyncAgreesStep(v, s, step, t);
      }
      forall q | q in s'.transit
        ensures TransitAgrees(s', q)
      {
        TransitAgreesStep(v, s, step, q);
      }
    }
  }

  lemma {:induction false} AgreeingRun(v: Vault, s: State, steps: seq<Step>)
    requires v.Sound() && Agreeing(v, s) && RunApart(v, s, steps)
    ensures Agreeing(v, Run(v, s, steps))
    decreases |steps|
  {
    if steps != [] {
      AgreeingStep(v, s, steps[0]);
      AgreeingRun(v, Next(v, s, steps[0]), steps[1..]);
    }
  }

  // Main theorem. In every interleaving in which no edit or rotation commits while a
  // sync of its row, or a request it gave up on, may still succeed -- overlapping
  // syncs, deletes and failures are all allowed -- a row marked in sync agrees with AGT
  // in every forwarded column and in the key.
  lemma InSyncMeansAgreement(v: Vault, steps: seq<Step>)
    requires v.Sound() && RunApart(v, Start, steps)
    ensures var s := Run(v, Start, steps); forall id :: id in s.rows ==> Agrees(v, s, id)
  {
    AgreeingRun(v, Start, steps);
  }

  // --- The hypothesis is exactly what is needed ---

  predicate Quiet(steps: seq<Step>) {
    forall i :: 0 <= i < |steps| ==> !steps[i].Edit? && !steps[i].Rotate?
  }

  lemma {:induction false} QuietIsApart(v: Vault, s: State, steps: seq<Step>)
    requires Quiet(steps)
    ensures RunApart(v, s, steps)
    decreases |steps|
  {
    if steps != [] {
      QuietIsApart(v, Next(v, s, steps[0]), steps[1..]);
    }
  }

  // A loaded sync can always finish its call with success.
  lemma LoadedCanSucceed(v: Vault, s: State, t: int)
    returns (env: Env)
    requires t in s.syncs && s.syncs[t].Loaded? && SyncKept(v, s, s.syncs[t])
    ensures Enabled(v, s, Call(t, env))
    ensures var y := s.syncs[t];
            var s' := Next(v, s, Call(t, env));
            && s'.rows == s.rows && s'.uploaded == s.uploaded
            && t in s'.syncs && s'.syncs[t].Replied? && s'.syncs[t].id == y.id && s'.syncs[t].snap == y.snap
            && (if y.snap.HasRecoverableKey() then
                  s'.syncs[t].mark.ToSynced?
                  && HoldsMeta(s'.remote, y.snap.platformId, s'.syncs[t].mark.remoteId, Meta(y.snap))
                else
                  s'.syncs[t].mark.ToMetadataSynced?
                  && HoldsMeta(s'.remote, y.snap.platformId, y.snap.remoteId, Meta(y.snap))
                  && forall r :: r in s.remote && r != (y.snap.platformId, y.snap.remoteId) ==>
                       r in s'.remote && s'.remote[r] == s.remote[r])
  {
    var newId := FreshIdExists(s.remote, s.syncs[t].snap.platformId);
    env := Answer(Success(newId));
  }

  // Writing a success mark on a live row whose recorded entry does not hold the
  // row's metadata, or whose sealed key stays, ends in disagreement.
  lemma StaleMarkDisagrees(v: Vault, s: State, t: int, now: int)
    requires t in s.syncs && s.syncs[t].Replied? && !s.syncs[t].mark.ToFailed?
    requires Live(s.rows, s.syncs[t].id)
    requires var y := s.syncs[t]; var c := s.rows[y.id];
             if y.mark.ToSynced? then !HoldsMeta(s.remote, c.platformId, y.mark.remoteId, Meta(c))
             else c.encKey != [] || !HoldsMeta(s.remote, c.platformId, c.remoteId, Meta(c))
    ensures !Agrees(v, Run(v, s, [WriteMark(t, now)]), s.syncs[t].id)
  {
    RunOne(v, s, WriteMark(t, now));
  }

  lemma StaleKeyDisagrees(v: Vault, s: State, t: int, now: int)
    requires t in s.syncs && s.syncs[t].Replied? && s.syncs[t].mark.ToSynced?
    requires Live(s.rows, s.syncs[t].id) && s.syncs[t].id in s.uploaded
    requires var y := s.syncs[t]; var r := (s.rows[y.id].platformId, y.mark.remoteId);
             r in s.remote && s.remote[r].key != s.uploaded[y.id]
    ensures !Agrees(v, Run(v, s, [WriteMark(t, now)]), s.syncs[t].id)
  {
    RunOne(v, s, WriteMark(t, now));
  }

  // An edit that meets a hopeful sync: the sync can finish and mark the row in sync
  // with the old metadata.
  lemma EditBeforeMark(v: Vault, s: State, edit: Step, t: int)
    returns (after: seq<Step>)
    requires v.Sound() && Agreeing(v, s) && edit.Edit? && Enabled(v, s, edit)
    requires t in s.syncs && s.syncs[t].id == edit.id && Hopeful(s.syncs[t])
    requires Meta(s.rows[edit.id]) != EditedMeta(s, edit)
    ensures Quiet(after) && !Agrees(v, Run(v, Next(v, s, edit), after), edit.id)
  {
    assert SyncKept(v, s, s.syncs[t]) && SyncAgrees(s, s.syncs[t]);
    var s1 := Next(v, s, edit);
    assert Meta(s1.rows[edit.id]) == EditedMeta(s, edit) && s1.remote == s.remote && s1.syncs == s.syncs;
    if s.syncs[t].Replied? {
      StaleMarkDisagrees(v, s1, t, 0);
      after := [WriteMark(t, 0)];
    } else {
      assert SyncKept(v, s1, s1.syncs[t]);
      var env := LoadedCanSucceed(v, s1, t);
      StaleMarkDisagrees(v, Next(v, s1, Call(t, env)), t, 0);
      RunTwo(v, s1, Call(t, env), WriteMark(t, 0));
      after := [Call(t, env), WriteMark(t, 0)];
    }
  }

  // An edit that meets a request in transit to the row's entry: the edit's own sync can
  // succeed, and then the request brings the old metadata back.
  lemma EditBeforeArrival(v: Vault, s: State, edit: Step, q: Outgoing)
    returns (after: seq<Step>)
    requires v.Sound() && Agreeing(v, s) && edit.Edit? && Enabled(v, s, edit)
    requires q in s.transit && q.maker == edit.id && Lands(s, q)
    requires Meta(s.rows[edit.id]) != EditedMeta(s, edit)
    ensures Quiet(after) && !Agrees(v, Run(v, Next(v, s, edit), after), edit.id)
  {
    assert TransitAgrees(s, q);
    var s1 := Next(v, s, edit);
    KeptStep(v, s, edit);
    assert Meta(s1.rows[edit.id]) == EditedMeta(s, edit) && s1.transit == s.transit;
    var t := FreshTag(s1);
    after := SyncThenArrival(edit.id, t, q);
    ArrivalOverwrites(v, s1, edit.id, t, q);
  }

  lemma UnsafeEditDisagrees(v: Vault, s: State, edit: Step)
    returns (after: seq<Step>)
    requires v.Sound() && Agreeing(v, s) && edit.Edit? && Enabled(v, s, edit)
    requires !EditSafe(s, edit.id, EditedMeta(s, edit))
    ensures Quiet(after)
    ensures !Agrees(v, Run(v, Next(v, s, edit), after), edit.id)
  {
    if t :| t in s.syncs && s.syncs[t].id == edit.id && Hopeful(s.syncs[t]) {
      after := EditBeforeMark(v, s, edit, t);
    } else {
      var q :| q in s.transit && q.maker == edit.id && Lands(s, q);
      after := EditBeforeArrival(v, s, edit, q);
    }
  }

  // A rotation met by a hopeful sync without a key ends with a row marked in sync
  // while its new key is still sealed.
  lemma RotationBeforeMetadataMark(v: Vault, s: State, rotate: Step, t: int)
    returns (after: seq<Step>)
    requires v.Sound() && Agreeing(v, s) && rotate.Rotate? && Enabled(v, s, rotate)
    requires t in s.syncs && s.syncs[t].id == rotate.id && Keyless(s.syncs[t])
    ensures Quiet(after) && !Agrees(v, Run(v, Next(v, s, rotate), after), rotate.id)
  {
    var s1 := Next(v, s, rotate);
    v.OpenSeal(rotate.nonce, rotate.key);
    assert SyncKept(v, s, s.syncs[t]);
    if s.syncs[t].Replied? {
      StaleMarkDisagrees(v, s1, t, 0);
      after := [WriteMark(t, 0)];
    } else {
      assert SyncKept(v, s1, s1.syncs[t]);
      var env := LoadedCanSucceed(v, s1, t);
      StaleMarkDisagrees(v, Next(v, s1, Call(t, env)), t, 0);
      RunTwo(v, s1, Call(t, env), WriteMark(t, 0));
      after := [Call(t, env), WriteMark(t, 0)];
    }
  }

  // A rotation to a new key met by a sync carrying the old one ends with AGT holding
  // the old one.
  lemma RotationBeforeKeyMark(v: Vault, s: State, rotate: Step, t: int)
    returns (after: seq<Step>)
    requires v.Sound() && Agreeing(v, s) && rotate.Rotate? && Enabled(v, s, rotate)
    requires t in s.syncs && s.syncs[t].id == rotate.id && CarriesKey(s.syncs[t])
    requires rotate.id in s.uploaded && s.uploaded[rotate.id] != rotate.key
    ensures Quiet(after) && !Agrees(v, Run(v, Next(v, s, rotate), after), rotate.id)
  {
    var s1 := Next(v, s, rotate);
    assert SyncKept(v, s, s.syncs[t]) && Current(v, s, s.syncs[t]);
    if s.syncs[t].Replied? {
      after := [WriteMark(t, 0)];
      StaleKeyDisagrees(v, s1, t, 0);
    } else {
      var env := CallCanSucceed(v, s1, t);
      StaleKeyDisagrees(v, Next(v, s1, Call(t, env)), t, 0);
      RunTwo(v, s1, Call(t, env), WriteMark(t, 0));
      after := [Call(t, env), WriteMark(t, 0)];
    }
  }

  // A rotation to a new key met by a request in transit with the old one: the new key
  // can be published, and then the request brings the old one back.
  lemma RotationBeforeArrival(v: Vault, s: State, rotate: Step, q: Outgoing)
    returns (after: seq<Step>)
    requires v.Sound() && Conserving(v, s) && rotate.Rotate? && Enabled(v, s, rotate)
    requires q in s.transit && q.maker == rotate.id && q.payload.key != [] && Lands(s, q)
    requires rotate.id in s.uploaded && s.uploaded[rotate.id] != rotate.key
    ensures Quiet(after) && !Agrees(v, Run(v, Next(v, s, rotate), after), rotate.id)
  {
    var s1 := Next(v, s, rotate);
    KeptStep(v, s, rotate);
    assert TransitCurrent(s, q) && q.payload.key == s.uploaded[rotate.id];
    var t := FreshTag(s1);
    after := SyncThenArrival(rotate.id, t, q);
    ArrivalOverwrites(v, s1, rotate.id, t, q);
  }

  lemma UnsafeRotationDisagrees(v: Vault, s: State, rotate: Step)
    returns (after: seq<Step>)
    requires v.Sound() && Agreeing(v, s) && rotate.Rotate? && Enabled(v, s, rotate)
    requires !RotationApart(s, rotate.id, rotate.key)
    ensures Quiet(after)
    ensures !Agrees(v, Run(v, Next(v, s, rotate), after), rotate.id)
  {
    assert RowKept(v, s, rotate.id);
    if t :| t in s.syncs && s.syncs[t].id == rotate.id && Keyless(s.syncs[t]) {
      after := RotationBeforeMetadataMark(v, s, rotate, t);
    } else if t :| t in s.syncs && s.syncs[t].id == rotate.id && CarriesKey(s.syncs[t]) {
      after := RotationBeforeKeyMark(v, s, rotate, t);
    } else {
      var q :| q in s.transit && q.maker == rotate.id && q.payload.key != [] && Lands(s, q);
      after := RotationBeforeArrival(v, s, rotate, q);
    }
  }

  // An edit leaves agreement standing in every continuation without further edits
  // and rotations if and only if it is safe at the moment it commits.
  lemma EditSafeExactly(v: Vault, s: State, edit: Step)
    requires v.Sound() && Agreeing(v, s) && edit.Edit? && Enabled(v, s, edit)
    ensures EditSafe(s, edit.id, EditedMeta(s, edit)) <==>
              forall after: seq<Step> :: Quiet(after) ==> Agrees(v, Run(v, Next(v, s, edit), after), edit.id)
  {
    if EditSafe(s, edit.id, EditedMeta(s, edit)) {
      ApartStepStaysAgreed(v, s, edit, edit.id);
    } else {
      var after := UnsafeEditDisagrees(v, s, edit);
    }
  }

  // The same for a rotation.
  lemma RotationApartExactly(v: Vault, s: State, rotate: Step)
    requires v.Sound() && Agreeing(v, s) && rotate.Rotate? && Enabled(v, s, rotate)
    ensures RotationApart(s, rotate.id, rotate.key) <==>
              forall after: seq<Step> :: Quiet(after) ==> Agrees(v, Run(v, Next(v, s, rotate), after), rotate.id)
  {
    if RotationApart(s, rotate.id, rotate.key) {
      ApartStepStaysAgreed(v, s, rotate, rotate.id);
    } else {
      var after := UnsafeRotationDisagrees(v, s, rotate);
    }
  }

  lemma QuietStaysAgreed(v: Vault, s: State, after: seq<Step>, id: int)
    requires v.Sound() && Agreeing(v, s) && Quiet(after) && id in s.rows
    ensures Agrees(v, Run(v, s, after), id)
  {
    QuietIsApart(v, s, after);
    AgreeingRun(v, s, after);
    RemoteIdStays(v, s, after, id);
  }

  lemma ApartStepStaysAgreed(v: Vault, s: State, step: Step, id: int)
    requires v.Sound() && Agreeing(v, s) && StepApart(v, s, step) && id in s.rows
    ensures forall after: seq<Step> :: Quiet(after) ==> Agrees(v, Run(v, Next(v, s, step), after), id)
  {
    var s1 := Next(v, s, step);
    AgreeingStep(v, s, step);
    RemoteIdStays(v, s, [step], id);
    RunOne(v, s, step);
    forall after: seq<Step> | Quiet(after)
      ensures Agrees(v, Run(v, s1, after), id)
    {
      QuietStaysAgreed(v, s1, after, id);
    }
  }
}
