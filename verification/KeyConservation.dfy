// Safety of uploaded keys over whole runs.
module KeyConservation {
  import opened Prelude
  import opened Vaults
  import opened ChannelRows
  import opened Agt
  import opened Protocol

  // --- What every interleaving keeps ---

  ghost predicate Owns(remote: Remote, id: int, platformId: int, remoteId: int) {
    (platformId, remoteId) in remote && remote[(platformId, remoteId)].maker == id
  }

  // A row, or the snapshot a sync took of it. A sealed key opens to a key the
  // fingerprint names, a synced row holds none, a row without one has a remote id,
  // and a remote id names an entry this row made.
  ghost predicate WellKept(v: Vault, remote: Remote, id: int, c: Channel) {
    && (c.keyState == Synced ==> c.encKey == [])
    && (c.encKey != [] ==>
          && v.Open(c.encKey).Ok?
          && v.Open(c.encKey).value != []
          && v.digest(v.Open(c.encKey).value) == c.fingerprint)
    && (c.encKey == [] ==> c.remoteId != 0)
    && (c.remoteId != 0 ==> Owns(remote, id, c.platformId, c.remoteId))
  }

  ghost predicate RowKept(v: Vault, s: State, id: int)
    requires id in s.rows
  {
    var c := s.rows[id];
    && WellKept(v, s.remote, id, c)
    && id in s.uploaded
    && s.uploaded[id] != []
    && c.fingerprint == v.digest(s.uploaded[id])
    && (c.encKey != [] ==> v.Open(c.encKey) == Ok(s.uploaded[id]))
  }

  // Something sent for row `id` under a remote id (0 for a POST) that was its own.
  ghost predicate SentFor(s: State, id: int, platformId: int, remoteId: int) {
    && id in s.rows
    && platformId == s.rows[id].platformId
    && (remoteId != 0 ==> s.rows[id].remoteId != 0 && Owns(s.remote, id, platformId, remoteId))
  }

  ghost predicate SyncKept(v: Vault, s: State, y: Sync) {
    && y.id in s.rows
    && (!y.Waiting? ==>
          SentFor(s, y.id, y.snap.platformId, y.snap.remoteId) && WellKept(v, s.remote, y.id, y.snap))
    && (y.Replied? && y.mark.ToSynced? ==>
          y.mark.remoteId != 0 && Owns(s.remote, y.id, y.snap.platformId, y.mark.remoteId))
  }

  ghost predicate TransitKept(s: State, q: Outgoing) {
    SentFor(s, q.maker, q.platformId, q.payload.id)
  }

  ghost predicate Kept(v: Vault, s: State) {
    && (forall id :: id in s.rows ==> RowKept(v, s, id))
    && (forall t :: t in s.syncs ==> SyncKept(v, s, s.syncs[t]))
    && (forall q :: q in s.transit ==> TransitKept(s, q))
  }

  // Entries stay, and never change their maker.
  ghost predicate MakersStay(a: Remote, b: Remote) {
    forall r :: r in a ==> r in b && b[r].maker == a[r].maker
  }

  lemma CallKeepsMakers(v: Vault, s: State, t: int, env: Env)
    requires Enabled(v, s, Call(t, env))
    ensures MakersStay(s.remote, Apply(v, s, Call(t, env)).remote)
  {
  }

  lemma ArriveKeepsMakers(v: Vault, s: State, q: Outgoing, newId: int)
    requires Enabled(v, s, Arrive(q, newId))
    ensures MakersStay(s.remote, Apply(v, s, Arrive(q, newId)).remote)
  {
  }

  // Rows stay, keep their platform, and stay published.
  ghost predicate RowsStay(a: Rows, b: Rows) {
    forall id :: id in a ==>
      && id in b && b[id].platformId == a[id].platformId
      && (a[id].remoteId != 0 ==> b[id].remoteId != 0)
  }

  lemma RowStatementsStay(v: Vault, s: State, step: Step)
    requires Enabled(v, s, step)
    requires step.Create? || step.Edit? || step.Rotate? || step.Usage? || step.Delete?
    ensures RowsStay(s.rows, Apply(v, s, step).rows) && Apply(v, s, step).remote == s.remote
  {
  }

  lemma MarkStays(v: Vault, s: State, t: int, now: int)
    requires Kept(v, s) && Enabled(v, s, WriteMark(t, now))
    ensures RowsStay(s.rows, Apply(v, s, WriteMark(t, now)).rows)
  {
    assert SyncKept(v, s, s.syncs[t]);
  }

  lemma StepStays(v: Vault, s: State, step: Step)
    requires Kept(v, s) && Enabled(v, s, step)
    ensures var s' := Apply(v, s, step); RowsStay(s.rows, s'.rows) && MakersStay(s.remote, s'.remote)
  {
    match step
    case Call(t, env) => CallKeepsMakers(v, s, t, env);
    case Arrive(q, newId) => ArriveKeepsMakers(v, s, q, newId);
    case WriteMark(t, now) => MarkStays(v, s, t, now);
    case Dispatch(_, _) =>
    case Resync(_, _) =>
    case Load(_) =>
    case Drop(_) =>
    case _ => RowStatementsStay(v, s, step);
  }

  // What was well kept stays so while entries keep their makers.
  lemma SentForStays(s: State, s': State, id: int, platformId: int, remoteId: int)
    requires SentFor(s, id, platformId, remoteId) && RowsStay(s.rows, s'.rows) && MakersStay(s.remote, s'.remote)
    ensures SentFor(s', id, platformId, remoteId)
  {
  }

  lemma SyncStaysKept(v: Vault, s: State, s': State, y: Sync)
    requires SyncKept(v, s, y) && RowsStay(s.rows, s'.rows) && MakersStay(s.remote, s'.remote)
    ensures SyncKept(v, s', y)
  {
    if !y.Waiting? {
      SentForStays(s, s', y.id, y.snap.platformId, y.snap.remoteId);
    }
  }

  // --- Rows of the next state, one at a time ---

  lemma KeptRowUpload(v: Vault, s: State, step: Step, id: int)
    requires v.Sound() && Kept(v, s) && Enabled(v, s, step) && (step.Create? || step.Rotate?)
    requires id in Apply(v, s, step).rows
    ensures RowKept(v, Apply(v, s, step), id)
  {
    v.OpenSeal(step.nonce, step.key);
    if id in s.rows { assert RowKept(v, s, id); }
  }

  lemma KeptRowMark(v: Vault, s: State, t: int, now: int, id: int)
    requires Kept(v, s) && Enabled(v, s, WriteMark(t, now)) && id in s.rows
    ensures id in Apply(v, s, WriteMark(t, now)).rows
    ensures RowKept(v, Apply(v, s, WriteMark(t, now)), id)
  {
    assert RowKept(v, s, id) && SyncKept(v, s, s.syncs[t]);
  }

  lemma KeptRowColumns(v: Vault, s: State, step: Step, id: int)
    requires Enabled(v, s, step) && (step.Edit? || step.Usage? || step.Delete?)
    requires id in s.rows && RowKept(v, s, id)
    ensures id in Apply(v, s, step).rows && RowKept(v, Apply(v, s, step), id)
  {
  }

  lemma KeptRowStep(v: Vault, s: State, step: Step, id: int)
    requires v.Sound() && Kept(v, s) && Enabled(v, s, step)
    requires id in Apply(v, s, step).rows
    ensures RowKept(v, Apply(v, s, step), id)
  {
    match step
    case Create(_, _, _, _, _, _, _, _, _, _, _) => KeptRowUpload(v, s, step, id);
    case Rotate(_, _, _, _) => KeptRowUpload(v, s, step, id);
    case WriteMark(t, now) => KeptRowMark(v, s, t, now, id);
    case Call(t, env) => CallKeepsMakers(v, s, t, env); assert RowKept(v, s, id);
    case Arrive(q, newId) => ArriveKeepsMakers(v, s, q, newId); assert RowKept(v, s, id);
    case Dispatch(_, _) => assert RowKept(v, s, id);
    case Resync(_, _) => assert RowKept(v, s, id);
    case Load(_) => assert RowKept(v, s, id);
    case Drop(_) => assert RowKept(v, s, id);
    case _ => assert RowKept(v, s, id); KeptRowColumns(v, s, step, id);
  }

  // --- Syncs and requests in transit of the next state, one at a time ---

  // The mark a call leaves behind records an entry its own row made.
  lemma CallRecordsOwn(v: Vault, s: State, t: int, env: Env)
    requires Kept(v, s) && Enabled(v, s, Call(t, env))
    ensures var y := s.syncs[t]; var m := CallMark(v, y.snap, env);
            m.Some? && m.value.ToSynced? ==>
              m.value.remoteId != 0
              && Owns(Apply(v, s, Call(t, env)).remote, y.id, y.snap.platformId, m.value.remoteId)
  {
    assert SyncKept(v, s, s.syncs[t]);
  }

  lemma KeptSyncCall(v: Vault, s: State, u: int, env: Env)
    requires Kept(v, s) && Enabled(v, s, Call(u, env)) && u in Apply(v, s, Call(u, env)).syncs
    ensures SyncKept(v, Apply(v, s, Call(u, env)), Apply(v, s, Call(u, env)).syncs[u])
  {
    StepStays(v, s, Call(u, env));
    SyncStaysKept(v, s, Apply(v, s, Call(u, env)), s.syncs[u]);
    CallRecordsOwn(v, s, u, env);
  }

  lemma KeptSyncLoad(v: Vault, s: State, u: int)
    requires Kept(v, s) && Enabled(v, s, Load(u)) && u in Apply(v, s, Load(u)).syncs
    ensures SyncKept(v, Apply(v, s, Load(u)), Apply(v, s, Load(u)).syncs[u])
  {
    assert RowKept(v, s, s.syncs[u].id);
  }

  // The syncs a step leaves as they are, and the ones it dispatches.
  lemma OtherSync(v: Vault, s: State, step: Step, t: int)
    requires Enabled(v, s, step) && t in Apply(v, s, step).syncs
    requires (step.Call? || step.Load?) ==> step.t != t
    ensures if t in s.syncs then Apply(v, s, step).syncs[t] == s.syncs[t]
            else Apply(v, s, step).syncs[t].Waiting? && Apply(v, s, step).syncs[t].id in Apply(v, s, step).rows
  {
  }

  lemma KeptSyncStep(v: Vault, s: State, step: Step, t: int)
    requires Kept(v, s) && Enabled(v, s, step)
    requires t in Apply(v, s, step).syncs
    ensures SyncKept(v, Apply(v, s, step), Apply(v, s, step).syncs[t])
  {
    if step.Call? && step.t == t {
      KeptSyncCall(v, s, t, step.env);
    } else if step.Load? && step.t == t {
      KeptSyncLoad(v, s, t);
    } else {
      OtherSync(v, s, step, t);
      if t in s.syncs {
        StepStays(v, s, step);
        SyncStaysKept(v, s, Apply(v, s, step), s.syncs[t]);
      }
    }
  }

  // Requests come into transit only through a lost reply.
  lemma NewInTransit(v: Vault, s: State, step: Step, q: Outgoing)
    requires Enabled(v, s, step) && q in Apply(v, s, step).transit && q !in s.transit
    ensures step.Call? && Sends(v, s.syncs[step.t].id, s.syncs[step.t].snap, step.env) == Some(q)
  {
  }

  lemma KeptTransitStep(v: Vault, s: State, step: Step, q: Outgoing)
    requires Kept(v, s) && Enabled(v, s, step)
    requires q in Apply(v, s, step).transit
    ensures TransitKept(Apply(v, s, step), q)
  {
    StepStays(v, s, step);
    if q !in s.transit {
      NewInTransit(v, s, step, q);
      assert SyncKept(v, s, s.syncs[step.t]);
    }
    SentForStays(s, Apply(v, s, step), q.maker, q.platformId, q.payload.id);
  }

  lemma KeptStep(v: Vault, s: State, step: Step)
    requires v.Sound() && Kept(v, s)
    ensures Kept(v, Next(v, s, step))
  {
    if Enabled(v, s, step) {
      var s' := Apply(v, s, step);
      forall id | id in s'.rows
        ensures RowKept(v, s', id)
      {
        KeptRowStep(v, s, step, id);
      }
      forall t | t in s'.syncs
        ensures SyncKept(v, s', s'.syncs[t])
      {
        KeptSyncStep(v, s, step, t);
      }
      forall q | q in s'.transit
        ensures TransitKept(s', q)
      {
        KeptTransitStep(v, s, step, q);
      }
    }
  }

  lemma {:induction false} KeptRun(v: Vault, s: State, steps: seq<Step>)
    requires v.Sound() && Kept(v, s)
    ensures Kept(v, Run(v, s, steps))
    decreases |steps|
  {
    if steps != [] {
      KeptStep(v, s, steps[0]);
      KeptRun(v, Next(v, s, steps[0]), steps[1..]);
    }
  }

  // In every interleaving from the empty store, with any failures: a synced row
  // holds no sealed key; a sealed key opens to the key its fingerprint names; a row
  // without one has been published; and no sync is ever left with neither.
  lemma EveryInterleaving(v: Vault, steps: seq<Step>)
    requires v.Sound()
    ensures var s := Run(v, Start, steps);
            && (forall id :: id in s.rows ==>
                  var c := s.rows[id];
                  && (c.keyState == Synced ==> c.encKey == [])
                  && (c.encKey != [] ==>
                        v.Open(c.encKey).Ok? && v.digest(v.Open(c.encKey).value) == c.fingerprint)
                  && (c.encKey == [] ==> c.remoteId != 0 && (c.platformId, c.remoteId) in s.remote))
            && (forall t :: t in s.syncs && s.syncs[t].Loaded? ==>
                  s.syncs[t].snap.HasRecoverableKey() || s.syncs[t].snap.remoteId != 0)
  {
    KeptRun(v, Start, steps);
    var s := Run(v, Start, steps);
    forall id | id in s.rows
      ensures RowKept(v, s, id)
    {
    }
    forall t | t in s.syncs && s.syncs[t].Loaded?
      ensures s.syncs[t].snap.HasRecoverableKey() || s.syncs[t].snap.remoteId != 0
    {
      assert SyncKept(v, s, s.syncs[t]);
    }
  }

  // Rows stay in the table, and a published row stays published.
  lemma {:induction false} RemoteIdStays(v: Vault, s: State, steps: seq<Step>, id: int)
    requires v.Sound() && Kept(v, s) && id in s.rows
    ensures id in Run(v, s, steps).rows
    ensures s.rows[id].remoteId != 0 ==> Run(v, s, steps).rows[id].remoteId != 0
    decreases |steps|
  {
    if steps != [] {
      var s' := Next(v, s, steps[0]);
      KeptStep(v, s, steps[0]);
      if Enabled(v, s, steps[0]) {
        StepStays(v, s, steps[0]);
      }
      RemoteIdStays(v, s', steps[1..], id);
    }
  }

  // --- No uploaded key is lost ---

  // The latest uploaded key is still sealed locally, or AGT holds it under the
  // row's remote id; the row's fingerprint names it either way.
  ghost predicate Conserved(v: Vault, s: State, id: int) {
    && id in s.rows && id in s.uploaded
    && var c := s.rows[id];
    && c.fingerprint == v.digest(s.uploaded[id])
    && if c.encKey != [] then v.Open(c.encKey) == Ok(s.uploaded[id])
       else (c.platformId, c.remoteId) in s.remote && s.remote[(c.platformId, c.remoteId)].key == s.uploaded[id]
  }

  // A sync that may still wipe the row: it carries a key to send, or AGT has
  // accepted the key it carried.
  predicate CarriesKey(y: Sync) {
    (y.Loaded? && y.snap.HasRecoverableKey()) || (y.Replied? && y.mark.ToSynced?)
  }

  // A request in transit that will write the very entry its row names now.
  predicate Lands(s: State, q: Outgoing) {
    q.payload.id != 0 && q.maker in s.rows && q.payload.id == s.rows[q.maker].remoteId
  }

  // A rotation is safe when the key is not new, or when no sync of the row carries a
  // key and no request in transit can still write one over the row's entry.
  ghost predicate RotationSafe(s: State, id: int, key: Bytes) {
    || (id in s.uploaded && s.uploaded[id] == key)
    || (&& (forall t :: t in s.syncs && s.syncs[t].id == id ==> !CarriesKey(s.syncs[t]))
        && (forall q :: q in s.transit && q.maker == id && q.payload.key != [] ==> !Lands(s, q)))
  }

  ghost predicate StepSafe(v: Vault, s: State, step: Step) {
    step.Rotate? && Enabled(v, s, step) ==> RotationSafe(s, step.id, step.key)
  }

  ghost predicate RunSafe(v: Vault, s: State, steps: seq<Step>)
    decreases |steps|
  {
    steps != [] ==> StepSafe(v, s, steps[0]) && RunSafe(v, Next(v, s, steps[0]), steps[1..])
  }

  // A sync that may still record a remote id for its row.
  predicate MayRecord(y: Sync, remoteId: int) {
    || (y.Loaded? && y.snap.HasRecoverableKey() && y.snap.remoteId == remoteId)
    || (y.Replied? && y.mark.ToSynced? && y.mark.remoteId == remoteId)
  }

  // A request in transit whose target its row neither names nor will ever name again.
  ghost predicate Adrift(s: State, q: Outgoing) {
    || q.payload.id == 0
    || (&& !Lands(s, q)
        && forall t :: t in s.syncs && s.syncs[t].id == q.maker ==> !MayRecord(s.syncs[t], q.payload.id))
  }

  // Every key-carrying sync carries, or has delivered, the latest uploaded key.
  ghost predicate Current(v: Vault, s: State, y: Sync) {
    && y.id in s.uploaded
    && (y.Loaded? && y.snap.HasRecoverableKey() ==> v.Open(y.snap.encKey) == Ok(s.uploaded[y.id]))
    && (y.Replied? && y.mark.ToSynced? ==> HoldsKey(s, (y.snap.platformId, y.mark.remoteId), y.id))
  }

  ghost predicate HoldsKey(s: State, r: (int, int), id: int) {
    r in s.remote && id in s.uploaded && s.remote[r].key == s.uploaded[id]
  }

  // A key in transit is the latest one, or goes where nobody looks.
  ghost predicate TransitCurrent(s: State, q: Outgoing) {
    q.payload.key != [] ==> (q.maker in s.uploaded && q.payload.key == s.uploaded[q.maker]) || Adrift(s, q)
  }

  ghost predicate Conserving(v: Vault, s: State) {
    && Kept(v, s)
    && (forall id :: id in s.rows ==> Conserved(v, s, id))
    && (forall t :: t in s.syncs ==> Current(v, s, s.syncs[t]))
    && (forall q :: q in s.transit ==> TransitCurrent(s, q))
  }

  // --- What a request does to the keys AGT holds ---

  // A request that is not adrift writes only its row's latest key, over entries of its
  // own row.
  lemma LandKeys(s: State, q: Outgoing, newId: int, r: (int, int))
    requires TransitKept(s, q) && q.maker in s.uploaded && Acceptable(s.remote, q, newId)
    requires q.payload.key == [] || q.payload.key == s.uploaded[q.maker]
    requires r in s.remote
    ensures var after := Land(s.remote, q, newId);
            && r in after
            && (after[r].key == s.remote[r].key
                || (s.remote[r].maker == q.maker && after[r].key == s.uploaded[q.maker]))
  {
  }

  // A call writes only the latest key of its row, and what it is about to record is there.
  lemma CallKeys(v: Vault, s: State, t: int, env: Env, r: (int, int))
    requires Conserving(v, s) && Enabled(v, s, Call(t, env)) && r in s.remote
    ensures var y := s.syncs[t];
            var after := Apply(v, s, Call(t, env)).remote;
            && r in after
            && (after[r].key == s.remote[r].key
                || (s.remote[r].maker == y.id && y.id in s.uploaded && after[r].key == s.uploaded[y.id]))
  {
    var y := s.syncs[t];
    assert SyncKept(v, s, y) && Current(v, s, y);
    if TakesEffect(v, y.id, y.snap, env) {
      LandKeys(s, Sends(v, y.id, y.snap, env).value, env.reply.newId, r);
    }
  }

  lemma CallDelivers(v: Vault, s: State, t: int, env: Env)
    requires Conserving(v, s) && Enabled(v, s, Call(t, env))
    ensures var y := s.syncs[t]; var m := CallMark(v, y.snap, env);
            m.Some? && m.value.ToSynced? ==>
              HoldsKey(Apply(v, s, Call(t, env)), (y.snap.platformId, m.value.remoteId), y.id)
  {
    assert SyncKept(v, s, s.syncs[t]) && Current(v, s, s.syncs[t]);
  }

  // A request that arrives keeps the latest key in every entry a row names or may name.
  lemma ArriveKeys(v: Vault, s: State, q: Outgoing, newId: int, id: int, r: (int, int))
    requires Conserving(v, s) && Enabled(v, s, Arrive(q, newId))
    requires HoldsKey(s, r, id) && s.remote[r].maker == id
    requires q.maker == id && Adrift(s, q) ==> q.payload.id == 0 || r.1 != q.payload.id
    ensures HoldsKey(Apply(v, s, Arrive(q, newId)), r, id)
  {
    assert TransitKept(s, q) && TransitCurrent(s, q) && RowKept(v, s, q.maker);
  }

  // --- Rows of the next state ---

  lemma ConservedUpload(v: Vault, s: State, step: Step, id: int)
    requires v.Sound() && Conserving(v, s) && Enabled(v, s, step) && (step.Create? || step.Rotate?)
    requires id in Apply(v, s, step).rows
    ensures Conserved(v, Apply(v, s, step), id)
  {
    v.OpenSeal(step.nonce, step.key);
    if id in s.rows { assert Conserved(v, s, id); }
  }

  lemma ConservedCall(v: Vault, s: State, t: int, env: Env, id: int)
    requires Conserving(v, s) && Enabled(v, s, Call(t, env)) && id in s.rows
    ensures Conserved(v, Apply(v, s, Call(t, env)), id)
  {
    var c := s.rows[id];
    assert Conserved(v, s, id) && RowKept(v, s, id);
    if c.encKey == [] {
      CallKeys(v, s, t, env, (c.platformId, c.remoteId));
    }
  }

  lemma ConservedArrive(v: Vault, s: State, q: Outgoing, newId: int, id: int)
    requires Conserving(v, s) && Enabled(v, s, Arrive(q, newId)) && id in s.rows
    ensures Conserved(v, Apply(v, s, Arrive(q, newId)), id)
  {
    var c := s.rows[id];
    assert Conserved(v, s, id) && RowKept(v, s, id);
    if c.encKey == [] {
      ArriveKeys(v, s, q, newId, id, (c.platformId, c.remoteId));
    }
  }

  lemma ConservedMark(v: Vault, s: State, t: int, now: int, id: int)
    requires Conserving(v, s) && Enabled(v, s, WriteMark(t, now)) && id in s.rows
    ensures Conserved(v, Apply(v, s, WriteMark(t, now)), id)
  {
    assert Conserved(v, s, id);
    assert SyncKept(v, s, s.syncs[t]) && Current(v, s, s.syncs[t]);
  }

  lemma ConservedOther(v: Vault, s: State, step: Step, id: int)
    requires Enabled(v, s, step) && Conserved(v, s, id)
    requires !step.Create? && !step.Rotate? && !step.Call? && !step.Arrive? && !step.WriteMark?
    ensures Conserved(v, Apply(v, s, step), id)
  {
  }

  lemma ConservedUnlessUploaded(v: Vault, s: State, step: Step, id: int)
    requires Conserving(v, s) && Enabled(v, s, step) && !step.Create? && !step.Rotate?
    requires id in Apply(v, s, step).rows
    ensures Conserved(v, Apply(v, s, step), id)
  {
    SameRows(v, s, step);
    if step.Call? {
      ConservedCall(v, s, step.t, step.env, id);
    } else if step.Arrive? {
      ConservedArrive(v, s, step.q, step.newId, id);
    } else if step.WriteMark? {
      ConservedMark(v, s, step.t, step.now, id);
    } else {
      ConservedOther(v, s, step, id);
    }
  }

  // Only a create brings in a row.
  lemma SameRows(v: Vault, s: State, step: Step)
    requires Enabled(v, s, step) && !step.Create?
    ensures Apply(v, s, step).rows.Keys == s.rows.Keys
  {
  }

  lemma ConservedStep(v: Vault, s: State, step: Step, id: int)
    requires v.Sound() && Conserving(v, s) && Enabled(v, s, step)
    requires id in Apply(v, s, step).rows
    ensures Conserved(v, Apply(v, s, step), id)
  {
    if step.Create? || step.Rotate? {
      ConservedUpload(v, s, step, id);
    } else {
      ConservedUnlessUploaded(v, s, step, id);
    }
  }

  // --- Syncs of the next state ---

  lemma CurrentOwnCall(v: Vault, s: State, t: int, env: Env)
    requires Conserving(v, s) && Enabled(v, s, Call(t, env)) && t in Apply(v, s, Call(t, env)).syncs
    ensures Current(v, Apply(v, s, Call(t, env)), Apply(v, s, Call(t, env)).syncs[t])
  {
    assert Current(v, s, s.syncs[t]);
    CallDelivers(v, s, t, env);
  }

  lemma CurrentOtherCall(v: Vault, s: State, u: int, env: Env, t: int)
    requires Conserving(v, s) && Enabled(v, s, Call(u, env)) && t in s.syncs && t != u
    ensures Current(v, Apply(v, s, Call(u, env)), s.syncs[t])
  {
    var y := s.syncs[t];
    assert Current(v, s, y) && SyncKept(v, s, y);
    if y.Replied? && y.mark.ToSynced? {
      CallKeys(v, s, u, env, (y.snap.platformId, y.mark.remoteId));
    }
  }

  lemma CurrentArrive(v: Vault, s: State, q: Outgoing, newId: int, t: int)
    requires Conserving(v, s) && Enabled(v, s, Arrive(q, newId)) && t in s.syncs
    ensures Current(v, Apply(v, s, Arrive(q, newId)), s.syncs[t])
  {
    var y := s.syncs[t];
    assert Current(v, s, y) && SyncKept(v, s, y);
    if y.Replied? && y.mark.ToSynced? {
      assert MayRecord(y, y.mark.remoteId);
      ArriveKeys(v, s, q, newId, y.id, (y.snap.platformId, y.mark.remoteId));
    }
  }

  lemma CurrentLoad(v: Vault, s: State, u: int)
    requires Conserving(v, s) && Enabled(v, s, Load(u)) && u in Apply(v, s, Load(u)).syncs
    ensures Current(v, Apply(v, s, Load(u)), Apply(v, s, Load(u)).syncs[u])
  {
    assert Conserved(v, s, s.syncs[u].id);
  }

  lemma CurrentRotate(v: Vault, s: State, step: Step, t: int)
    requires Conserving(v, s) && Enabled(v, s, step) && step.Rotate? && RotationSafe(s, step.id, step.key)
    requires t in s.syncs
    ensures Current(v, Apply(v, s, step), s.syncs[t])
  {
    assert Current(v, s, s.syncs[t]);
  }

  // Steps that leave AGT alone, and every latest key but that of a new row.
  lemma CurrentOther(v: Vault, s: State, step: Step, y: Sync)
    requires Enabled(v, s, step) && Current(v, s, y) && y.id in s.rows
    requires !step.Call? && !step.Arrive? && !step.Rotate?
    ensures Current(v, Apply(v, s, step), y)
  {
  }

  lemma CurrentNew(v: Vault, s: State, step: Step, t: int)
    requires Conserving(v, s) && Enabled(v, s, step) && t in Apply(v, s, step).syncs && t !in s.syncs
    ensures Current(v, Apply(v, s, step), Apply(v, s, step).syncs[t])
  {
    OtherSync(v, s, step, t);
    if !step.Create? {
      assert Conserved(v, s, step.id);
    }
  }

  lemma CurrentStep(v: Vault, s: State, step: Step, t: int)
    requires v.Sound() && Conserving(v, s) && Enabled(v, s, step) && StepSafe(v, s, step)
    requires t in Apply(v, s, step).syncs
    ensures Current(v, Apply(v, s, step), Apply(v, s, step).syncs[t])
  {
    if t !in s.syncs {
      CurrentNew(v, s, step, t);
    } else if step.Call? && step.t == t {
      CurrentOwnCall(v, s, t, step.env);
    } else if step.Load? && step.t == t {
      CurrentLoad(v, s, t);
    } else {
      OtherSync(v, s, step, t);
      if step.Call? {
        CurrentOtherCall(v, s, step.t, step.env, t);
      } else if step.Arrive? {
        CurrentArrive(v, s, step.q, step.newId, t);
      } else if step.Rotate? {
        CurrentRotate(v, s, step, t);
      } else {
        assert Current(v, s, s.syncs[t]) && SyncKept(v, s, s.syncs[t]);
        CurrentOther(v, s, step, s.syncs[t]);
      }
    }
  }

  // --- Requests in transit of the next state ---

  // What may record a remote id after a step could do so before, or took the id from
  // the row, or got a fresh one.
  lemma MayRecordStep(v: Vault, s: State, step: Step, t: int, n: int)
    requires Kept(v, s) && Enabled(v, s, step) && t in Apply(v, s, step).syncs
    requires MayRecord(Apply(v, s, step).syncs[t], n)
    ensures t in s.syncs && Apply(v, s, step).syncs[t].id == s.syncs[t].id
    ensures || MayRecord(s.syncs[t], n)
            || (s.syncs[t].id in s.rows && s.rows[s.syncs[t].id].remoteId == n)
            || (s.syncs[t].Loaded? && (s.syncs[t].snap.platformId, n) !in s.remote)
  {
    if (step.Call? || step.Load?) && step.t == t {
      assert SyncKept(v, s, s.syncs[t]);
    } else {
      OtherSync(v, s, step, t);
    }
  }

  // A row takes a new remote id only from a sync that may record it.
  lemma RemoteIdStep(v: Vault, s: State, step: Step, id: int)
    requires Enabled(v, s, step) && id in s.rows
    ensures id in Apply(v, s, step).rows
    ensures var n := Apply(v, s, step).rows[id].remoteId;
            n == s.rows[id].remoteId
            || (step.WriteMark? && s.syncs[step.t].id == id && MayRecord(s.syncs[step.t], n))
  {
  }

  lemma AdriftStays(v: Vault, s: State, step: Step, q: Outgoing)
    requires Kept(v, s) && Enabled(v, s, step) && TransitKept(s, q) && Adrift(s, q)
    ensures Adrift(Apply(v, s, step), q)
  {
    var s', n := Apply(v, s, step), q.payload.id;
    if n != 0 {
      RemoteIdStep(v, s, step, q.maker);
      forall t | t in s'.syncs && s'.syncs[t].id == q.maker
        ensures !MayRecord(s'.syncs[t], n)
      {
        if MayRecord(s'.syncs[t], n) {
          MayRecordStep(v, s, step, t, n);
        }
      }
    }
  }

  // After a safe rotation to a new key the row's older keys in transit are adrift.
  lemma SafeRotationSetsAdrift(v: Vault, s: State, step: Step, q: Outgoing)
    requires Kept(v, s) && Enabled(v, s, step) && step.Rotate? && RotationSafe(s, step.id, step.key)
    requires q in s.transit && q.maker == step.id && q.payload.key != []
    requires s.uploaded[step.id] != step.key
    requires step.id in s.uploaded
    ensures Adrift(s, q)
  {
    assert TransitKept(s, q);
  }

  lemma TransitCurrentStep(v: Vault, s: State, step: Step, q: Outgoing)
    requires Conserving(v, s) && Enabled(v, s, step) && StepSafe(v, s, step)
    requires q in Apply(v, s, step).transit
    ensures TransitCurrent(Apply(v, s, step), q)
  {
    var s' := Apply(v, s, step);
    if q !in s.transit {
      NewInTransit(v, s, step, q);
      assert Current(v, s, s.syncs[step.t]) && SyncKept(v, s, s.syncs[step.t]);
    } else if q.payload.key != [] {
      assert TransitKept(s, q) && TransitCurrent(s, q) && RowKept(v, s, q.maker);
      if Adrift(s, q) {
        AdriftStays(v, s, step, q);
      } else if step.Rotate? && step.id == q.maker && s.uploaded[q.maker] != step.key {
        SafeRotationSetsAdrift(v, s, step, q);
      } else {
        UploadedStep(v, s, step, q.maker);
      }
    }
  }

  lemma UploadedStep(v: Vault, s: State, step: Step, id: int)
    requires Enabled(v, s, step) && id in s.rows && id in s.uploaded
    requires step.Rotate? && step.id == id ==> s.uploaded[id] == step.key
    ensures id in Apply(v, s, step).uploaded && Apply(v, s, step).uploaded[id] == s.uploaded[id]
  {
  }

  lemma ConservingStep(v: Vault, s: State, step: Step)
    requires v.Sound() && Conserving(v, s) && StepSafe(v, s, step)
    ensures Conserving(v, Next(v, s, step))
  {
    KeptStep(v, s, step);
    if Enabled(v, s, step) {
      var s' := Apply(v, s, step);
      forall id | id in s'.rows
        ensures Conserved(v, s', id)
      {
        ConservedStep(v, s, step, id);
      }
      forall t | t in s'.syncs
        ensures Current(v, s', s'.syncs[t])
      {
        CurrentStep(v, s, step, t);
      }
      forall q | q in s'.transit
        ensures TransitCurrent(s', q)
      {
        TransitCurrentStep(v, s, step, q);
      }
    }
  }

  lemma {:induction false} ConservingRun(v: Vault, s: State, steps: seq<Step>)
    requires v.Sound() && Conserving(v, s) && RunSafe(v, s, steps)
    ensures Conserving(v, Run(v, s, steps))
    decreases |steps|
  {
    if steps != [] {
      ConservingStep(v, s, steps[0]);
      ConservingRun(v, Next(v, s, steps[0]), steps[1..]);
    }
  }

  // Main theorem. In every interleaving of creates, edits, deletes and overlapping
  // syncs with any failures, requests that take effect long after their client gave
  // them up included, if every rotation is safe when it commits, the latest key of
  // every row is still sealed locally or held by AGT under its remote id.
  lemma NoKeyIsLost(v: Vault, steps: seq<Step>)
    requires v.Sound() && RunSafe(v, Start, steps)
    ensures var s := Run(v, Start, steps); forall id :: id in s.rows ==> Conserved(v, s, id)
  {
    ConservingRun(v, Start, steps);
  }

  // A key is wiped only once AGT holds the row's latest key under the id recorded.
  lemma WipedKeyWasPublished(v: Vault, s: State, step: Step, id: int)
    requires v.Sound() && Conserving(v, s) && StepSafe(v, s, step)
    requires id in s.rows && s.rows[id].encKey != [] && Next(v, s, step).rows[id].encKey == []
    ensures step.WriteMark? && s.syncs[step.t].mark.ToSynced?
    ensures var c := Next(v, s, step).rows[id];
            (c.platformId, c.remoteId) in s.remote && s.remote[(c.platformId, c.remoteId)].key == s.uploaded[id]
  {
    OnlyMarksWipe(v, s, step, id);
    assert Current(v, s, s.syncs[step.t]) && SyncKept(v, s, s.syncs[step.t]);
  }

  lemma OnlyMarksWipe(v: Vault, s: State, step: Step, id: int)
    requires v.Sound() && id in s.rows && s.rows[id].encKey != [] && Next(v, s, step).rows[id].encKey == []
    ensures Enabled(v, s, step) && step.WriteMark?
    ensures s.syncs[step.t].id == id && s.syncs[step.t].mark.ToSynced? && Live(s.rows, id)
  {
    if step.Rotate? && Enabled(v, s, step) { v.OpenSeal(step.nonce, step.key); }
  }

  // --- The hypothesis is exactly what is needed ---

  predicate RotationFree(steps: seq<Step>) { forall i :: 0 <= i < |steps| ==> !steps[i].Rotate? }

  lemma {:induction false} RotationFreeIsSafe(v: Vault, s: State, steps: seq<Step>)
    requires RotationFree(steps)
    ensures RunSafe(v, s, steps)
    decreases |steps|
  {
    if steps != [] {
      RotationFreeIsSafe(v, Next(v, s, steps[0]), steps[1..]);
    }
  }

  // A mark that records an entry holding some other key loses the latest key.
  lemma StaleMarkLosesKey(v: Vault, s: State, t: int, now: int)
    requires t in s.syncs && s.syncs[t].Replied? && s.syncs[t].mark.ToSynced?
    requires Live(s.rows, s.syncs[t].id) && s.syncs[t].id in s.uploaded
    requires var y := s.syncs[t]; var r := (s.rows[y.id].platformId, y.mark.remoteId);
             r in s.remote && s.remote[r].key != s.uploaded[y.id]
    ensures !Conserved(v, Run(v, s, [WriteMark(t, now)]), s.syncs[t].id)
  {
    RunOne(v, s, WriteMark(t, now));
  }

  // A key-carrying sync can always finish its call with success, leaving AGT with
  // exactly the key of its snapshot and the row untouched.
  lemma CallCanSucceed(v: Vault, s: State, t: int)
    returns (env: Env)
    requires t in s.syncs && s.syncs[t].Loaded? && s.syncs[t].snap.HasRecoverableKey()
    requires var c := s.syncs[t].snap;
             && v.Open(c.encKey).Ok? && v.Open(c.encKey).value != []
             && (c.remoteId != 0 ==> (c.platformId, c.remoteId) in s.remote)
    ensures Enabled(v, s, Call(t, env))
    ensures var s', y := Next(v, s, Call(t, env)), s.syncs[t];
            && s'.rows == s.rows && s'.uploaded == s.uploaded && s'.transit == s.transit
            && t in s'.syncs && s'.syncs[t].Replied? && s'.syncs[t].id == y.id
            && s'.syncs[t].snap == y.snap && s'.syncs[t].mark.ToSynced?
            && (y.snap.remoteId != 0 ==> s'.syncs[t].mark.remoteId == y.snap.remoteId)
            && var r := (y.snap.platformId, s'.syncs[t].mark.remoteId);
               r in s'.remote && s'.remote[r].key == v.Open(y.snap.encKey).value
  {
    var newId := FreshIdExists(s.remote, s.syncs[t].snap.platformId);
    env := Answer(Success(newId));
  }

  // After a rotation that meets a key-carrying sync, that sync can finish and wipe the
  // new key unsent: one successful call (if still owed) and one mark.
  lemma CarriedKeyLosesKey(v: Vault, s: State, rotate: Step, t: int)
    returns (after: seq<Step>)
    requires v.Sound() && Conserving(v, s) && rotate.Rotate? && Enabled(v, s, rotate)
    requires t in s.syncs && s.syncs[t].id == rotate.id && CarriesKey(s.syncs[t])
    requires rotate.id in s.uploaded && s.uploaded[rotate.id] != rotate.key
    ensures RotationFree(after) && !Conserved(v, Run(v, Next(v, s, rotate), after), rotate.id)
  {
    assert SyncKept(v, s, s.syncs[t]) && Current(v, s, s.syncs[t]);
    var s1 := Next(v, s, rotate);
    assert s1.syncs == s.syncs && s1.remote == s.remote && s1.uploaded[rotate.id] == rotate.key;
    if s1.syncs[t].Replied? {
      after := [WriteMark(t, 0)];
      StaleMarkLosesKey(v, s1, t, 0);
    } else {
      var env := CallCanSucceed(v, s1, t);
      StaleMarkLosesKey(v, Next(v, s1, Call(t, env)), t, 0);
      RunTwo(v, s1, Call(t, env), WriteMark(t, 0));
      after := [Call(t, env), WriteMark(t, 0)];
    }
  }

  // A sync of a published row can run to the end, and then one of the requests in
  // transit to the row's entry arrives.
  function SyncThenArrival(id: int, t: int, q: Outgoing): seq<Step> {
    [Dispatch(id, t), Load(t), Call(t, Answer(Success(0))), WriteMark(t, 0), Arrive(q, 0)]
  }

  lemma FreshTag(s: State) returns (t: int)
    ensures t !in s.syncs
  {
    var refs := set u | u in s.syncs :: (0, u);
    t := IdBound(refs);
    assert t in s.syncs ==> (0, t) in refs;
  }

  // A sync that has just loaded a published row can succeed, and then record the id.
  lemma LoadedPublishes(v: Vault, s: State, t: int)
    requires t in s.syncs && s.syncs[t].Loaded? && Live(s.rows, s.syncs[t].id)
    requires s.syncs[t].snap == s.rows[s.syncs[t].id] && WellKept(v, s.remote, s.syncs[t].id, s.syncs[t].snap)
    requires s.syncs[t].snap.remoteId != 0
    ensures var s', y := Next(v, s, Call(t, Answer(Success(0)))), s.syncs[t];
            var c := y.snap;
            && s'.rows == s.rows && s'.transit == s.transit && s'.uploaded == s.uploaded
            && (c.platformId, c.remoteId) in s'.remote
            && t in s'.syncs
            && s'.syncs[t] == Replied(y.id, c, if c.HasRecoverableKey() then ToSynced(c.remoteId) else ToMetadataSynced)
  {
  }

  lemma MarkPublishes(v: Vault, s: State, t: int)
    requires t in s.syncs && s.syncs[t].Replied? && Live(s.rows, s.syncs[t].id)
    requires var c := s.rows[s.syncs[t].id];
             && (c.keyState == Synced ==> c.encKey == [])
             && s.syncs[t].mark == if c.HasRecoverableKey() then ToSynced(c.remoteId) else ToMetadataSynced
    ensures var s', id := Next(v, s, WriteMark(t, 0)), s.syncs[t].id;
            && JustPublished(s', id) && s'.rows[id].remoteId == s.rows[id].remoteId
            && s'.rows[id].platformId == s.rows[id].platformId && Meta(s'.rows[id]) == Meta(s.rows[id])
            && s'.remote == s.remote && s'.transit == s.transit && s'.uploaded == s.uploaded
  {
  }

  predicate JustPublished(s: State, id: int) {
    Live(s.rows, id) && s.rows[id].syncStatus == 1 && s.rows[id].encKey == []
  }

  // The state in which a published row has been synced once more.
  lemma PublishedAgain(v: Vault, s: State, id: int, t: int)
    requires Kept(v, s) && Live(s.rows, id) && s.rows[id].remoteId != 0 && t !in s.syncs
    ensures var s' := Run(v, s, [Dispatch(id, t), Load(t), Call(t, Answer(Success(0))), WriteMark(t, 0)]);
            && JustPublished(s', id) && s'.rows[id].remoteId == s.rows[id].remoteId
            && s'.rows[id].platformId == s.rows[id].platformId && Meta(s'.rows[id]) == Meta(s.rows[id])
            && (s.rows[id].platformId, s.rows[id].remoteId) in s'.remote
            && s'.transit == s.transit && s'.uploaded == s.uploaded
  {
    assert RowKept(v, s, id);
    RunAppend(v, s, [Dispatch(id, t), Load(t)], [Call(t, Answer(Success(0))), WriteMark(t, 0)]);
    var s1 := DispatchedAndLoaded(v, s, id, t);
    RunTwo(v, s1, Call(t, Answer(Success(0))), WriteMark(t, 0));
    LoadedPublishes(v, s1, t);
    MarkPublishes(v, Next(v, s1, Call(t, Answer(Success(0)))), t);
  }

  lemma DispatchedAndLoaded(v: Vault, s: State, id: int, t: int) returns (s1: State)
    requires Live(s.rows, id) && t !in s.syncs
    ensures s1 == Run(v, s, [Dispatch(id, t), Load(t)]) == s.(syncs := s.syncs[t := Loaded(id, s.rows[id])])
  {
    RunTwo(v, s, Dispatch(id, t), Load(t));
    s1 := Run(v, s, [Dispatch(id, t), Load(t)]);
  }

  // Once the row's key is published, a request in transit to its entry overwrites it.
  lemma ArrivalOverwrites(v: Vault, s: State, id: int, t: int, q: Outgoing)
    requires Kept(v, s) && Live(s.rows, id) && t !in s.syncs
    requires q in s.transit && q.maker == id && Lands(s, q)
    ensures var s' := Run(v, s, SyncThenArrival(id, t, q));
            && JustPublished(s', id) && Meta(s'.rows[id]) == Meta(s.rows[id]) && s'.uploaded == s.uploaded
            && var r := (s'.rows[id].platformId, s'.rows[id].remoteId);
               && r in s'.remote && s'.remote[r].meta == q.payload.meta
               && (q.payload.key != [] ==> s'.remote[r].key == q.payload.key)
  {
    assert TransitKept(s, q);
    var front := [Dispatch(id, t), Load(t), Call(t, Answer(Success(0))), WriteMark(t, 0)];
    PublishedAgain(v, s, id, t);
    var s1 := Run(v, s, front);
    assert SyncThenArrival(id, t, q) == front + [Arrive(q, 0)];
    RunAppend(v, s, front, [Arrive(q, 0)]);
    RunOne(v, s1, Arrive(q, 0));
    LandWrites(s1.remote, q, 0);
  }

  // After an unsafe rotation some continuation without rotations loses the new key.
  lemma UnsafeRotationLosesKey(v: Vault, s: State, rotate: Step)
    returns (after: seq<Step>)
    requires v.Sound() && Conserving(v, s) && rotate.Rotate? && Enabled(v, s, rotate)
    requires !RotationSafe(s, rotate.id, rotate.key)
    ensures RotationFree(after)
    ensures !Conserved(v, Run(v, Next(v, s, rotate), after), rotate.id)
  {
    var id := rotate.id;
    assert RowKept(v, s, id);
    if t :| t in s.syncs && s.syncs[t].id == id && CarriesKey(s.syncs[t]) {
      after := CarriedKeyLosesKey(v, s, rotate, t);
    } else {
      var q :| q in s.transit && q.maker == id && q.payload.key != [] && Lands(s, q);
      after := KeyInTransitLosesKey(v, s, rotate, q);
    }
  }

  lemma KeyInTransitLosesKey(v: Vault, s: State, rotate: Step, q: Outgoing)
    returns (after: seq<Step>)
    requires v.Sound() && Conserving(v, s) && rotate.Rotate? && Enabled(v, s, rotate)
    requires q in s.transit && q.maker == rotate.id && q.payload.key != [] && Lands(s, q)
    requires rotate.id in s.uploaded && s.uploaded[rotate.id] != rotate.key
    ensures RotationFree(after) && !Conserved(v, Run(v, Next(v, s, rotate), after), rotate.id)
  {
    var s1 := Next(v, s, rotate);
    KeptStep(v, s, rotate);
    assert TransitCurrent(s, q) && q.payload.key == s.uploaded[rotate.id];
    var t := FreshTag(s1);
    after := SyncThenArrival(rotate.id, t, q);
    ArrivalOverwrites(v, s1, rotate.id, t, q);
  }

  // Rotating a row is harmless in every continuation without further rotations if
  // and only if the rotation is safe at the moment it commits.
  lemma RotationSafeExactly(v: Vault, s: State, rotate: Step)
    requires v.Sound() && Conserving(v, s) && rotate.Rotate? && Enabled(v, s, rotate)
    ensures RotationSafe(s, rotate.id, rotate.key) <==>
              forall after: seq<Step> :: RotationFree(after) ==>
                Conserved(v, Run(v, Next(v, s, rotate), after), rotate.id)
  {
    if RotationSafe(s, rotate.id, rotate.key) {
      ConservingStep(v, s, rotate);
      forall after: seq<Step> | RotationFree(after)
        ensures Conserved(v, Run(v, Next(v, s, rotate), after), rotate.id)
      {
        RotationFreeIsSafe(v, Next(v, s, rotate), after);
        ConservingRun(v, Next(v, s, rotate), after);
        RemoteIdStays(v, Next(v, s, rotate), after, rotate.id);
      }
    } else {
      var after := UnsafeRotationLosesKey(v, s, rotate);
    }
  }
}
