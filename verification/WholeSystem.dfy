// Handlers and background syncs together: one store, any interleaving.
module WholeSystem {
  import opened Prelude
  import opened Vaults
  import opened ChannelRows
  import opened KeyConservation
  import opened Agreement
  import opened KeyHistory
  import opened Registry
  import opened Integrity
  import opened Refinement
  import P = Protocol

  // The database, and the protocol state whose channel table it shares.
  datatype World = World(store: Store, keys: P.State)

  const Fresh := World(Empty, P.Start)

  datatype Event =
    | Ask(request: Request, t: int)
    | Background(step: P.Step)

  predicate Possible(w: World, e: Event) {
    match e
    case Ask(r, t) =>
      t !in w.keys.syncs && !r.SyncMark?
      && (r.CreateChannel? || r.UpdateChannel? ==> |r.nonce| == NONCE_SIZE)
    case Background(step) => step.Load? || step.Call? || step.WriteMark? || step.Drop? || step.Arrive?
  }

  // The protocol steps an event stands for.
  function Steps(v: Vault, w: World, e: Event): seq<P.Step> {
    match e
    case Ask(r, t) => StepsOf(v, w.store, r, t)
    case Background(step) => [step]
  }

  function Advance(v: Vault, w: World, e: Event): World {
    if !Possible(w, e) then w
    else
      var keys := P.Run(v, w.keys, Steps(v, w, e));
      match e
      case Ask(r, _) => World(After(v, w.store, r), keys)
      case Background(_) => World(w.store.(channels := keys.rows), keys)
  }

  function Evolve(v: Vault, w: World, es: seq<Event>): World
    decreases |es|
  {
    if es == [] then w else Evolve(v, Advance(v, w, es[0]), es[1..])
  }

  ghost predicate Sane(w: World) {
    && w.keys.rows == w.store.channels
    && Intact(w.store) && Numbered(w.store.channels) && ModelsNormal(w.store.channels)
  }

  // A sync step is, for the store, nothing or one mark.
  lemma BackgroundIsMark(v: Vault, w: World, step: P.Step)
    requires Possible(w, Background(step)) && w.keys.rows == w.store.channels
    ensures var after := Advance(v, w, Background(step)).store;
            after == w.store || exists id, m, now :: after == After(v, w.store, SyncMark(id, m, now))
  {
    P.RunOne(v, w.keys, step);
    if step.WriteMark? && P.Enabled(v, w.keys, step) {
      var y := w.keys.syncs[step.t];
      assert Advance(v, w, Background(step)).store == After(v, w.store, SyncMark(y.id, y.mark, step.now));
    } else {
      assert P.Next(v, w.keys, step).rows == w.keys.rows;
      assert w.store.(channels := w.store.channels) == w.store;
    }
  }

  lemma RequestStaysSane(v: Vault, s: Store, r: Request)
    requires Intact(s) && Numbered(s.channels) && ModelsNormal(s.channels)
    ensures var s' := After(v, s, r); Intact(s') && Numbered(s'.channels) && ModelsNormal(s'.channels)
  {
    GrantsStep(v, s, r);
    ChannelsStep(v, s, r);
    NumberedStep(v, s, r);
    ModelsStep(v, s, r);
  }

  lemma SaneStep(v: Vault, w: World, e: Event)
    requires Sane(w)
    ensures Sane(Advance(v, w, e))
  {
    if Possible(w, e) {
      match e
      case Ask(r, t) =>
        RequestRefinesProtocol(v, w.store, w.keys, r, t);
        RequestStaysSane(v, w.store, r);
      case Background(step) =>
        BackgroundIsMark(v, w, step);
        var after := Advance(v, w, e).store;
        if after != w.store {
          var id, m, now :| after == After(v, w.store, SyncMark(id, m, now));
          RequestStaysSane(v, w.store, SyncMark(id, m, now));
        }
    }
  }

  // Every rotation the events bring is safe when it commits.
  ghost predicate EventsSafe(v: Vault, w: World, es: seq<Event>)
    decreases |es|
  {
    es != [] ==>
      && (Possible(w, es[0]) ==> RunSafe(v, w.keys, Steps(v, w, es[0])))
      && EventsSafe(v, Advance(v, w, es[0]), es[1..])
  }

  // No edit or rotation the events bring meets a sync, or a request given up on, that
  // may still succeed.
  ghost predicate EventsApart(v: Vault, w: World, es: seq<Event>)
    decreases |es|
  {
    es != [] ==>
      && (Possible(w, es[0]) ==> RunApart(v, w.keys, Steps(v, w, es[0])))
      && EventsApart(v, Advance(v, w, es[0]), es[1..])
  }

  lemma {:induction false} EvolveSane(v: Vault, w: World, es: seq<Event>)
    requires Sane(w)
    ensures Sane(Evolve(v, w, es))
    decreases |es|
  {
    if es != [] {
      SaneStep(v, w, es[0]);
      EvolveSane(v, Advance(v, w, es[0]), es[1..]);
    }
  }

  lemma {:induction false} EvolveConserving(v: Vault, w: World, es: seq<Event>)
    requires v.Sound() && Conserving(v, w.keys) && EventsSafe(v, w, es)
    ensures Conserving(v, Evolve(v, w, es).keys)
    decreases |es|
  {
    if es != [] {
      if Possible(w, es[0]) {
        ConservingRun(v, w.keys, Steps(v, w, es[0]));
      }
      EvolveConserving(v, Advance(v, w, es[0]), es[1..]);
    }
  }

  lemma {:induction false} EvolveAgreeing(v: Vault, w: World, es: seq<Event>)
    requires v.Sound() && Agreeing(v, w.keys) && EventsApart(v, w, es)
    ensures Agreeing(v, Evolve(v, w, es).keys)
    decreases |es|
  {
    if es != [] {
      if Possible(w, es[0]) {
        AgreeingRun(v, w.keys, Steps(v, w, es[0]));
      }
      EvolveAgreeing(v, Advance(v, w, es[0]), es[1..]);
    }
  }

  // Main theorem. In every interleaving of admin and supplier requests with background
  // syncs, whatever AGT answers and wherever cascades and syncs break off: references,
  // names and stored models stay as the handlers promise. If every key rotation is safe
  // when it commits, the latest key of every channel row is sealed in the database or
  // held by AGT under the row's remote id. If moreover every edit and rotation is apart
  // from syncs still able to succeed, every row marked in sync agrees with AGT.
  lemma EndToEnd(v: Vault, es: seq<Event>)
    requires v.Sound()
    ensures var w := Evolve(v, Fresh, es);
            && w.keys.rows == w.store.channels
            && Intact(w.store) && Numbered(w.store.channels) && ModelsNormal(w.store.channels)
            && (EventsSafe(v, Fresh, es) ==> forall id :: id in w.store.channels ==> Conserved(v, w.keys, id))
            && (EventsApart(v, Fresh, es) ==> forall id :: id in w.store.channels ==> Agrees(v, w.keys, id))
  {
    EvolveSane(v, Fresh, es);
    if EventsSafe(v, Fresh, es) {
      EvolveConserving(v, Fresh, es);
    }
    if EventsApart(v, Fresh, es) {
      EvolveAgreeing(v, Fresh, es);
    }
  }

  // --- What a deletion does to a sealed key ---

  lemma {:induction false} EvolveKept(v: Vault, w: World, es: seq<Event>)
    requires v.Sound() && Kept(v, w.keys)
    ensures Kept(v, Evolve(v, w, es).keys)
    decreases |es|
  {
    if es != [] {
      if Possible(w, es[0]) {
        KeptRun(v, w.keys, Steps(v, w, es[0]));
      }
      EvolveKept(v, Advance(v, w, es[0]), es[1..]);
    }
  }

  lemma {:induction false} DeletedRowStays(v: Vault, w: World, es: seq<Event>, id: int)
    requires Sane(w) && id in w.store.channels && w.store.channels[id].deleted
    ensures var rows := Evolve(v, w, es).store.channels; id in rows && rows[id] == w.store.channels[id]
    decreases |es|
  {
    if es != [] {
      SaneStep(v, w, es[0]);
      if Possible(w, es[0]) {
        DeletedRowFrozen(v, w.keys, Steps(v, w, es[0]), id);
      }
      DeletedRowStays(v, Advance(v, w, es[0]), es[1..], id);
    }
  }

  // The request deletes the row: its owner's cascade gets as far as the channels, or
  // its owner deletes it.
  predicate Deletes(s: Store, r: Request, id: int) {
    && id in s.channels
    && ((r.DeleteUser? && r.stop >= 2 && s.channels[id].userId == r.id)
        || (r.DeleteChannel? && r.id == id && OwnedLive(s, r.userId, id)))
  }

  lemma DeletionMarksRow(v: Vault, s: Store, r: Request, id: int)
    requires Deletes(s, r, id)
    ensures id in After(v, s, r).channels
    ensures After(v, s, r).channels[id] == s.channels[id].(deleted := true)
  {
    if r.DeleteUser? {
      AdminAfter(v, s, r);
      CascadeRows(s, r.id, r.stop);
    } else {
      DeleteAfter(v, s, r);
    }
  }

  // Main theorem. Deleting a user or a channel deletes no sealed key: after any run, and
  // in every continuation, a deleted row has no sealed key if and only if its key had
  // been wiped before; otherwise the blob in the row still opens to the latest key.
  lemma DeletionKeepsSealedKey(v: Vault, before: seq<Event>, r: Request, t: int, after: seq<Event>, id: int)
    requires v.Sound()
    requires var w := Evolve(v, Fresh, before); Possible(w, Ask(r, t)) && Deletes(w.store, r, id)
    ensures var w := Evolve(v, Fresh, before);
            var rows := Evolve(v, Advance(v, w, Ask(r, t)), after).store.channels;
            && id in rows && rows[id].deleted
            && (rows[id].encKey == [] <==> w.store.channels[id].encKey == [])
            && (rows[id].encKey != [] ==>
                  id in w.keys.uploaded && v.Open(rows[id].encKey) == Ok(w.keys.uploaded[id]))
  {
    var w := Evolve(v, Fresh, before);
    EvolveSane(v, Fresh, before);
    EvolveKept(v, Fresh, before);
    assert RowKept(v, w.keys, id);
    DeletionMarksRow(v, w.store, r, id);
    var w1 := Advance(v, w, Ask(r, t));
    SaneStep(v, w, Ask(r, t));
    assert w1.store.channels[id] == w.store.channels[id].(deleted := true);
    DeletedRowStays(v, w1, after, id);
  }
}
