// Runs of requests and background steps, from the empty store, that show each of the
// exact conditions can fail in practice.
module Witnesses {
  import opened Prelude
  import opened Text
  import opened Vaults
  import opened Catalog
  import opened Whitelist
  import opened ChannelRows
  import opened Names
  import opened Agt
  import opened Registry
  import opened Integrity
  import opened Limits
  import opened Refinement
  import opened WholeSystem
  import opened KeyConservation
  import opened SyncWorker
  import P = Protocol

  // --- A store in which one supplier may upload to one platform ---

  const SUPPLIER := User("s", ROLE_SUPPLIER, Catalog.STATUS_ENABLED)
  const PLATFORM := Platform("p", "u", Catalog.STATUS_ENABLED, "", [PlatformGroup("g", 1, false)], [], [], [])
  const GRANT := Grant(1, 1, [], [], [], 0, Catalog.STATUS_ENABLED)

  const SETUP: seq<Event> := [
    Ask(Request.CreateUser(1, "s", 8, ROLE_SUPPLIER), 0),
    Ask(Request.CreatePlatform(1, PLATFORM, true), 0),
    Ask(Request.UpsertGrant(1, GRANT), 0)]

  function Stocked(rows: Rows, n: nat): Store {
    Store(map[1 := SUPPLIER], map[1 := PLATFORM], map[1 := GRANT], rows, n)
  }

  // The world that runs of the events `es` from nothing lead to: the stocked store with
  // the channel table of `keys`, of which n - 1 ids are used.
  ghost predicate LeadsTo(v: Vault, es: seq<Event>, n: nat, keys: P.State) {
    Evolve(v, Fresh, es) == World(Stocked(keys.rows, n), keys)
  }

  lemma {:induction false} EvolveAppend(v: Vault, w: World, a: seq<Event>, e: Event)
    ensures Evolve(v, w, a + [e]) == Advance(v, Evolve(v, w, a), e)
    decreases |a|
  {
    if a == [] {
      assert a + [e] == [e] && [e][1..] == [];
    } else {
      assert (a + [e])[1..] == a[1..] + [e];
      EvolveAppend(v, Advance(v, w, a[0]), a[1..], e);
    }
  }

  lemma UserCreated(v: Vault)
    ensures Handle(v, Empty, SETUP[0].request).0 == Empty.(users := map[1 := SUPPLIER])
  {
  }

  lemma PlatformCreated(v: Vault)
    ensures var s := Empty.(users := map[1 := SUPPLIER]);
            Handle(v, s, SETUP[1].request).0 == s.(platforms := map[1 := PLATFORM])
  {
  }

  lemma GrantCreated(v: Vault)
    ensures var s := Empty.(users := map[1 := SUPPLIER], platforms := map[1 := PLATFORM]);
            Handle(v, s, SETUP[2].request).0 == Stocked(map[], 1)
  {
    var s := Empty.(users := map[1 := SUPPLIER], platforms := map[1 := PLATFORM]);
    assert GrantIds(s, 1, 1) == {};
  }

  lemma SetupDone(v: Vault)
    ensures LeadsTo(v, SETUP, 1, P.Start)
  {
    UserCreated(v);
    PlatformCreated(v);
    GrantCreated(v);
    var w1 := Advance(v, Fresh, SETUP[0]);
    var w2 := Advance(v, w1, SETUP[1]);
    var w3 := Advance(v, w2, SETUP[2]);
    assert w1 == World(Empty.(users := map[1 := SUPPLIER]), P.Start);
    assert w3 == World(Stocked(map[], 1), P.Start);
    assert SETUP == [SETUP[0]] + [SETUP[1]] + [SETUP[2]];
    EvolveAppend(v, Fresh, [], SETUP[0]);
    EvolveAppend(v, Fresh, [SETUP[0]], SETUP[1]);
    EvolveAppend(v, Fresh, [SETUP[0]] + [SETUP[1]], SETUP[2]);
    assert [] + [SETUP[0]] == [SETUP[0]];
  }

  // --- What the whitelist makes of the models used here ---

  lemma OneModel(m: string)
    requires m == "m" || m == "n"
    ensures Normalized(Split(m, ',')) == [m] && StoredCsv(m) == m
  {
    assert Split(m, ',') == [m] by { SplitHead(m, "", ','); }
    assert TrimSpace(m) == m;
    assert [m][..0] == [];
  }

  lemma ModelAccepted(m: string)
    requires m == "m" || m == "n"
    ensures Upload(ChannelInput(1, Split(m, ','), "g"), PLATFORM, Some(GRANT)) == Ok(Accepted(m, "g"))
  {
    OneModel(m);
    assert TrimSpace("g") == "g";
  }

  lemma Allowed(rows: Rows, n: nat)
    ensures Authorize(Stocked(rows, n), 1, 1) == Ok((PLATFORM, GRANT))
    ensures PLATFORM.GroupForType(1) == Some(PlatformGroup("g", 1, false))
  {
    assert EnabledGrantIds(Stocked(rows, n), 1, 1) == {1};
  }

  // --- Events on the stocked store ---

  lemma LeadsBackground(v: Vault, es: seq<Event>, n: nat, keys: P.State, step: P.Step)
    requires LeadsTo(v, es, n, keys)
    requires step.Load? || step.Call? || step.WriteMark? || step.Drop? || step.Arrive?
    ensures LeadsTo(v, es + [Background(step)], n, P.Next(v, keys, step))
  {
    EvolveAppend(v, Fresh, es, Background(step));
    P.RunOne(v, keys, step);
  }

  function UploadOf(key: string, nonce: Bytes): Request {
    Request.CreateChannel(1, "s", 1, 1, key, "m", nonce, 0)
  }

  lemma UploadPasses(v: Vault, rows: Rows, n: nat, key: string, nonce: Bytes)
    requires TrimSpace(key) != "" && !FingerprintExists(rows, 1, 1, v.digest(Utf8(key)))
    ensures CheckUpload(v, Stocked(rows, n), UploadOf(key, nonce)) == Ok(Accepted("m", "g"))
  {
    Allowed(rows, n);
    ModelAccepted("m");
  }

  lemma UploadSteps(v: Vault, s: Store, key: string, nonce: Bytes, t: int) returns (name: string)
    requires CheckUpload(v, s, UploadOf(key, nonce)) == Ok(Accepted("m", "g"))
    ensures StepsOf(v, s, UploadOf(key, nonce), t)
            == [P.Create(s.nextChannel, t, 1, 1, name, 1, Utf8(key), nonce, "m", "g", 0)]
  {
    InsertTable(v, s, UploadOf(key, nonce));
    name := NewRow(v, s, UploadOf(key, nonce), Accepted("m", "g")).name;
  }

  lemma AfterUpload(v: Vault, rows: Rows, n: nat, r: Request)
    requires Inserts(v, Stocked(rows, n), r)
    ensures After(v, Stocked(rows, n), r) == Stocked(After(v, Stocked(rows, n), r).channels, n + 1)
  {
    InsertTable(v, Stocked(rows, n), r);
  }

  lemma LeadsIntact(v: Vault, es: seq<Event>, n: nat, keys: P.State)
    requires LeadsTo(v, es, n, keys)
    ensures IdsIntact(Stocked(keys.rows, n))
  {
    EvolveSane(v, Fresh, es);
  }

  // A request on the stocked store, given its protocol steps.
  lemma LeadsAsk(v: Vault, es: seq<Event>, n: nat, keys: P.State, r: Request, t: int, steps: seq<P.Step>, n': nat)
    requires LeadsTo(v, es, n, keys) && Possible(World(Stocked(keys.rows, n), keys), Ask(r, t))
    requires StepsOf(v, Stocked(keys.rows, n), r, t) == steps
    requires After(v, Stocked(keys.rows, n), r) == Stocked(P.Run(v, keys, steps).rows, n')
    ensures LeadsTo(v, es + [Ask(r, t)], n', P.Run(v, keys, steps))
  {
    EvolveAppend(v, Fresh, es, Ask(r, t));
  }

  lemma LeadsUpload(v: Vault, es: seq<Event>, n: nat, keys: P.State, key: string, nonce: Bytes, t: int)
    returns (name: string)
    requires LeadsTo(v, es, n, keys) && TrimSpace(key) != "" && |nonce| == NONCE_SIZE && t !in keys.syncs
    requires !FingerprintExists(keys.rows, 1, 1, v.digest(Utf8(key)))
    ensures LeadsTo(v, es + [Ask(UploadOf(key, nonce), t)], n + 1,
                    P.Next(v, keys, P.Create(n, t, 1, 1, name, 1, Utf8(key), nonce, "m", "g", 0)))
  {
    var s, r := Stocked(keys.rows, n), UploadOf(key, nonce);
    UploadPasses(v, keys.rows, n, key, nonce);
    name := UploadSteps(v, s, key, nonce, t);
    LeadsIntact(v, es, n, keys);
    CreateRefines(v, s, keys, r, t);
    AfterUpload(v, keys.rows, n, r);
    var step := P.Create(n, t, 1, 1, name, 1, Utf8(key), nonce, "m", "g", 0);
    P.RunOne(v, keys, step);
    LeadsAsk(v, es, n, keys, r, t, [step], n + 1);
  }

  function UpdateOf(id: int, key: string, models: string, nonce: Bytes): Request {
    Request.UpdateChannel(1, id, key, models, nonce, 0)
  }

  // A row of the supplier, on the platform, with the model it was uploaded with.
  predicate Uploaded1(rows: Rows, id: int) {
    && Live(rows, id) && rows[id].userId == 1 && rows[id].platformId == 1 && rows[id].kind == 1
    && rows[id].models == "m"
  }

  lemma UpdatePasses(rows: Rows, n: nat, id: int, key: string, models: string, nonce: Bytes)
    requires Uploaded1(rows, id) && (models == "" || models == "n")
    ensures CheckUpdate(Stocked(rows, n), UpdateOf(id, key, models, nonce))
            == Ok(Accepted(if models == "" then "m" else "n", "g"))
  {
    Allowed(rows, n);
    ModelAccepted(if models == "" then "m" else "n");
  }

  function EditOf(rows: Rows, id: int, models: string): P.Step
    requires id in rows
  {
    P.Edit(id, rows[id].name, "", if models == "" then "m" else "n", "g", 0)
  }

  function StepsOfUpdate(rows: Rows, id: int, key: string, models: string, nonce: Bytes, t: int): seq<P.Step>
    requires id in rows
  {
    var edit := EditOf(rows, id, models);
    if TrimSpace(key) == "" then [edit, P.Dispatch(id, t)]
    else [edit, P.Rotate(id, Utf8(key), nonce, 0), P.Dispatch(id, t)]
  }

  lemma UpdateStepsAre(v: Vault, rows: Rows, n: nat, id: int, key: string, models: string, nonce: Bytes, t: int)
    requires Uploaded1(rows, id) && (models == "" || models == "n")
    ensures StepsOf(v, Stocked(rows, n), UpdateOf(id, key, models, nonce), t)
            == StepsOfUpdate(rows, id, key, models, nonce, t)
  {
    UpdatePasses(rows, n, id, key, models, nonce);
  }

  lemma AfterUpdate(v: Vault, rows: Rows, n: nat, id: int, key: string, models: string, nonce: Bytes)
    requires Uploaded1(rows, id) && (models == "" || models == "n")
    ensures var s' := After(v, Stocked(rows, n), UpdateOf(id, key, models, nonce)); s' == Stocked(s'.channels, n)
  {
    UpdatePasses(rows, n, id, key, models, nonce);
    UpdateAfter(v, Stocked(rows, n), UpdateOf(id, key, models, nonce));
  }

  lemma UpdateOutcome(v: Vault, keys: P.State, n: nat, id: int, key: string, models: string, nonce: Bytes, t: int)
    requires Uploaded1(keys.rows, id) && (models == "" || models == "n")
    requires |nonce| == NONCE_SIZE && t !in keys.syncs
    ensures var s, r := Stocked(keys.rows, n), UpdateOf(id, key, models, nonce);
            var steps := StepsOfUpdate(keys.rows, id, key, models, nonce, t);
            StepsOf(v, s, r, t) == steps && After(v, s, r) == Stocked(P.Run(v, keys, steps).rows, n)
  {
    UpdateStepsAre(v, keys.rows, n, id, key, models, nonce, t);
    AfterUpdate(v, keys.rows, n, id, key, models, nonce);
    UpdateRefines(v, Stocked(keys.rows, n), keys, UpdateOf(id, key, models, nonce), t);
  }

  lemma LeadsUpdate(v: Vault, es: seq<Event>, n: nat, keys: P.State, id: int, key: string, models: string,
                    nonce: Bytes, t: int)
    requires LeadsTo(v, es, n, keys) && Uploaded1(keys.rows, id) && (models == "" || models == "n")
    requires |nonce| == NONCE_SIZE && t !in keys.syncs
    ensures LeadsTo(v, es + [Ask(UpdateOf(id, key, models, nonce), t)], n,
                    P.Run(v, keys, StepsOfUpdate(keys.rows, id, key, models, nonce, t)))
  {
    UpdateOutcome(v, keys, n, id, key, models, nonce, t);
    LeadsAsk(v, es, n, keys, UpdateOf(id, key, models, nonce), t,
             StepsOfUpdate(keys.rows, id, key, models, nonce, t), n);
  }

  lemma LeadsResync(v: Vault, es: seq<Event>, n: nat, keys: P.State, id: int, t: int)
    requires LeadsTo(v, es, n, keys) && Uploaded1(keys.rows, id) && t !in keys.syncs
    ensures LeadsTo(v, es + [Ask(Request.ResyncChannel(1, id), t)], n, P.Next(v, keys, P.Resync(id, t)))
  {
    EvolveAppend(v, Fresh, es, Ask(Request.ResyncChannel(1, id), t));
    ReadsAfter(v, Stocked(keys.rows, n), Request.ResyncChannel(1, id));
    P.RunOne(v, keys, P.Resync(id, t));
  }

  // Several background steps.
  function Behind(steps: seq<P.Step>): seq<Event> { seq(|steps|, i requires 0 <= i < |steps| => Background(steps[i])) }

  predicate InBackground(steps: seq<P.Step>) {
    forall step :: step in steps ==>
      step.Load? || step.Call? || step.WriteMark? || step.Drop? || step.Arrive?
  }

  lemma {:induction false} LeadsBehind(v: Vault, es: seq<Event>, n: nat, keys: P.State, steps: seq<P.Step>)
    requires LeadsTo(v, es, n, keys) && InBackground(steps)
    ensures LeadsTo(v, es + Behind(steps), n, P.Run(v, keys, steps))
    decreases |steps|
  {
    if steps == [] {
      assert es + Behind(steps) == es;
    } else {
      LeadsBackground(v, es, n, keys, steps[0]);
      assert InBackground(steps[1..]);
      LeadsBehind(v, es + [Background(steps[0])], n, P.Next(v, keys, steps[0]), steps[1..]);
      assert es + [Background(steps[0])] + Behind(steps[1..]) == es + Behind(steps);
    }
  }

  // An uninterrupted sync.
  function WholeSync(t: int, env: P.Env): seq<P.Step> { [P.Load(t), P.Call(t, env), P.WriteMark(t, 0)] }

  lemma LeadsSync(v: Vault, es: seq<Event>, n: nat, keys: P.State, t: int, env: P.Env)
    requires LeadsTo(v, es, n, keys) && t in keys.syncs && keys.syncs[t].Waiting?
    requires var id := keys.syncs[t].id;
             Live(keys.rows, id) ==> P.CallPossible(v, keys.remote, id, keys.rows[id], env)
    ensures var id := keys.syncs[t].id;
            LeadsTo(v, es + Behind(WholeSync(t, env)), n,
                    P.State(SyncRows(v, keys.rows, id, env, true, 0), SyncRemote(v, keys.rows, keys.remote, id, env),
                            keys.syncs - {t}, keys.transit + SyncTransit(v, keys.rows, id, env), keys.uploaded))
  {
    LeadsBehind(v, es, n, keys, WholeSync(t, env));
    SyncIsRun(v, keys, t, env, true, 0);
  }

  // --- Single steps, and the updates of one row ---

  lemma Loading(v: Vault, keys: P.State, t: int)
    requires t in keys.syncs && keys.syncs[t].Waiting? && Live(keys.rows, keys.syncs[t].id)
    ensures var id := keys.syncs[t].id;
            P.Next(v, keys, P.Load(t)) == keys.(syncs := keys.syncs[t := P.Loaded(id, keys.rows[id])])
  {
  }

  // A first publication that succeeds under the id n.
  lemma Publishing(v: Vault, keys: P.State, t: int, key: Bytes, n: int)
    requires t in keys.syncs && keys.syncs[t].Loaded? && keys.syncs[t].snap.remoteId == 0
    requires var c := keys.syncs[t].snap;
             c.HasRecoverableKey() && v.Open(c.encKey) == Ok(key) && FreshId(keys.remote, c.platformId, n)
    ensures var id, c := keys.syncs[t].id, keys.syncs[t].snap;
            P.Next(v, keys, P.Call(t, P.Answer(Success(n))))
            == keys.(remote := keys.remote[(c.platformId, n) := Entry(key, P.Meta(c), id)],
                     syncs := keys.syncs[t := P.Replied(id, c, P.ToSynced(n))])
  {
    assert keys.transit + multiset{} == keys.transit;
  }

  lemma Refusing(v: Vault, keys: P.State, t: int)
    requires t in keys.syncs && keys.syncs[t].Loaded?
    requires keys.syncs[t].snap.HasRecoverableKey() && v.Open(keys.syncs[t].snap.encKey).Ok?
    ensures var id, c := keys.syncs[t].id, keys.syncs[t].snap;
            P.Next(v, keys, P.Call(t, P.Answer(Refused(""))))
            == keys.(syncs := keys.syncs[t := P.Replied(id, c, P.ToFailed(""))])
  {
    assert keys.transit + multiset{} == keys.transit;
  }

  lemma Marking(v: Vault, keys: P.State, t: int)
    requires t in keys.syncs && keys.syncs[t].Replied? && Live(keys.rows, keys.syncs[t].id)
    ensures var id := keys.syncs[t].id;
            P.Next(v, keys, P.WriteMark(t, 0))
            == keys.(rows := keys.rows[id := P.MarkedColumns(keys.rows[id], keys.syncs[t].mark, 0)],
                     syncs := keys.syncs - {t})
  {
  }

  function Edited(c: Channel, models: string): Channel { EditedColumns(c, c.name, "", models, "g", 0) }

  function Rearmed(v: Vault, c: Channel, key: string, nonce: Bytes): Channel {
    RotatedColumns(Edited(c, "m"), v.Blob(nonce, Utf8(key)), v.digest(Utf8(key)), Last4(Utf8(key)), 0)
  }

  lemma EditStep(v: Vault, keys: P.State, id: int, models: string)
    requires Live(keys.rows, id)
    ensures P.Next(v, keys, P.Edit(id, keys.rows[id].name, "", models, "g", 0))
            == keys.(rows := keys.rows[id := Edited(keys.rows[id], models)])
  {
  }

  lemma RotateStep(v: Vault, keys: P.State, id: int, key: string, nonce: Bytes)
    requires Live(keys.rows, id) && key != "" && |nonce| == NONCE_SIZE
    ensures P.Next(v, keys.(rows := keys.rows[id := Edited(keys.rows[id], "m")]), P.Rotate(id, Utf8(key), nonce, 0))
            == keys.(rows := keys.rows[id := Rearmed(v, keys.rows[id], key, nonce)],
                     uploaded := keys.uploaded[id := Utf8(key)])
  {
    assert Utf8(key) != [];
  }

  lemma DispatchStep(v: Vault, keys: P.State, id: int, t: int)
    requires id in keys.rows && t !in keys.syncs
    ensures P.Next(v, keys, P.Dispatch(id, t)) == keys.(syncs := keys.syncs[t := P.Waiting(id)])
  {
  }

  // An update without a key is an edit and a dispatch.
  lemma LeadsEdit(v: Vault, es: seq<Event>, n: nat, keys: P.State, id: int, models: string, nonce: Bytes, t: int)
    requires LeadsTo(v, es, n, keys) && Uploaded1(keys.rows, id) && (models == "" || models == "n")
    requires |nonce| == NONCE_SIZE && t !in keys.syncs
    ensures LeadsTo(v, es + [Ask(UpdateOf(id, "", models, nonce), t)], n,
                    keys.(rows := keys.rows[id := Edited(keys.rows[id], if models == "" then "m" else "n")],
                          syncs := keys.syncs[t := P.Waiting(id)]))
  {
    var m := if models == "" then "m" else "n";
    TextBlank();
    LeadsUpdate(v, es, n, keys, id, "", models, nonce, t);
    P.RunTwo(v, keys, EditOf(keys.rows, id, models), P.Dispatch(id, t));
    EditStep(v, keys, id, m);
    DispatchStep(v, keys.(rows := keys.rows[id := Edited(keys.rows[id], m)]), id, t);
  }

  // With a key there is a rotation in between.
  lemma LeadsRotation(v: Vault, es: seq<Event>, n: nat, keys: P.State, id: int, key: string, nonce: Bytes, t: int)
    requires LeadsTo(v, es, n, keys) && Uploaded1(keys.rows, id) && TrimSpace(key) != ""
    requires |nonce| == NONCE_SIZE && t !in keys.syncs
    ensures LeadsTo(v, es + [Ask(UpdateOf(id, key, "", nonce), t)], n,
                    keys.(rows := keys.rows[id := Rearmed(v, keys.rows[id], key, nonce)],
                          uploaded := keys.uploaded[id := Utf8(key)],
                          syncs := keys.syncs[t := P.Waiting(id)]))
  {
    TextBlank();
    LeadsUpdate(v, es, n, keys, id, key, "", nonce, t);
    P.RunThree(v, keys, EditOf(keys.rows, id, ""), P.Rotate(id, Utf8(key), nonce, 0), P.Dispatch(id, t));
    EditStep(v, keys, id, "m");
    RotateStep(v, keys, id, key, nonce);
    DispatchStep(v, keys.(rows := keys.rows[id := Rearmed(v, keys.rows[id], key, nonce)],
                          uploaded := keys.uploaded[id := Utf8(key)]), id, t);
  }

  // A sync that has loaded the row publishes what it loaded, and marks the row as it is now.
  lemma LeadsPublication(v: Vault, es: seq<Event>, n: nat, keys: P.State, t: int, key: Bytes, newId: int)
    returns (all: seq<Event>)
    requires LeadsTo(v, es, n, keys)
    requires t in keys.syncs && keys.syncs[t].Loaded? && keys.syncs[t].snap.remoteId == 0
    requires Live(keys.rows, keys.syncs[t].id)
    requires var c := keys.syncs[t].snap;
             c.HasRecoverableKey() && v.Open(c.encKey) == Ok(key) && FreshId(keys.remote, c.platformId, newId)
    ensures var id, c := keys.syncs[t].id, keys.syncs[t].snap;
            LeadsTo(v, all, n,
                    keys.(rows := keys.rows[id := SyncedColumns(keys.rows[id], newId, 0)],
                          remote := keys.remote[(c.platformId, newId) := Entry(key, P.Meta(c), id)],
                          syncs := keys.syncs - {t}))
  {
    var call := P.Call(t, P.Answer(Success(newId)));
    Publishing(v, keys, t, key, newId);
    LeadsBackground(v, es, n, keys, call);
    var keys1 := P.Next(v, keys, call);
    Marking(v, keys1, t);
    LeadsBackground(v, es + [Background(call)], n, keys1, P.WriteMark(t, 0));
    assert keys1.syncs - {t} == keys.syncs - {t};
    all := es + [Background(call)] + [Background(P.WriteMark(t, 0))];
  }

  // --- The opening of every witness: one upload ---

  function FirstRow(v: Vault, name: string, key: string, nonce: Bytes): Channel {
    FreshRow(1, 1, name, 1, v.Blob(nonce, Utf8(key)), v.digest(Utf8(key)), Last4(Utf8(key)), "m", "g", 0)
  }

  function Opened(c: Channel, key: string, y: P.Sync): P.State {
    P.State(map[1 := c], map[], map[1 := y], multiset{}, map[1 := Utf8(key)])
  }

  lemma Opening(v: Vault, key: string, nonce: Bytes) returns (es: seq<Event>, c: Channel)
    requires v.Sound() && TrimSpace(key) != "" && |nonce| == NONCE_SIZE
    ensures LeadsTo(v, es, 2, Opened(c, key, P.Waiting(1)))
    ensures Uploaded1(map[1 := c], 1) && c.remoteId == 0 && c.keyState == Pending && c.syncAttempts == 0
    ensures c.HasRecoverableKey() && v.Open(c.encKey) == Ok(Utf8(key)) && c.fingerprint == v.digest(Utf8(key))
  {
    SetupDone(v);
    assert Utf8(key) != [];
    var name := LeadsUpload(v, SETUP, 1, P.Start, key, nonce, 1);
    es := SETUP + [Ask(UploadOf(key, nonce), 1)];
    c := FirstRow(v, name, key, nonce);
    v.OpenSeal(nonce, Utf8(key));
  }

  lemma OpeningLoaded(v: Vault, key: string, nonce: Bytes) returns (es: seq<Event>, c: Channel)
    requires v.Sound() && TrimSpace(key) != "" && |nonce| == NONCE_SIZE
    ensures LeadsTo(v, es, 2, Opened(c, key, P.Loaded(1, c)))
    ensures Uploaded1(map[1 := c], 1) && c.remoteId == 0 && c.syncAttempts == 0
    ensures c.HasRecoverableKey() && v.Open(c.encKey) == Ok(Utf8(key)) && c.fingerprint == v.digest(Utf8(key))
  {
    es, c := Opening(v, key, nonce);
    var keys := Opened(c, key, P.Waiting(1));
    Loading(v, keys, 1);
    LeadsBackground(v, es, 2, keys, P.Load(1));
    assert keys.syncs[1 := P.Loaded(1, c)] == map[1 := P.Loaded(1, c)];
    es := es + [Background(P.Load(1))];
  }

  // --- A key that is lost ---

  // No work is left, the row says synced, and the key its fingerprint names is sealed in
  // no row and held by no entry of AGT.
  ghost predicate KeyIsNowhere(v: Vault, w: World, id: int, key: Bytes) {
    && w.keys.syncs == map[] && w.keys.transit == multiset{}
    && id in w.keys.uploaded && w.keys.uploaded[id] == key
    && (forall i :: i in w.store.channels ==> w.store.channels[i].encKey == [])
    && (forall r :: r in w.keys.remote ==> w.keys.remote[r].key != key)
    && Live(w.store.channels, id)
    && var c := w.store.channels[id];
       c.keyState == Synced && c.syncStatus == 1 && c.fingerprint == v.digest(key)
  }

  lemma Utf8Distinct(a: string, b: string)
    requires a != b
    ensures Utf8(a) != Utf8(b)
  {
    if Utf8(a) == Utf8(b) {
      Utf8Injective(a, b);
    }
  }

  // A sync of a published row without a key sends the metadata alone.
  lemma LeadsKeylessSync(v: Vault, es: seq<Event>, n: nat, keys: P.State, t: int)
    requires LeadsTo(v, es, n, keys) && t in keys.syncs && keys.syncs[t].Waiting?
    requires Live(keys.rows, keys.syncs[t].id)
    requires var c := keys.rows[keys.syncs[t].id];
             c.encKey == [] && c.remoteId != 0 && (c.platformId, c.remoteId) in keys.remote
    ensures var id := keys.syncs[t].id;
            var c := keys.rows[id];
            var e := keys.remote[(c.platformId, c.remoteId)];
            LeadsTo(v, es + Behind(WholeSync(t, P.Answer(Success(0)))), n,
                    keys.(rows := keys.rows[id := MetadataSyncedColumns(c, 0)],
                          remote := keys.remote[(c.platformId, c.remoteId) := Entry(e.key, P.Meta(c), e.maker)],
                          syncs := keys.syncs - {t}))
  {
    LeadsSync(v, es, n, keys, t, P.Answer(Success(0)));
    assert keys.transit + multiset{} == keys.transit;
  }

  // A supplier rotates a key while the sync of the upload is under way: the upload's sync
  // then publishes the old key and wipes the new one, and the update's sync finds no key.
  lemma RotationRace(v: Vault, first: string, second: string, nonce: Bytes) returns (es: seq<Event>)
    requires v.Sound() && |nonce| == NONCE_SIZE
    requires TrimSpace(first) != "" && TrimSpace(second) != "" && first != second
    ensures KeyIsNowhere(v, Evolve(v, Fresh, es), 1, Utf8(second))
  {
    var es1, c := OpeningLoaded(v, first, nonce);
    var keys1 := Opened(c, first, P.Loaded(1, c));
    LeadsRotation(v, es1, 2, keys1, 1, second, nonce, 2);
    var es2 := es1 + [Ask(UpdateOf(1, second, "", nonce), 2)];
    var keys2 := keys1.(rows := keys1.rows[1 := Rearmed(v, c, second, nonce)],
                        uploaded := keys1.uploaded[1 := Utf8(second)],
                        syncs := keys1.syncs[2 := P.Waiting(1)]);
    es := RaceEnds(v, es2, keys2, first, second);
  }

  lemma RaceEnds(v: Vault, es: seq<Event>, keys: P.State, first: string, second: string)
    returns (all: seq<Event>)
    requires LeadsTo(v, es, 2, keys) && first != second
    requires keys.rows.Keys == {1} && keys.syncs.Keys == {1, 2} && keys.remote == map[] && keys.transit == multiset{}
    requires !keys.rows[1].deleted && keys.rows[1].platformId == 1
    requires 1 in keys.uploaded && keys.uploaded[1] == Utf8(second)
    requires keys.rows[1].fingerprint == v.digest(Utf8(second))
    requires keys.syncs[1].Loaded? && keys.syncs[1].id == 1 && keys.syncs[2] == P.Waiting(1)
    requires var c := keys.syncs[1].snap;
             && c.HasRecoverableKey() && v.Open(c.encKey) == Ok(Utf8(first))
             && c.remoteId == 0 && c.platformId == 1
    ensures KeyIsNowhere(v, Evolve(v, Fresh, all), 1, Utf8(second))
  {
    var c, snap := keys.rows[1], keys.syncs[1].snap;
    var es1 := LeadsPublication(v, es, 2, keys, 1, Utf8(first), 7);
    var keys1 := keys.(rows := keys.rows[1 := SyncedColumns(c, 7, 0)],
                       remote := keys.remote[(1, 7) := Entry(Utf8(first), P.Meta(snap), 1)],
                       syncs := keys.syncs - {1});
    LeadsKeylessSync(v, es1, 2, keys1, 2);
    all := es1 + Behind(WholeSync(2, P.Answer(Success(0))));
    Utf8Distinct(first, second);
    assert keys1.syncs.Keys - {2} == {};
    assert keys1.syncs - {2} == map[];
  }

  // --- Stale metadata in a row marked in sync ---

  // No work is left, the row says in sync, and AGT has other metadata than the row.
  ghost predicate StaleInSync(w: World, id: int) {
    && w.keys.syncs == map[] && w.keys.transit == multiset{}
    && Live(w.store.channels, id)
    && var c := w.store.channels[id];
       && c.syncStatus == 1 && c.keyState == Synced
       && (c.platformId, c.remoteId) in w.keys.remote
       && w.keys.remote[(c.platformId, c.remoteId)].meta != P.Meta(c)
  }

  // A supplier edits the models while the sync of the upload is under way; the edit's own
  // sync succeeds first, the older one last.
  lemma EditRace(v: Vault, key: string, nonce: Bytes) returns (es: seq<Event>)
    requires v.Sound() && |nonce| == NONCE_SIZE && TrimSpace(key) != ""
    ensures StaleInSync(Evolve(v, Fresh, es), 1)
  {
    var es1, c := OpeningLoaded(v, key, nonce);
    var keys1 := Opened(c, key, P.Loaded(1, c));
    LeadsEdit(v, es1, 2, keys1, 1, "n", nonce, 2);
    var c2 := Edited(c, "n");
    var es2 := es1 + [Ask(UpdateOf(1, "", "n", nonce), 2)];
    var keys2 := keys1.(rows := keys1.rows[1 := c2], syncs := keys1.syncs[2 := P.Waiting(1)]);
    Loading(v, keys2, 2);
    LeadsBackground(v, es2, 2, keys2, P.Load(2));
    var es3 := es2 + [Background(P.Load(2))];
    var keys3 := keys2.(syncs := keys2.syncs[2 := P.Loaded(1, c2)]);
    es := EditRaceEnds(v, es3, keys3, Utf8(key));
  }

  lemma EditRaceEnds(v: Vault, es: seq<Event>, keys: P.State, key: Bytes) returns (all: seq<Event>)
    requires LeadsTo(v, es, 2, keys)
    requires keys.syncs.Keys == {1, 2} && keys.remote == map[] && keys.transit == multiset{} && Live(keys.rows, 1)
    requires keys.syncs[1].Loaded? && keys.syncs[2].Loaded? && keys.syncs[1].id == keys.syncs[2].id == 1
    requires keys.rows[1].platformId == 1 && keys.rows[1].models == "n" && keys.syncs[1].snap.models == "m"
    requires forall t :: t in keys.syncs ==>
               var c := keys.syncs[t].snap;
               c.HasRecoverableKey() && v.Open(c.encKey) == Ok(key) && c.remoteId == 0 && c.platformId == 1
    ensures StaleInSync(Evolve(v, Fresh, all), 1)
  {
    var stale := keys.syncs[1].snap;
    var es1 := LeadsPublication(v, es, 2, keys, 2, key, 7);
    var keys1 := keys.(rows := keys.rows[1 := SyncedColumns(keys.rows[1], 7, 0)],
                       remote := keys.remote[(1, 7) := Entry(key, P.Meta(keys.syncs[2].snap), 1)],
                       syncs := keys.syncs - {2});
    all := LeadsPublication(v, es1, 2, keys1, 1, key, 8);
    assert keys1.syncs - {1} == map[];
    assert P.Meta(stale).models == "m";
  }

  // --- Updates without end ---

  const TOKEN_FAILURE := "platform token could not be decrypted"

  lemma LeadsFailure(v: Vault, es: seq<Event>, n: nat, keys: P.State, t: int)
    requires LeadsTo(v, es, n, keys) && t in keys.syncs && keys.syncs[t].Waiting?
    requires Live(keys.rows, keys.syncs[t].id)
    ensures var id := keys.syncs[t].id;
            LeadsTo(v, es + Behind(WholeSync(t, P.TokenUnreadable)), n,
                    keys.(rows := keys.rows[id := FailedColumns(keys.rows[id], TOKEN_FAILURE, 0)],
                          syncs := keys.syncs - {t}))
  {
    LeadsSync(v, es, n, keys, t, P.TokenUnreadable);
    assert keys.transit + multiset{} == keys.transit;
  }

  // n updates that bring neither key nor models, each followed by its failing sync.
  function Updates(n: nat, nonce: Bytes): seq<Event> {
    if n == 0 then []
    else Updates(n - 1, nonce) + [Ask(UpdateOf(1, "", "", nonce), 1)] + Behind(WholeSync(1, P.TokenUnreadable))
  }

  lemma OneMoreUpdate(v: Vault, es: seq<Event>, keys: P.State, nonce: Bytes) returns (keys': P.State)
    requires LeadsTo(v, es, 2, keys) && Uploaded1(keys.rows, 1) && keys.syncs == map[] && |nonce| == NONCE_SIZE
    ensures LeadsTo(v, es + [Ask(UpdateOf(1, "", "", nonce), 1)] + Behind(WholeSync(1, P.TokenUnreadable)), 2, keys')
    ensures Uploaded1(keys'.rows, 1) && keys'.syncs == map[]
    ensures keys'.rows[1].syncAttempts == keys.rows[1].syncAttempts + 1
  {
    LeadsEdit(v, es, 2, keys, 1, "", nonce, 1);
    var keys1 := keys.(rows := keys.rows[1 := Edited(keys.rows[1], "m")], syncs := keys.syncs[1 := P.Waiting(1)]);
    LeadsFailure(v, es + [Ask(UpdateOf(1, "", "", nonce), 1)], 2, keys1, 1);
    keys' := keys1.(rows := keys1.rows[1 := FailedColumns(keys1.rows[1], TOKEN_FAILURE, 0)],
                    syncs := keys1.syncs - {1});
    assert keys1.syncs - {1} == map[];
  }

  lemma {:induction false} UpdatesFail(v: Vault, es: seq<Event>, keys: P.State, nonce: Bytes, n: nat)
    returns (keys': P.State)
    requires LeadsTo(v, es, 2, keys) && Uploaded1(keys.rows, 1) && keys.syncs == map[] && |nonce| == NONCE_SIZE
    ensures LeadsTo(v, es + Updates(n, nonce), 2, keys')
    ensures Uploaded1(keys'.rows, 1) && keys'.syncs == map[]
    ensures keys'.rows[1].syncAttempts == keys.rows[1].syncAttempts + n
    decreases n
  {
    if n == 0 {
      assert es + [] == es;
      return keys;
    }
    var keys1 := UpdatesFail(v, es, keys, nonce, n - 1);
    var front := es + Updates(n - 1, nonce);
    keys' := OneMoreUpdate(v, front, keys1, nonce);
    assert front + [Ask(UpdateOf(1, "", "", nonce), 1)] + Behind(WholeSync(1, P.TokenUnreadable))
           == es + Updates(n, nonce);
  }

  // After one failed upload, n updates that never overlap bring the failures to n + 1, and
  // the row's key is the one uploaded all along.
  lemma UpdatesEvadeBudget(v: Vault, key: string, nonce: Bytes, n: nat) returns (upload: seq<Event>)
    requires v.Sound() && |nonce| == NONCE_SIZE && TrimSpace(key) != ""
    ensures var w := Evolve(v, Fresh, upload + Updates(n, nonce));
            && Live(w.store.channels, 1) && w.store.channels[1].syncAttempts == n + 1
            && w.keys.syncs == map[]
  {
    var es, c := Opening(v, key, nonce);
    var keys := Opened(c, key, P.Waiting(1));
    LeadsFailure(v, es, 2, keys, 1);
    upload := es + Behind(WholeSync(1, P.TokenUnreadable));
    var keys1 := keys.(rows := keys.rows[1 := FailedColumns(c, TOKEN_FAILURE, 0)], syncs := keys.syncs - {1});
    assert keys.syncs - {1} == map[];
    var keys2 := UpdatesFail(v, upload, keys1, nonce, n);
  }

  // --- Failed rows without a key ---

  ghost predicate FailedKeyless(w: World, id: int) {
    && w.keys.syncs == map[] && Live(w.store.channels, id)
    && w.store.channels[id].keyState == Failed && w.store.channels[id].encKey == []
  }

  lemma ResyncStep(v: Vault, keys: P.State, id: int, t: int)
    requires Live(keys.rows, id) && keys.rows[id].syncAttempts < MAX_SYNC_RETRIES && t !in keys.syncs
    ensures P.Next(v, keys, P.Resync(id, t)) == keys.(syncs := keys.syncs[t := P.Waiting(id)])
  {
  }

  // The upload is published; a resync is refused.
  lemma RefusedMetadata(v: Vault, key: string, nonce: Bytes) returns (es: seq<Event>)
    requires v.Sound() && |nonce| == NONCE_SIZE && TrimSpace(key) != ""
    ensures FailedKeyless(Evolve(v, Fresh, es), 1)
  {
    var es1, c := OpeningLoaded(v, key, nonce);
    var keys1 := Opened(c, key, P.Loaded(1, c));
    var es2 := LeadsPublication(v, es1, 2, keys1, 1, Utf8(key), 7);
    var keys2 := keys1.(rows := keys1.rows[1 := SyncedColumns(c, 7, 0)],
                        remote := keys1.remote[(1, 7) := Entry(Utf8(key), P.Meta(c), 1)],
                        syncs := keys1.syncs - {1});
    assert keys2.syncs == map[];
    es := RefusedResync(v, es2, keys2);
  }

  lemma RefusedResync(v: Vault, es: seq<Event>, keys: P.State) returns (all: seq<Event>)
    requires LeadsTo(v, es, 2, keys) && keys.syncs == map[] && Uploaded1(keys.rows, 1)
    requires keys.rows[1].syncAttempts < MAX_SYNC_RETRIES && keys.rows[1].encKey == [] && keys.rows[1].remoteId != 0
    ensures FailedKeyless(Evolve(v, Fresh, all), 1)
  {
    var answer := P.Answer(Refused(""));
    LeadsResync(v, es, 2, keys, 1, 2);
    ResyncStep(v, keys, 1, 2);
    var keys1 := keys.(syncs := keys.syncs[2 := P.Waiting(1)]);
    LeadsSync(v, es + [Ask(Request.ResyncChannel(1, 1), 2)], 2, keys1, 2, answer);
    all := es + [Ask(Request.ResyncChannel(1, 1), 2)] + Behind(WholeSync(2, answer));
    assert keys1.syncs - {2} == map[];
  }

  // The upload's sync and a resync both load the key; the first publishes it, the second
  // is refused.
  lemma RefusedOverlap(v: Vault, key: string, nonce: Bytes) returns (es: seq<Event>)
    requires v.Sound() && |nonce| == NONCE_SIZE && TrimSpace(key) != ""
    ensures FailedKeyless(Evolve(v, Fresh, es), 1)
  {
    var es1, c := OpeningLoaded(v, key, nonce);
    var keys1 := Opened(c, key, P.Loaded(1, c));
    LeadsResync(v, es1, 2, keys1, 1, 2);
    ResyncStep(v, keys1, 1, 2);
    var keys2 := keys1.(syncs := keys1.syncs[2 := P.Waiting(1)]);
    var es2 := es1 + [Ask(Request.ResyncChannel(1, 1), 2)];
    Loading(v, keys2, 2);
    LeadsBackground(v, es2, 2, keys2, P.Load(2));
    var keys3 := keys2.(syncs := keys2.syncs[2 := P.Loaded(1, c)]);
    var es3 := LeadsPublication(v, es2 + [Background(P.Load(2))], 2, keys3, 1, Utf8(key), 7);
    var keys4 := keys3.(rows := keys3.rows[1 := SyncedColumns(c, 7, 0)],
                        remote := keys3.remote[(1, 7) := Entry(Utf8(key), P.Meta(c), 1)],
                        syncs := keys3.syncs - {1});
    es := LeadsRefusal(v, es3, keys4, 2);
  }

  lemma LeadsRefusal(v: Vault, es: seq<Event>, keys: P.State, t: int) returns (all: seq<Event>)
    requires LeadsTo(v, es, 2, keys) && keys.syncs.Keys == {t}
    requires keys.syncs[t].Loaded? && keys.syncs[t].id == 1
    requires keys.syncs[t].snap.HasRecoverableKey() && v.Open(keys.syncs[t].snap.encKey).Ok?
    requires Live(keys.rows, 1) && keys.rows[1].encKey == []
    ensures FailedKeyless(Evolve(v, Fresh, all), 1)
  {
    var call := P.Call(t, P.Answer(Refused("")));
    Refusing(v, keys, t);
    LeadsBackground(v, es, 2, keys, call);
    var keys1 := keys.(syncs := keys.syncs[t := P.Replied(1, keys.syncs[t].snap, P.ToFailed(""))]);
    Marking(v, keys1, t);
    LeadsBackground(v, es + [Background(call)], 2, keys1, P.WriteMark(t, 0));
    all := es + [Background(call)] + [Background(P.WriteMark(t, 0))];
    assert keys1.syncs - {t} == map[];
  }

  // --- One key in two rows ---

  // Two live rows of one pair, of the same key.
  ghost predicate SameKeyTwice(rows: Rows) {
    && Live(rows, 1) && Live(rows, 2) && SamePair(rows[1], rows[2])
    && rows[1].fingerprint == rows[2].fingerprint
  }

  // Two uploads, and a rotation of the first row to the second row's key.
  lemma RotationReusesKey(v: Vault, first: string, second: string, nonce: Bytes) returns (es: seq<Event>)
    requires v.Sound() && |nonce| == NONCE_SIZE && TrimSpace(first) != "" && TrimSpace(second) != ""
    requires v.digest(Utf8(first)) != v.digest(Utf8(second))
    ensures SameKeyTwice(Evolve(v, Fresh, es).store.channels)
  {
    var es1, c := Opening(v, first, nonce);
    var es2, keys2 := SecondUpload(v, es1, c, first, second, nonce);
    es := RotatedToSecond(v, es2, keys2, second, nonce);
  }

  lemma SecondUpload(v: Vault, es: seq<Event>, c: Channel, first: string, second: string, nonce: Bytes)
    returns (all: seq<Event>, keys': P.State)
    requires LeadsTo(v, es, 2, Opened(c, first, P.Waiting(1))) && Uploaded1(map[1 := c], 1)
    requires TrimSpace(second) != "" && |nonce| == NONCE_SIZE && c.fingerprint != v.digest(Utf8(second))
    ensures LeadsTo(v, all, 3, keys') && Uploaded1(keys'.rows, 1) && Uploaded1(keys'.rows, 2) && 3 !in keys'.syncs
    ensures keys'.rows[2].fingerprint == v.digest(Utf8(second))
  {
    var keys := Opened(c, first, P.Waiting(1));
    OneFingerprint(c, v.digest(Utf8(second)));
    var name := LeadsUpload(v, es, 2, keys, second, nonce, 2);
    TextBlank();
    SecondRow(v, keys, name, second, nonce);
    all := es + [Ask(UploadOf(second, nonce), 2)];
    keys' := keys.(rows := keys.rows[2 := FirstRow(v, name, second, nonce)],
                   syncs := keys.syncs[2 := P.Waiting(2)], uploaded := keys.uploaded[2 := Utf8(second)]);
  }

  lemma RotatedToSecond(v: Vault, es: seq<Event>, keys: P.State, second: string, nonce: Bytes)
    returns (all: seq<Event>)
    requires LeadsTo(v, es, 3, keys) && Uploaded1(keys.rows, 1) && Uploaded1(keys.rows, 2) && 3 !in keys.syncs
    requires keys.rows[2].fingerprint == v.digest(Utf8(second)) && TrimSpace(second) != "" && |nonce| == NONCE_SIZE
    ensures SameKeyTwice(Evolve(v, Fresh, all).store.channels)
  {
    LeadsRotation(v, es, 3, keys, 1, second, nonce, 3);
    all := es + [Ask(UpdateOf(1, second, "", nonce), 3)];
  }

  lemma OneFingerprint(c: Channel, fingerprint: string)
    requires c.fingerprint != fingerprint
    ensures !FingerprintExists(map[1 := c], 1, 1, fingerprint)
  {
    var rows: Rows := map[1 := c];
    forall i | i in LivePair(rows, 1, 1)
      ensures i == 1
    {
      assert i in PairRows(rows, 1, 1);
      assert i in rows.Keys;
    }
  }

  lemma SecondRow(v: Vault, keys: P.State, name: string, key: string, nonce: Bytes)
    requires key != "" && |nonce| == NONCE_SIZE && keys.rows.Keys == {1} && keys.syncs.Keys == {1}
    ensures P.Next(v, keys, P.Create(2, 2, 1, 1, name, 1, Utf8(key), nonce, "m", "g", 0))
            == keys.(rows := keys.rows[2 := FirstRow(v, name, key, nonce)],
                     syncs := keys.syncs[2 := P.Waiting(2)], uploaded := keys.uploaded[2 := Utf8(key)])
  {
    assert Utf8(key) != [];
    assert 2 !in keys.rows.Keys && 2 !in keys.syncs.Keys;
  }

  // --- A sealed key that outlives its user ---

  // A pending upload is followed by the deletion of its supplier: for ever after, the row
  // holds a blob that opens to the key.
  lemma PendingKeyOutlivesUser(v: Vault, key: string, nonce: Bytes) returns (es: seq<Event>)
    requires v.Sound() && |nonce| == NONCE_SIZE && TrimSpace(key) != ""
    ensures var w := Advance(v, Evolve(v, Fresh, es), Ask(Request.DeleteUser(1, 3), 0));
            1 !in w.store.users
            && forall after: seq<Event> ::
                 var rows := Evolve(v, w, after).store.channels;
                 1 in rows && rows[1].deleted && v.Open(rows[1].encKey) == Ok(Utf8(key))
  {
    var c;
    es, c := Opening(v, key, nonce);
    var w := Evolve(v, Fresh, es);
    var r := Request.DeleteUser(1, 3);
    AdminAfter(v, w.store, r);
    forall after: seq<Event>
      ensures var rows := Evolve(v, Advance(v, w, Ask(r, 0)), after).store.channels;
              1 in rows && rows[1].deleted && v.Open(rows[1].encKey) == Ok(Utf8(key))
    {
      DeletionKeepsSealedKey(v, es, r, 0, after, 1);
    }
  }

  // --- A request that arrives late ---

  lemma Arriving(v: Vault, keys: P.State, q: Outgoing)
    requires q in keys.transit && q.payload.id != 0 && q.payload.key != []
    requires (q.platformId, q.payload.id) in keys.remote
    ensures var r := (q.platformId, q.payload.id);
            P.Next(v, keys, P.Arrive(q, 0))
            == keys.(remote := keys.remote[r := Entry(q.payload.key, q.payload.meta, keys.remote[r].maker)],
                     transit := keys.transit - multiset{q})
  {
  }

  // A sync of a published row that has a key again, answered or not.
  lemma LeadsKeySync(v: Vault, es: seq<Event>, n: nat, keys: P.State, t: int, key: Bytes, reply: Reply)
    requires LeadsTo(v, es, n, keys) && t in keys.syncs && keys.syncs[t] == P.Waiting(1)
    requires reply == Success(0) || reply == Lost("timeout")
    requires Live(keys.rows, 1) && keys.rows[1].remoteId == 7 && keys.rows[1].platformId == 1
    requires keys.rows[1].HasRecoverableKey() && v.Open(keys.rows[1].encKey) == Ok(key) && key != []
    requires (1, 7) in keys.remote
    ensures var c := keys.rows[1];
            var q := Outgoing(1, Payload(7, key, P.Meta(c)), 1);
            LeadsTo(v, es + Behind(WholeSync(t, P.Answer(reply))), n,
                    if reply.Success? then
                      keys.(rows := keys.rows[1 := SyncedColumns(c, 7, 0)],
                            remote := keys.remote[(1, 7) := Entry(key, P.Meta(c), keys.remote[(1, 7)].maker)],
                            syncs := keys.syncs - {t})
                    else
                      keys.(rows := keys.rows[1 := FailedColumns(c, "timeout", 0)],
                            transit := keys.transit + multiset{q}, syncs := keys.syncs - {t}))
  {
    LeadsSync(v, es, n, keys, t, P.Answer(reply));
    assert keys.transit + multiset{} == keys.transit;
  }

  // The first key is published. The second is sent, but its client gives up waiting; the
  // third is then published, and after it the request with the second key arrives.
  lemma LateRequest(v: Vault, first: string, second: string, third: string, nonce: Bytes) returns (es: seq<Event>)
    requires v.Sound() && |nonce| == NONCE_SIZE && second != third
    requires TrimSpace(first) != "" && TrimSpace(second) != "" && TrimSpace(third) != ""
    ensures KeyIsNowhere(v, Evolve(v, Fresh, es), 1, Utf8(third))
  {
    var es1, c := OpeningLoaded(v, first, nonce);
    var keys1 := Opened(c, first, P.Loaded(1, c));
    var es2 := LeadsPublication(v, es1, 2, keys1, 1, Utf8(first), 7);
    var keys2 := keys1.(rows := keys1.rows[1 := SyncedColumns(c, 7, 0)],
                        remote := keys1.remote[(1, 7) := Entry(Utf8(first), P.Meta(c), 1)],
                        syncs := keys1.syncs - {1});
    assert keys2.syncs == map[];
    var es3, keys3 := SecondKeyLost(v, es2, keys2, second, nonce);
    es := ThirdKeyOverwritten(v, es3, keys3, second, third, nonce);
  }

  // A published row with nothing under way.
  predicate Settled(keys: P.State) {
    && keys.syncs == map[] && keys.rows.Keys == {1} && keys.remote.Keys == {(1, 7)}
    && Uploaded1(keys.rows, 1) && keys.rows[1].remoteId == 7
  }

  lemma SecondKeyLost(v: Vault, es: seq<Event>, keys: P.State, second: string, nonce: Bytes)
    returns (all: seq<Event>, keys': P.State)
    requires v.Sound() && LeadsTo(v, es, 2, keys) && Settled(keys) && keys.transit == multiset{}
    requires TrimSpace(second) != "" && |nonce| == NONCE_SIZE
    ensures LeadsTo(v, all, 2, keys') && Settled(keys')
    ensures exists m :: keys'.transit == multiset{Outgoing(1, Payload(7, Utf8(second), m), 1)}
  {
    LeadsRotation(v, es, 2, keys, 1, second, nonce, 2);
    var c := Rearmed(v, keys.rows[1], second, nonce);
    var keys1 := keys.(rows := keys.rows[1 := c], uploaded := keys.uploaded[1 := Utf8(second)],
                       syncs := keys.syncs[2 := P.Waiting(1)]);
    v.OpenSeal(nonce, Utf8(second));
    TextBlank();
    LeadsKeySync(v, es + [Ask(UpdateOf(1, second, "", nonce), 2)], 2, keys1, 2, Utf8(second), Lost("timeout"));
    var q := Outgoing(1, Payload(7, Utf8(second), P.Meta(c)), 1);
    keys' := keys1.(rows := keys1.rows[1 := FailedColumns(c, "timeout", 0)],
                    transit := keys1.transit + multiset{q}, syncs := keys1.syncs - {2});
    all := es + [Ask(UpdateOf(1, second, "", nonce), 2)] + Behind(WholeSync(2, P.Answer(Lost("timeout"))));
    assert keys1.syncs - {2} == map[];
    assert keys'.transit == multiset{q};
  }

  lemma ThirdKeyOverwritten(v: Vault, es: seq<Event>, keys: P.State, second: string, third: string, nonce: Bytes)
    returns (all: seq<Event>)
    requires v.Sound() && LeadsTo(v, es, 2, keys) && Settled(keys)
    requires exists m :: keys.transit == multiset{Outgoing(1, Payload(7, Utf8(second), m), 1)}
    requires TrimSpace(second) != "" && TrimSpace(third) != "" && second != third && |nonce| == NONCE_SIZE
    ensures KeyIsNowhere(v, Evolve(v, Fresh, all), 1, Utf8(third))
  {
    var m :| keys.transit == multiset{Outgoing(1, Payload(7, Utf8(second), m), 1)};
    var q := Outgoing(1, Payload(7, Utf8(second), m), 1);
    LeadsRotation(v, es, 2, keys, 1, third, nonce, 3);
    var c := Rearmed(v, keys.rows[1], third, nonce);
    var keys1 := keys.(rows := keys.rows[1 := c], uploaded := keys.uploaded[1 := Utf8(third)],
                       syncs := keys.syncs[3 := P.Waiting(1)]);
    v.OpenSeal(nonce, Utf8(third));
    TextBlank();
    var es1 := es + [Ask(UpdateOf(1, third, "", nonce), 3)];
    LeadsKeySync(v, es1, 2, keys1, 3, Utf8(third), Success(0));
    var keys2 := keys1.(rows := keys1.rows[1 := SyncedColumns(c, 7, 0)],
                        remote := keys1.remote[(1, 7) := Entry(Utf8(third), P.Meta(c), keys1.remote[(1, 7)].maker)],
                        syncs := keys1.syncs - {3});
    assert keys1.syncs - {3} == map[];
    assert keys2.remote.Keys == {(1, 7)};
    Utf8Distinct(second, third);
    assert Utf8(second) != [];
    all := LateArrival(v, es1 + Behind(WholeSync(3, P.Answer(Success(0)))), keys2, q, Utf8(third));
  }

  lemma LateArrival(v: Vault, es: seq<Event>, keys: P.State, q: Outgoing, key: Bytes) returns (all: seq<Event>)
    requires LeadsTo(v, es, 2, keys) && keys.syncs == map[] && keys.transit == multiset{q}
    requires keys.rows.Keys == {1} && keys.remote.Keys == {(1, 7)} && q.platformId == 1 && q.payload.id == 7
    requires q.payload.key != [] && q.payload.key != key && 1 in keys.uploaded && keys.uploaded[1] == key
    requires var c := keys.rows[1];
             && !c.deleted && c.keyState == Synced && c.syncStatus == 1 && c.encKey == []
             && c.fingerprint == v.digest(key)
    ensures KeyIsNowhere(v, Evolve(v, Fresh, all), 1, key)
  {
    Arriving(v, keys, q);
    LeadsBackground(v, es, 2, keys, P.Arrive(q, 0));
    all := es + [Background(P.Arrive(q, 0))];
  }
}
