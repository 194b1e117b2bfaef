// The sync worker in the form it runs: a channel record loaded from the table, one
// request to the AGT store, and the write-back, each updating state in place. Its
// contracts are the steps of the protocol.
module SyncWorker {
  import opened Prelude
  import opened Vaults
  import opened ChannelRows
  import opened Agt
  import opened Protocol
  import opened KeyConservation

  // The channel table of the database.
  class ChannelTable {
    var rows: Rows

    constructor ()
      ensures rows == map[]
    {
      rows := map[];
    }
  }

  // A record in memory and a stored row agree in what a sync decides by.
  predicate SameSyncState(a: Channel, b: Channel) {
    && a.encKey == b.encKey && a.keyState == b.keyState && a.remoteId == b.remoteId
    && a.platformId == b.platformId && Meta(a) == Meta(b)
  }

  // A channel loaded into memory: its own copy of the columns. Every method writes
  // the table first and its own fields only when the write succeeded; `dbOk` is
  // whether the database accepts the statement.
  class ChannelRecord {
    const id: int
    var col: Channel

    constructor (id: int, col: Channel)
      ensures this.id == id && this.col == col
    {
      this.id := id;
      this.col := col;
    }

    ghost predicate Mirrors(table: ChannelTable)
      reads this, table
    {
      Live(table.rows, id) && SameSyncState(col, table.rows[id])
    }

    // Success wipes the sealed key in the same statement. Whatever the database says,
    // record and row go on telling the same story, and a success leaves a key in neither.
    method MarkSyncedAs(table: ChannelTable, remoteId: int, dbOk: bool, now: int) returns (ok: bool)
      modifies this`col, table
      ensures table.rows == if dbOk then MarkSynced(old(table.rows), id, remoteId, now) else old(table.rows)
      ensures OnlyRow(old(table.rows), table.rows, id)
      ensures old(Mirrors(table)) ==> Mirrors(table)
      ensures ok ==> !col.HasRecoverableKey() && (Live(table.rows, id) ==> table.rows[id].encKey == [])
      ensures !ok ==> col == old(col) && table.rows == old(table.rows)
      ensures ok ==> col == old(col).(encKey := [], keyState := Synced, remoteId := remoteId, syncStatus := 1)
      ensures ok == dbOk
    {
      if !dbOk {
        return false;
      }
      table.rows := MarkSynced(table.rows, id, remoteId, now);
      col := col.(encKey := []);
      col := col.(keyState := Synced);
      col := col.(remoteId := remoteId);
      col := col.(syncStatus := 1);
      ok := true;
    }

    // Failure keeps whatever sealed key the row has, ready for a retry; the in-memory
    // copy is left alone.
    method MarkFailedWith(table: ChannelTable, reason: string, dbOk: bool, now: int)
      modifies table
      ensures table.rows == if dbOk then MarkFailed(old(table.rows), id, reason, now) else old(table.rows)
      ensures OnlyRow(old(table.rows), table.rows, id)
      ensures dbOk && Live(table.rows, id) ==>
                && table.rows[id].encKey == old(table.rows[id].encKey)
                && (table.rows[id].HasRecoverableKey() <==> old(table.rows[id].encKey) != [])
    {
      if dbOk {
        table.rows := MarkFailed(table.rows, id, reason, now);
      }
    }

    // A metadata-only success never resurrects key state.
    method MarkMetadata(table: ChannelTable, dbOk: bool, now: int) returns (ok: bool)
      modifies this`col, table
      ensures table.rows == if dbOk then MarkMetadataSynced(old(table.rows), id, now) else old(table.rows)
      ensures OnlyRow(old(table.rows), table.rows, id)
      ensures old(Mirrors(table)) ==> Mirrors(table) && SameSyncState(table.rows[id], old(table.rows[id]))
      ensures col == if ok then old(col).(syncStatus := 1) else old(col)
      ensures ok == dbOk
    {
      if !dbOk {
        return false;
      }
      table.rows := MarkMetadataSynced(table.rows, id, now);
      col := col.(syncStatus := 1);
      ok := true;
    }
  }

  // The AGT store as the client of one platform reaches it, and the requests the client
  // has given up on.
  class AgtClient {
    var entries: Remote
    var transit: multiset<Outgoing>

    constructor ()
      ensures entries == map[] && transit == multiset{}
    {
      entries, transit := map[], multiset{};
    }

    // POST. `reply` is what happens to the request. The caller learns an id exactly when
    // there is an entry for it that was not there before.
    method CreateChannel(platformId: int, p: Payload, maker: int, reply: Reply) returns (r: Result<int, string>)
      requires p.id == 0
      requires reply.Success? ==> FreshId(entries, platformId, reply.newId)
      modifies this
      ensures reply.Success? ==> r == Ok(reply.newId)
      ensures reply.Refused? || reply.Lost? ==> r == Err(reply.reason)
      ensures r.Ok? ==> && r.value != 0 && (platformId, r.value) !in old(entries)
                        && entries == old(entries)[(platformId, r.value) := Entry(p.key, p.meta, maker)]
      ensures r.Err? ==> entries == old(entries)
      ensures transit == old(transit) + if reply.Lost? then multiset{Outgoing(platformId, p, maker)} else multiset{}
    {
      match reply
      case Success(n) =>
        entries := Post(entries, Outgoing(platformId, p, maker), n);
        r := Ok(n);
      case Refused(reason) =>
        r := Err(reason);
      case Lost(reason) =>
        transit := transit + multiset{Outgoing(platformId, p, maker)};
        r := Err(reason);
    }

    // PUT. Only the entry of the payload's id is written, and its key survives a payload
    // without one.
    method UpdateChannel(platformId: int, p: Payload, maker: int, reply: Reply) returns (r: Option<string>)
      requires p.id != 0 && reply.Success? ==> (platformId, p.id) in entries
      modifies this
      ensures r.None? <==> p.id != 0 && reply.Success?
      ensures r.Some? && p.id != 0 ==> r.value == reply.reason
      ensures r.None? ==> var ref := (platformId, p.id);
                          var key := if p.key == [] then old(entries)[ref].key else p.key;
                          entries == old(entries)[ref := Entry(key, p.meta, old(entries)[ref].maker)]
      ensures r.Some? ==> entries == old(entries)
      ensures transit == old(transit) + if p.id != 0 && reply.Lost? then multiset{Outgoing(platformId, p, maker)}
                                        else multiset{}
    {
      if p.id == 0 {
        return Some("update requires a top-level id");
      }
      match reply
      case Success(_) =>
        entries := Put(entries, Outgoing(platformId, p, maker));
        r := None;
      case Refused(reason) =>
        r := Some(reason);
      case Lost(reason) =>
        transit := transit + multiset{Outgoing(platformId, p, maker)};
        r := Some(reason);
    }
  }

  // The table, the store, the requests given up on and the outcome after one
  // uninterrupted sync.
  function SyncRows(v: Vault, rows: Rows, id: int, env: Env, dbOk: bool, now: int): Rows {
    if !Live(rows, id) || !dbOk then rows
    else
      match CallMark(v, rows[id], env)
      case None => rows
      case Some(m) => MarkRows(rows, id, m, now)
  }

  function SyncRemote(v: Vault, rows: Rows, remote: Remote, id: int, env: Env): Remote
    requires Live(rows, id) ==> CallPossible(v, remote, id, rows[id], env)
  {
    if Live(rows, id) then CallRemote(v, remote, id, rows[id], env) else remote
  }

  function SyncTransit(v: Vault, rows: Rows, id: int, env: Env): multiset<Outgoing> {
    if Live(rows, id) then CallTransit(v, id, rows[id], env) else multiset{}
  }

  predicate SyncSucceeds(v: Vault, rows: Rows, id: int, env: Env, dbOk: bool) {
    && Live(rows, id) && dbOk
    && CallMark(v, rows[id], env).Some? && !CallMark(v, rows[id], env).value.ToFailed?
  }

  method SyncWithKey(v: Vault, table: ChannelTable, agt: AgtClient, ch: ChannelRecord,
                     reply: Reply, dbOk: bool, now: int)
    returns (ok: bool)
    requires Live(table.rows, ch.id) && table.rows[ch.id] == ch.col && ch.col.HasRecoverableKey()
    requires CallPossible(v, agt.entries, ch.id, ch.col, Answer(reply))
    modifies table, agt, ch
    ensures table.rows == SyncRows(v, old(table.rows), ch.id, Answer(reply), dbOk, now)
    ensures agt.entries == SyncRemote(v, old(table.rows), old(agt.entries), ch.id, Answer(reply))
    ensures agt.transit == old(agt.transit) + SyncTransit(v, old(table.rows), ch.id, Answer(reply))
    ensures ok == SyncSucceeds(v, old(table.rows), ch.id, Answer(reply), dbOk)
  {
    var plain := v.Open(ch.col.encKey);
    if plain.Err? {
      ch.MarkFailedWith(table, "sealed key could not be decrypted", dbOk, now);
      return false;
    }
    var payload := PayloadOf(ch.col, plain.value);
    if ch.col.remoteId == 0 {
      var r := agt.CreateChannel(ch.col.platformId, payload, ch.id, reply);
      if r.Err? {
        ch.MarkFailedWith(table, r.error, dbOk, now);
        return false;
      }
      ok := ch.MarkSyncedAs(table, r.value, dbOk, now);
      return;
    }
    var e := agt.UpdateChannel(ch.col.platformId, payload, ch.id, reply);
    if e.Some? {
      ch.MarkFailedWith(table, e.value, dbOk, now);
      return false;
    }
    ok := ch.MarkSyncedAs(table, ch.col.remoteId, dbOk, now);
  }

  method SyncMetadataOnly(v: Vault, table: ChannelTable, agt: AgtClient, ch: ChannelRecord,
                          reply: Reply, dbOk: bool, now: int)
    returns (ok: bool)
    requires Live(table.rows, ch.id) && table.rows[ch.id] == ch.col && !ch.col.HasRecoverableKey()
    requires CallPossible(v, agt.entries, ch.id, ch.col, Answer(reply))
    modifies table, agt, ch
    ensures table.rows == SyncRows(v, old(table.rows), ch.id, Answer(reply), dbOk, now)
    ensures agt.entries == SyncRemote(v, old(table.rows), old(agt.entries), ch.id, Answer(reply))
    ensures agt.transit == old(agt.transit) + SyncTransit(v, old(table.rows), ch.id, Answer(reply))
    ensures ok == SyncSucceeds(v, old(table.rows), ch.id, Answer(reply), dbOk)
  {
    assert RequestOf(v, ch.id, ch.col) ==
           if ch.col.remoteId == 0 then None else Some(Outgoing(ch.col.platformId, PayloadOf(ch.col, []), ch.id));
    if ch.col.remoteId == 0 {
      ch.MarkFailedWith(table, "no key available to publish; supplier must re-upload", dbOk, now);
      return false;
    }
    var e := agt.UpdateChannel(ch.col.platformId, PayloadOf(ch.col, []), ch.id, reply);
    if e.Some? {
      ch.MarkFailedWith(table, e.value, dbOk, now);
      return false;
    }
    ok := ch.MarkMetadata(table, dbOk, now);
  }

  // One sync, run without interference. `env` is what it meets after the load, and
  // `dbOk` whether the database accepts the final write.
  method SyncChannel(v: Vault, table: ChannelTable, agt: AgtClient, id: int, env: Env, dbOk: bool, now: int)
    returns (ok: bool)
    requires Live(table.rows, id) ==> CallPossible(v, agt.entries, id, table.rows[id], env)
    modifies table, agt
    ensures table.rows == SyncRows(v, old(table.rows), id, env, dbOk, now)
    ensures agt.entries == SyncRemote(v, old(table.rows), old(agt.entries), id, env)
    ensures agt.transit == old(agt.transit) + SyncTransit(v, old(table.rows), id, env)
    ensures ok == SyncSucceeds(v, old(table.rows), id, env, dbOk)
  {
    if !Live(table.rows, id) {
      return false;
    }
    var ch := new ChannelRecord(id, table.rows[id]);
    if env.PlatformMissing? {
      return false;
    }
    if env.TokenUnreadable? {
      ch.MarkFailedWith(table, "platform token could not be decrypted", dbOk, now);
      return false;
    }
    if ch.col.HasRecoverableKey() {
      ok := SyncWithKey(v, table, agt, ch, env.reply, dbOk, now);
    } else {
      ok := SyncMetadataOnly(v, table, agt, ch, env.reply, dbOk, now);
    }
  }

  // The last step of a sync: its mark, or nothing when the final write is refused.
  function LastStep(t: int, dbOk: bool, now: int): Step { if dbOk then WriteMark(t, now) else Drop(t) }

  lemma RepliedSyncEnds(v: Vault, s: State, t: int, dbOk: bool, now: int)
    requires t in s.syncs && s.syncs[t].Replied?
    ensures Next(v, s, LastStep(t, dbOk, now))
            == s.(rows := if dbOk then MarkRows(s.rows, s.syncs[t].id, s.syncs[t].mark, now) else s.rows,
                  syncs := s.syncs - {t})
  {
  }

  lemma GoneSyncEnds(v: Vault, s: State, t: int, dbOk: bool, now: int)
    requires t !in s.syncs
    ensures Next(v, s, LastStep(t, dbOk, now)) == s
  {
  }

  lemma CalledSync(v: Vault, s: State, t: int, env: Env)
    requires t in s.syncs && s.syncs[t].Loaded?
    requires CallPossible(v, s.remote, s.syncs[t].id, s.syncs[t].snap, env)
    ensures var id, c := s.syncs[t].id, s.syncs[t].snap;
            var s', m := Next(v, s, Call(t, env)), CallMark(v, c, env);
            && s'.rows == s.rows && s'.uploaded == s.uploaded
            && s'.remote == CallRemote(v, s.remote, id, c, env)
            && s'.transit == s.transit + CallTransit(v, id, c, env)
            && (m.None? ==> s'.syncs == s.syncs - {t})
            && (m.Some? ==> s'.syncs == s.syncs[t := Replied(id, c, m.value)])
  {
  }

  lemma LoadedSyncIsRun(v: Vault, s: State, t: int, env: Env, dbOk: bool, now: int)
    requires t in s.syncs && s.syncs[t].Loaded? && Live(s.rows, s.syncs[t].id)
    requires s.syncs[t].snap == s.rows[s.syncs[t].id]
    requires CallPossible(v, s.remote, s.syncs[t].id, s.syncs[t].snap, env)
    ensures var id := s.syncs[t].id;
            Next(v, Next(v, s, Call(t, env)), LastStep(t, dbOk, now))
            == State(SyncRows(v, s.rows, id, env, dbOk, now), SyncRemote(v, s.rows, s.remote, id, env),
                     s.syncs - {t}, s.transit + SyncTransit(v, s.rows, id, env), s.uploaded)
  {
    var s2 := Next(v, s, Call(t, env));
    CalledSync(v, s, t, env);
    if CallMark(v, s.syncs[t].snap, env).None? {
      GoneSyncEnds(v, s2, t, dbOk, now);
    } else {
      RepliedSyncEnds(v, s2, t, dbOk, now);
      assert s2.syncs - {t} == s.syncs - {t};
    }
  }

  lemma LoadedNow(v: Vault, s: State, t: int)
    requires t in s.syncs && s.syncs[t].Waiting?
    ensures var id := s.syncs[t].id;
            Next(v, s, Load(t)) ==
            s.(syncs := if Live(s.rows, id) then s.syncs[t := Loaded(id, s.rows[id])] else s.syncs - {t})
  {
  }

  // An uninterrupted sync is the run load, call, mark of the protocol; a refused
  // final write is the same run with the mark dropped.
  lemma SyncIsRun(v: Vault, s: State, t: int, env: Env, dbOk: bool, now: int)
    requires t in s.syncs && s.syncs[t].Waiting?
    requires var id := s.syncs[t].id; Live(s.rows, id) ==> CallPossible(v, s.remote, id, s.rows[id], env)
    ensures var id := s.syncs[t].id;
            Run(v, s, [Load(t), Call(t, env), LastStep(t, dbOk, now)])
            == State(SyncRows(v, s.rows, id, env, dbOk, now), SyncRemote(v, s.rows, s.remote, id, env),
                     s.syncs - {t}, s.transit + SyncTransit(v, s.rows, id, env), s.uploaded)
  {
    RunThree(v, s, Load(t), Call(t, env), LastStep(t, dbOk, now));
    var s1 := Next(v, s, Load(t));
    LoadedNow(v, s, t);
    if Live(s.rows, s.syncs[t].id) {
      LoadedSyncIsRun(v, s1, t, env, dbOk, now);
      assert s1.syncs - {t} == s.syncs - {t};
    } else {
      assert Next(v, s1, Call(t, env)) == s1;
      GoneSyncEnds(v, s1, t, dbOk, now);
      assert s.transit + multiset{} == s.transit;
    }
  }

  // A row marked synced is never asked for its key again, whatever its columns hold.
  lemma SyncedSendsNoKey(v: Vault, id: int, c: Channel)
    requires c.keyState == Synced
    ensures RequestOf(v, id, c).Some? ==> RequestOf(v, id, c).value.payload.key == []
    ensures c.remoteId != 0 ==> RequestOf(v, id, c).Some?
  {
  }

  // The columns a key success writes are these seven; a metadata success writes four of
  // them, and a failure five of them and the retry count.
  predicate SameBesidesSync(a: Channel, b: Channel) {
    b.(encKey := a.encKey, keyState := a.keyState, remoteId := a.remoteId, syncStatus := a.syncStatus,
       syncError := a.syncError, lastSyncTime := a.lastSyncTime, updatedTime := a.updatedTime) == a
  }

  // What a sync of a well-kept row does. Success wipes the key and leaves AGT holding
  // exactly that key (or the key it already had) with the row's metadata under the
  // recorded id; a failure keeps the sealed key as it was and counts itself. No other
  // column changes, and no other row.
  lemma SyncOutcome(v: Vault, rows: Rows, remote: Remote, id: int, env: Env, dbOk: bool, now: int)
    requires Live(rows, id) && WellKept(v, remote, id, rows[id]) && CallPossible(v, remote, id, rows[id], env)
    ensures OnlyRow(rows, SyncRows(v, rows, id, env, dbOk, now), id)
    ensures var c, c' := rows[id], SyncRows(v, rows, id, env, dbOk, now)[id];
            var after := SyncRemote(v, rows, remote, id, env);
            if SyncSucceeds(v, rows, id, env, dbOk) then
              var ref := (c.platformId, c'.remoteId);
              var key := if c.encKey != [] then v.Open(c.encKey).value else remote[(c.platformId, c.remoteId)].key;
              && c'.encKey == [] && c'.syncStatus == 1 && c'.syncError == ""
              && c'.lastSyncTime == now && c'.updatedTime == now
              && c'.keyState == (if c.HasRecoverableKey() then Synced else c.keyState)
              && SameBesidesSync(c, c')
              && ref in after && after[ref] == Entry(key, Meta(c), id)
            else if dbOk && !env.PlatformMissing? then
              && c'.encKey == c.encKey && c'.remoteId == c.remoteId && c'.keyState == Failed
              && c'.syncStatus == 2 && c'.syncAttempts == c.syncAttempts + 1
              && c'.lastSyncTime == now && c'.updatedTime == now
              && SameBesidesSync(c, c'.(syncAttempts := c.syncAttempts))
            else
              c' == c
  {
  }
}
