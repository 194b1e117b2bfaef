// The handlers refine the key protocol: what a request does to the channel table is
// a run of protocol steps, one per statement.
module Refinement {
  import opened Prelude
  import opened Text
  import opened Vaults
  import opened Catalog
  import opened Whitelist
  import opened ChannelRows
  import opened Registry
  import opened Integrity
  import P = Protocol

  // The deletes behind one bulk delete of a user's channels, in id order.
  function DeletesBelow(rows: Rows, n: nat, userId: int): seq<P.Step> {
    if n == 0 then []
    else
      DeletesBelow(rows, n - 1, userId)
      + if Live(rows, n - 1) && rows[n - 1].userId == userId then [P.Delete(n - 1)] else []
  }

  // An accepted update: the metadata, the key if one came, the unguarded dispatch.
  function UpdateSteps(s: Store, r: Request, a: Accepted, t: int): seq<P.Step>
    requires r.UpdateChannel? && r.id in s.channels
  {
    var edit := P.Edit(r.id, s.channels[r.id].name, "", a.modelsCsv, a.group, r.now);
    var dispatch := P.Dispatch(r.id, t);
    if Rotates(r) then [edit, P.Rotate(r.id, Utf8(r.key), r.nonce, r.now), dispatch] else [edit, dispatch]
  }

  // An accepted upload: the insert, with the dispatch of its sync.
  function CreateStep(id: int, r: Request, row: Channel, t: int): P.Step
    requires r.CreateChannel?
  {
    P.Create(id, t, r.userId, r.platformId, row.name, r.kind, Utf8(r.key), r.nonce, row.models, row.group, r.now)
  }

  // The steps of a request; `t` names the background sync it dispatches.
  function StepsOf(v: Vault, s: Store, r: Request, t: int): seq<P.Step> {
    match r
    case CreateChannel(_, _, _, _, _, _, _, _) =>
      if Inserts(v, s, r) then
        AcceptedPlatform(v, s, r);
        [CreateStep(s.nextChannel, r, NewRow(v, s, r, CheckUpload(v, s, r).value), t)]
      else []
    case UpdateChannel(_, _, _, _, _, _) =>
      if CheckUpdate(s, r).Ok? then UpdateSteps(s, r, CheckUpdate(s, r).value, t) else []
    case DeleteChannel(userId, id) => if OwnedLive(s, userId, id) then [P.Delete(id)] else []
    case ResyncChannel(userId, id) => if OwnedLive(s, userId, id) then [P.Resync(id, t)] else []
    case RefreshUsage(_, id, answer, now) =>
      if DoRefreshUsage(s, r).1.UsageOf? then [P.Usage(id, answer.value, now)] else []
    case DeleteUser(id, stop) => if stop >= 2 then DeletesBelow(s.channels, s.nextChannel, id) else []
    case _ => []
  }

  lemma CreateRefines(v: Vault, s: Store, p: P.State, r: Request, t: int)
    requires p.rows == s.channels && t !in p.syncs && IdsIntact(s)
    requires r.CreateChannel? && |r.nonce| == NONCE_SIZE
    ensures P.Run(v, p, StepsOf(v, s, r, t)).rows == After(v, s, r).channels
    ensures Inserts(v, s, r) ==> P.Run(v, p, StepsOf(v, s, r, t)).syncs == p.syncs[t := P.Waiting(s.nextChannel)]
  {
    if Inserts(v, s, r) {
      InsertTable(v, s, r);
      var row := NewRow(v, s, r, CheckUpload(v, s, r).value);
      var step := CreateStep(s.nextChannel, r, row, t);
      KeyGiven(v, s, r);
      assert P.Enabled(v, p, step);
      P.RunOne(v, p, step);
    } else {
      RefusedUpload(v, s, r);
    }
  }

  lemma KeyGiven(v: Vault, s: Store, r: Request)
    requires Inserts(v, s, r)
    ensures r.key != ""
  {
    TextBlank();
  }

  lemma TextBlank()
    ensures TrimSpace("") == ""
  {
  }

  // The statements of an update on the protocol's table.
  lemma UpdateStatements(v: Vault, p: P.State, edit: P.Step, rotate: P.Step, dispatch: P.Step)
    requires edit.Edit? && rotate.Rotate? && dispatch.Dispatch?
    requires edit.id == rotate.id == dispatch.id && Live(p.rows, edit.id) && dispatch.t !in p.syncs
    requires rotate.key != [] && |rotate.nonce| == NONCE_SIZE
    ensures var p1 := P.Next(v, p, edit);
            var edited := UpdateMetadata(p.rows, edit.id, edit.name, edit.baseUrl, edit.models, edit.group, edit.now);
            && p1.rows == edited
            && P.Next(v, p1, dispatch).rows == edited
            && P.Next(v, p1, dispatch).syncs == p.syncs[dispatch.t := P.Waiting(edit.id)]
            && var p2 := P.Next(v, P.Next(v, p1, rotate), dispatch);
               && p2.rows == ReplaceKey(edited, edit.id, v.Blob(rotate.nonce, rotate.key), v.digest(rotate.key),
                                        Last4(rotate.key), rotate.now)
               && p2.syncs == p.syncs[dispatch.t := P.Waiting(edit.id)]
  {
  }

  lemma UpdateRun(v: Vault, s: Store, p: P.State, r: Request, a: Accepted, t: int)
    requires p.rows == s.channels && t !in p.syncs
    requires r.UpdateChannel? && |r.nonce| == NONCE_SIZE && Live(s.channels, r.id)
    ensures P.Run(v, p, UpdateSteps(s, r, a, t)).rows == UpdatedRows(v, s, r, a)
    ensures P.Run(v, p, UpdateSteps(s, r, a, t)).syncs == p.syncs[t := P.Waiting(r.id)]
  {
    TextBlank();
    var edit := P.Edit(r.id, s.channels[r.id].name, "", a.modelsCsv, a.group, r.now);
    var dispatch := P.Dispatch(r.id, t);
    if Rotates(r) {
      var rotate := P.Rotate(r.id, Utf8(r.key), r.nonce, r.now);
      P.RunThree(v, p, edit, rotate, dispatch);
      UpdateStatements(v, p, edit, rotate, dispatch);
    } else {
      P.RunTwo(v, p, edit, dispatch);
      UpdateStatements(v, p, edit, P.Rotate(r.id, [0], r.nonce, r.now), dispatch);
    }
  }

  lemma UpdateRefines(v: Vault, s: Store, p: P.State, r: Request, t: int)
    requires p.rows == s.channels && t !in p.syncs
    requires r.UpdateChannel? && |r.nonce| == NONCE_SIZE
    ensures P.Run(v, p, StepsOf(v, s, r, t)).rows == After(v, s, r).channels
    ensures CheckUpdate(s, r).Ok? ==> P.Run(v, p, StepsOf(v, s, r, t)).syncs == p.syncs[t := P.Waiting(r.id)]
  {
    if CheckUpdate(s, r).Ok? {
      UpdateAfter(v, s, r);
      UpdateRun(v, s, p, r, CheckUpdate(s, r).value, t);
    } else {
      RefusedUpdate(v, s, r);
    }
  }

  lemma {:induction false} DeletesRefine(v: Vault, p: P.State, n: nat, userId: int)
    ensures P.Run(v, p, DeletesBelow(p.rows, n, userId)).rows
            == map i | i in p.rows ::
                 if 0 <= i < n && p.rows[i].userId == userId then p.rows[i].(deleted := true) else p.rows[i]
  {
    if n > 0 {
      DeletesRefine(v, p, n - 1, userId);
      var steps := DeletesBelow(p.rows, n - 1, userId);
      if Live(p.rows, n - 1) && p.rows[n - 1].userId == userId {
        P.RunAppend(v, p, steps, [P.Delete(n - 1)]);
        P.RunOne(v, P.Run(v, p, steps), P.Delete(n - 1));
      } else {
        assert DeletesBelow(p.rows, n, userId) == steps;
      }
    }
  }

  lemma DeleteUserRefines(v: Vault, s: Store, p: P.State, r: Request, t: int)
    requires p.rows == s.channels && IdsIntact(s) && r.DeleteUser?
    ensures P.Run(v, p, StepsOf(v, s, r, t)).rows == After(v, s, r).channels
  {
    AdminAfter(v, s, r);
    CascadeRows(s, r.id, r.stop);
    if r.stop >= 2 {
      DeletesRefine(v, p, s.nextChannel, r.id);
    }
  }

  lemma CascadeRows(s: Store, id: int, stop: nat)
    ensures DoDeleteUser(s, id, stop).channels == if stop >= 2 then WithoutChannelsOf(s.channels, id) else s.channels
  {
  }

  // A request of at most one statement.
  lemma StatementRefines(v: Vault, s: Store, p: P.State, r: Request, t: int)
    requires p.rows == s.channels && (r.DeleteChannel? || r.RefreshUsage?)
    ensures P.Run(v, p, StepsOf(v, s, r, t)).rows == After(v, s, r).channels
  {
    var steps := StepsOf(v, s, r, t);
    if r.DeleteChannel? {
      DeleteAfter(v, s, r);
    } else {
      UsageAfter(v, s, r);
    }
    if steps != [] {
      P.RunOne(v, p, steps[0]);
      assert steps == [steps[0]];
    }
  }

  lemma ReadRefines(v: Vault, s: Store, p: P.State, r: Request, t: int)
    requires p.rows == s.channels && (r.ResyncChannel? || r.ListChannels?)
    ensures P.Run(v, p, StepsOf(v, s, r, t)).rows == After(v, s, r).channels
  {
    ReadsAfter(v, s, r);
    var steps := StepsOf(v, s, r, t);
    if steps != [] {
      P.RunOne(v, p, steps[0]);
      assert steps == [steps[0]];
    }
  }

  predicate Refuses(resp: Response) { resp.Fail? || resp.Rejected? }

  lemma UploadAnswer(v: Vault, s: Store, r: Request)
    requires r.CreateChannel?
    ensures Refuses(DoCreateChannel(v, s, r).1) <==> CheckUpload(v, s, r).Err?
  {
  }

  lemma UpdateAnswer(v: Vault, s: Store, r: Request)
    requires r.UpdateChannel?
    ensures Refuses(DoUpdateChannel(v, s, r).1) <==> CheckUpdate(s, r).Err?
  {
  }

  lemma ResyncStarts(v: Vault, s: Store, p: P.State, userId: int, id: int, t: int)
    requires p.rows == s.channels && t !in p.syncs
    ensures var steps := StepsOf(v, s, Request.ResyncChannel(userId, id), t);
            P.Run(v, p, steps).syncs
            == if Refuses(DoResyncChannel(s, userId, id).1) then p.syncs else p.syncs[t := P.Waiting(id)]
  {
    if OwnedLive(s, userId, id) {
      P.RunOne(v, p, P.Resync(id, t));
    }
  }

  // An upload, an update or a resync is answered without an error exactly when it has
  // started a background sync.
  lemma AnsweredExactlyWhenStarted(v: Vault, s: Store, p: P.State, r: Request, t: int)
    requires p.rows == s.channels && t !in p.syncs && IdsIntact(s)
    requires r.CreateChannel? || r.UpdateChannel? || r.ResyncChannel?
    requires r.CreateChannel? || r.UpdateChannel? ==> |r.nonce| == NONCE_SIZE
    ensures t in P.Run(v, p, StepsOf(v, s, r, t)).syncs <==> !Refuses(Handle(v, s, r).1)
  {
    match r
    case CreateChannel(_, _, _, _, _, _, _, _) =>
      UploadAnswer(v, s, r);
      CreateRefines(v, s, p, r, t);
    case UpdateChannel(_, _, _, _, _, _) =>
      UpdateAnswer(v, s, r);
      UpdateRefines(v, s, p, r, t);
    case ResyncChannel(userId, id) =>
      ResyncStarts(v, s, p, userId, id, t);
  }

  // Main theorem. On equal channel tables, any request other than a sync mark changes
  // the table exactly as its run of protocol steps does; so what holds over all runs
  // of the protocol holds of the handlers in any interleaving with the syncs.
  lemma RequestRefinesProtocol(v: Vault, s: Store, p: P.State, r: Request, t: int)
    requires p.rows == s.channels && t !in p.syncs && IdsIntact(s) && !r.SyncMark?
    requires r.CreateChannel? || r.UpdateChannel? ==> |r.nonce| == NONCE_SIZE
    ensures P.Run(v, p, StepsOf(v, s, r, t)).rows == After(v, s, r).channels
  {
    if r.CreateChannel? {
      CreateRefines(v, s, p, r, t);
    } else if r.UpdateChannel? {
      UpdateRefines(v, s, p, r, t);
    } else if r.DeleteUser? {
      DeleteUserRefines(v, s, p, r, t);
    } else if r.DeleteChannel? || r.RefreshUsage? {
      StatementRefines(v, s, p, r, t);
    } else if r.ResyncChannel? || r.ListChannels? {
      ReadRefines(v, s, p, r, t);
    } else {
      AdminKeepsRows(v, s, r);
    }
  }
}
