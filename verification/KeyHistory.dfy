// What becomes of a sealed key: when exactly it is gone, and what a deletion does to it.
module KeyHistory {
  import opened Prelude
  import opened Vaults
  import opened ChannelRows
  import opened Agt
  import opened Protocol
  import opened KeyConservation

  // --- A sealed key is gone exactly when a success mark came after its upload ---

  predicate Uploads(v: Vault, s: State, step: Step, id: int) {
    Enabled(v, s, step) && (step.Create? || step.Rotate?) && step.id == id
  }

  // A success mark that reaches its row; on a deleted row it changes nothing.
  predicate CommitsSuccess(v: Vault, s: State, step: Step, id: int) {
    && Enabled(v, s, step) && step.WriteMark?
    && s.syncs[step.t].id == id && s.syncs[step.t].mark.ToSynced? && Live(s.rows, id)
  }

  // The state in front of step k of a run from the empty store.
  function Before(v: Vault, steps: seq<Step>, k: nat): State
    requires k <= |steps|
  {
    Run(v, Start, steps[..k])
  }

  predicate UploadsAt(v: Vault, steps: seq<Step>, k: nat, id: int)
    requires k < |steps|
  {
    Uploads(v, Before(v, steps, k), steps[k], id)
  }

  predicate SuccessAt(v: Vault, steps: seq<Step>, k: nat, id: int)
    requires k < |steps|
  {
    CommitsSuccess(v, Before(v, steps, k), steps[k], id)
  }

  ghost predicate SuccessSinceUpload(v: Vault, steps: seq<Step>, id: int) {
    exists k :: 0 <= k < |steps| && SuccessAt(v, steps, k, id)
                && forall j :: k < j < |steps| ==> !UploadsAt(v, steps, j, id)
  }

  lemma KeyGoneStep(v: Vault, s: State, step: Step, id: int)
    requires v.Sound() && id in Next(v, s, step).rows
    ensures Next(v, s, step).rows[id].encKey == [] <==>
              !Uploads(v, s, step, id)
              && (CommitsSuccess(v, s, step, id) || (id in s.rows && s.rows[id].encKey == []))
  {
    if Uploads(v, s, step, id) {
      v.OpenSeal(step.nonce, step.key);
    }
  }

  lemma BeforePrefix(v: Vault, front: seq<Step>, last: Step, k: nat)
    requires k <= |front|
    ensures Before(v, front + [last], k) == Before(v, front, k)
    ensures k == |front| ==> Before(v, front + [last], k) == Run(v, Start, front)
  {
    assert (front + [last])[..k] == front[..k];
    assert front[..|front|] == front;
  }

  // The latest step decides, unless it is neither an upload nor a success mark.
  lemma SuccessStep(v: Vault, front: seq<Step>, last: Step, id: int)
    ensures var s := Run(v, Start, front);
            SuccessSinceUpload(v, front + [last], id) <==>
              CommitsSuccess(v, s, last, id) || (SuccessSinceUpload(v, front, id) && !Uploads(v, s, last, id))
  {
    var steps, n := front + [last], |front|;
    forall k | 0 <= k < n
      ensures SuccessAt(v, steps, k, id) == SuccessAt(v, front, k, id)
      ensures UploadsAt(v, steps, k, id) == UploadsAt(v, front, k, id)
    {
      BeforePrefix(v, front, last, k);
    }
    BeforePrefix(v, front, last, n);
    assert SuccessAt(v, steps, n, id) == CommitsSuccess(v, Run(v, Start, front), last, id);
    assert UploadsAt(v, steps, n, id) == Uploads(v, Run(v, Start, front), last, id);
    if k :| 0 <= k < n && SuccessAt(v, front, k, id) && forall j :: k < j < n ==> !UploadsAt(v, front, j, id) {
      assert SuccessAt(v, steps, k, id);
    }
  }

  // Main theorem. In every interleaving, a row has no sealed key if and only if a
  // success mark has reached it since its latest upload.
  lemma {:induction false} KeyGoneExactly(v: Vault, steps: seq<Step>, id: int)
    requires v.Sound() && id in Run(v, Start, steps).rows
    ensures Run(v, Start, steps).rows[id].encKey == [] <==> SuccessSinceUpload(v, steps, id)
    decreases |steps|
  {
    if steps != [] {
      var n := |steps| - 1;
      var front, last := steps[..n], steps[n];
      assert steps == front + [last];
      RunAppend(v, Start, front, [last]);
      RunOne(v, Run(v, Start, front), last);
      KeyGoneStep(v, Run(v, Start, front), last, id);
      SuccessStep(v, front, last, id);
      if id in Run(v, Start, front).rows {
        KeyGoneExactly(v, front, id);
      } else {
        NewRowIsUploaded(v, Run(v, Start, front), last, id);
      }
    }
  }

  lemma NewRowIsUploaded(v: Vault, s: State, step: Step, id: int)
    requires id !in s.rows && id in Next(v, s, step).rows
    ensures Uploads(v, s, step, id)
  {
  }

  // So "failed" means "sealed key retained" for exactly the failed rows that no success
  // mark has reached since their latest upload. What the failed sync itself had loaded
  // plays no part: it may have loaded a key that an overlapping sync wiped.
  lemma FailedKeepsKeyExactly(v: Vault, steps: seq<Step>, id: int)
    requires v.Sound() && id in Run(v, Start, steps).rows && Run(v, Start, steps).rows[id].keyState == Failed
    ensures var c := Run(v, Start, steps).rows[id];
            c.HasRecoverableKey() <==> !SuccessSinceUpload(v, steps, id)
  {
    KeyGoneExactly(v, steps, id);
  }

  // A failed sync makes a live row failed whatever its state, records why, counts the
  // failure, and leaves every other column as it is at that moment.
  lemma FailedMarkKeepsRowKey(v: Vault, s: State, t: int, now: int)
    requires Kept(v, s) && Enabled(v, s, WriteMark(t, now))
    requires s.syncs[t].mark.ToFailed? && Live(s.rows, s.syncs[t].id)
    ensures var id := s.syncs[t].id; var c, c' := s.rows[id], Next(v, s, WriteMark(t, now)).rows[id];
            && c'.keyState == Failed && c'.syncStatus == 2 && c'.syncError == s.syncs[t].mark.reason
            && c'.syncAttempts == c.syncAttempts + 1
            && (c'.HasRecoverableKey() <==> c.encKey != [])
            && c'.(keyState := c.keyState, syncStatus := c.syncStatus, syncError := c.syncError,
                   syncAttempts := c.syncAttempts, lastSyncTime := c.lastSyncTime, updatedTime := c.updatedTime) == c
  {
  }

  // --- The failure count ---

  // A failure mark that reaches its row.
  predicate CommitsFailure(v: Vault, s: State, step: Step, id: int) {
    && Enabled(v, s, step) && step.WriteMark?
    && s.syncs[step.t].id == id && s.syncs[step.t].mark.ToFailed? && Live(s.rows, id)
  }

  predicate FailureAt(v: Vault, steps: seq<Step>, k: nat, id: int)
    requires k < |steps|
  {
    CommitsFailure(v, Before(v, steps, k), steps[k], id)
  }

  // The positions of the failure marks that have reached a row since its latest upload.
  ghost function FailuresSinceUpload(v: Vault, steps: seq<Step>, id: int): set<int> {
    set k | 0 <= k < |steps| && FailureAt(v, steps, k, id)
            && forall j :: k < j < |steps| ==> !UploadsAt(v, steps, j, id)
  }

  lemma FailuresStep(v: Vault, front: seq<Step>, last: Step, id: int)
    ensures var s := Run(v, Start, front);
            FailuresSinceUpload(v, front + [last], id)
            == if Uploads(v, s, last, id) then {}
               else FailuresSinceUpload(v, front, id) + if CommitsFailure(v, s, last, id) then {|front|} else {}
  {
    var steps, n := front + [last], |front|;
    forall k | 0 <= k < n
      ensures FailureAt(v, steps, k, id) == FailureAt(v, front, k, id)
      ensures UploadsAt(v, steps, k, id) == UploadsAt(v, front, k, id)
    {
      BeforePrefix(v, front, last, k);
    }
    BeforePrefix(v, front, last, n);
    assert FailureAt(v, steps, n, id) == CommitsFailure(v, Run(v, Start, front), last, id);
    assert UploadsAt(v, steps, n, id) == Uploads(v, Run(v, Start, front), last, id);
  }

  lemma AttemptsCountStep(v: Vault, s: State, step: Step, id: int)
    requires id in Next(v, s, step).rows
    ensures Next(v, s, step).rows[id].syncAttempts ==
            if Uploads(v, s, step, id) then 0
            else (if id in s.rows then s.rows[id].syncAttempts else 0)
                 + if CommitsFailure(v, s, step, id) then 1 else 0
  {
  }

  // Main theorem. In every interleaving the retry count of a row is the number of failure
  // marks that have reached it since its latest upload; nothing else moves it.
  lemma {:induction false} AttemptsCounted(v: Vault, steps: seq<Step>, id: int)
    requires id in Run(v, Start, steps).rows
    ensures Run(v, Start, steps).rows[id].syncAttempts == |FailuresSinceUpload(v, steps, id)|
    decreases |steps|
  {
    if steps != [] {
      var n := |steps| - 1;
      var front, last := steps[..n], steps[n];
      assert steps == front + [last];
      RunAppend(v, Start, front, [last]);
      RunOne(v, Run(v, Start, front), last);
      AttemptsCountStep(v, Run(v, Start, front), last, id);
      FailuresStep(v, front, last, id);
      assert n !in FailuresSinceUpload(v, front, id);
      if id in Run(v, Start, front).rows {
        AttemptsCounted(v, front, id);
      } else {
        NewRowIsUploaded(v, Run(v, Start, front), last, id);
      }
    }
  }

  // --- Deleted rows ---

  lemma DeletedRowSkipped(v: Vault, s: State, step: Step, id: int)
    requires id in s.rows && s.rows[id].deleted
    ensures id in Next(v, s, step).rows && Next(v, s, step).rows[id] == s.rows[id]
  {
  }

  // Every statement skips a deleted row: it is the same in every continuation, and so
  // is the key sealed in it.
  lemma {:induction false} DeletedRowFrozen(v: Vault, s: State, steps: seq<Step>, id: int)
    requires id in s.rows && s.rows[id].deleted
    ensures id in Run(v, s, steps).rows && Run(v, s, steps).rows[id] == s.rows[id]
    decreases |steps|
  {
    if steps != [] {
      DeletedRowSkipped(v, s, steps[0], id);
      DeletedRowFrozen(v, Next(v, s, steps[0]), steps[1..], id);
    }
  }

  // --- Every other column is what its latest writer wrote ---

  datatype Column =
    | Identity        // owner, platform, type, creation, enabled
    | Metadata        // name, base URL, models, group
    | Sealed          // the sealed key
    | Fingerprint     // fingerprint and display suffix
    | KeyStateColumn
    | RemoteIdColumn
    | SyncStatus
    | SyncError
    | SyncTime
    | Quota
    | UpdateTime
    | Deletion

  // A mark that reaches its row.
  predicate Marks(v: Vault, s: State, step: Step, id: int) {
    Enabled(v, s, step) && step.WriteMark? && s.syncs[step.t].id == id && Live(s.rows, id)
  }

  // Which statements write a column of a row.
  predicate Writes(v: Vault, s: State, step: Step, id: int, col: Column) {
    var own := Enabled(v, s, step) && !step.Load? && !step.Call? && !step.WriteMark? && !step.Drop? && !step.Arrive?
               && step.id == id;
    || (own && step.Create?)
    || match col
       case Identity => false
       case Metadata => own && step.Edit?
       case Sealed => (own && step.Rotate?) || CommitsSuccess(v, s, step, id)
       case Fingerprint => own && step.Rotate?
       case KeyStateColumn => (own && step.Rotate?) || CommitsSuccess(v, s, step, id) || CommitsFailure(v, s, step, id)
       case RemoteIdColumn => CommitsSuccess(v, s, step, id)
       case SyncStatus => (own && (step.Rotate? || step.Edit?)) || Marks(v, s, step, id)
       case SyncError => Marks(v, s, step, id)
       case SyncTime => Marks(v, s, step, id)
       case Quota => own && step.Usage?
       case UpdateTime => (own && (step.Rotate? || step.Edit?)) || Marks(v, s, step, id)
       case Deletion => own && step.Delete?
  }

  // What the statement leaves in the column.
  ghost predicate Wrote(v: Vault, s: State, step: Step, c: Channel, col: Column)
    requires step.WriteMark? ==> step.t in s.syncs && s.syncs[step.t].Replied?
  {
    match col
    case Identity =>
      step.Create? ==>
        && c.userId == step.userId && c.platformId == step.platformId && c.kind == step.kind
        && c.createdTime == step.now && c.status == STATUS_ENABLED
    case Metadata =>
      && (step.Create? ==> Meta(c) == Agt.Metadata(step.name, step.kind, "", step.models, step.group))
      && (step.Edit? ==> && c.name == step.name && c.baseUrl == step.baseUrl
                         && c.models == step.models && c.group == step.group)
    case Sealed =>
      if step.Create? || step.Rotate? then v.Open(c.encKey) == Ok(step.key) else c.encKey == []
    case Fingerprint =>
      step.Create? || step.Rotate? ==> c.fingerprint == v.digest(step.key) && c.last4 == Last4(step.key)
    case KeyStateColumn =>
      c.keyState == if step.WriteMark? then (if s.syncs[step.t].mark.ToSynced? then Synced else Failed) else Pending
    case RemoteIdColumn =>
      c.remoteId == if step.WriteMark? && s.syncs[step.t].mark.ToSynced? then s.syncs[step.t].mark.remoteId else 0
    case SyncStatus =>
      c.syncStatus == if step.WriteMark? then (if s.syncs[step.t].mark.ToFailed? then 2 else 1) else 0
    case SyncError =>
      c.syncError == if step.WriteMark? && s.syncs[step.t].mark.ToFailed? then s.syncs[step.t].mark.reason else ""
    case SyncTime =>
      c.lastSyncTime == if step.WriteMark? then step.now else 0
    case Quota =>
      if step.Usage? then c.usedQuota == step.quota && c.usageSyncTime == step.now
      else c.usedQuota == 0 && c.usageSyncTime == 0
    case UpdateTime =>
      step.Create? || step.Rotate? || step.Edit? || step.WriteMark? ==> c.updatedTime == step.now
    case Deletion =>
      c.deleted == step.Delete?
  }

  predicate SameColumn(a: Channel, b: Channel, col: Column) {
    match col
    case Identity =>
      && a.userId == b.userId && a.platformId == b.platformId && a.kind == b.kind
      && a.createdTime == b.createdTime && a.status == b.status
    case Metadata => Meta(a) == Meta(b)
    case Sealed => a.encKey == b.encKey
    case Fingerprint => a.fingerprint == b.fingerprint && a.last4 == b.last4
    case KeyStateColumn => a.keyState == b.keyState
    case RemoteIdColumn => a.remoteId == b.remoteId
    case SyncStatus => a.syncStatus == b.syncStatus
    case SyncError => a.syncError == b.syncError
    case SyncTime => a.lastSyncTime == b.lastSyncTime
    case Quota => a.usedQuota == b.usedQuota && a.usageSyncTime == b.usageSyncTime
    case UpdateTime => a.updatedTime == b.updatedTime
    case Deletion => a.deleted == b.deleted
  }

  lemma ColumnWritten(v: Vault, s: State, step: Step, id: int, col: Column)
    requires v.Sound() && Writes(v, s, step, id, col)
    ensures id in Next(v, s, step).rows
    ensures Wrote(v, s, step, Next(v, s, step).rows[id], col)
  {
    if step.Create? || step.Rotate? {
      v.OpenSeal(step.nonce, step.key);
    }
  }

  lemma UntouchedByMark(v: Vault, s: State, t: int, now: int, id: int, col: Column)
    requires Enabled(v, s, WriteMark(t, now)) && !Writes(v, s, WriteMark(t, now), id, col)
    requires id in Apply(v, s, WriteMark(t, now)).rows
    ensures id in s.rows && SameColumn(s.rows[id], Apply(v, s, WriteMark(t, now)).rows[id], col)
  {
  }

  lemma UntouchedByUpdate(v: Vault, s: State, step: Step, id: int, col: Column)
    requires Enabled(v, s, step) && !Writes(v, s, step, id, col) && (step.Edit? || step.Rotate?)
    requires id in Apply(v, s, step).rows
    ensures id in s.rows && SameColumn(s.rows[id], Apply(v, s, step).rows[id], col)
  {
  }

  lemma UntouchedByStatement(v: Vault, s: State, step: Step, id: int, col: Column)
    requires Enabled(v, s, step) && !Writes(v, s, step, id, col) && (step.Create? || step.Usage? || step.Delete?)
    requires id in Apply(v, s, step).rows
    ensures id in s.rows && SameColumn(s.rows[id], Apply(v, s, step).rows[id], col)
  {
  }

  lemma ColumnUntouched(v: Vault, s: State, step: Step, id: int, col: Column)
    requires id in Next(v, s, step).rows && !Writes(v, s, step, id, col)
    ensures id in s.rows && SameColumn(s.rows[id], Next(v, s, step).rows[id], col)
  {
    if Enabled(v, s, step) {
      if step.WriteMark? {
        UntouchedByMark(v, s, step.t, step.now, id, col);
      } else if step.Edit? || step.Rotate? {
        UntouchedByUpdate(v, s, step, id, col);
      } else if step.Create? || step.Usage? || step.Delete? {
        UntouchedByStatement(v, s, step, id, col);
      }
    }
  }

  lemma SameColumnWrote(v: Vault, s: State, step: Step, a: Channel, b: Channel, col: Column)
    requires step.WriteMark? ==> step.t in s.syncs && s.syncs[step.t].Replied?
    requires Wrote(v, s, step, a, col) && SameColumn(a, b, col)
    ensures Wrote(v, s, step, b, col)
  {
  }

  predicate WritesAt(v: Vault, steps: seq<Step>, k: nat, id: int, col: Column)
    requires k < |steps|
  {
    Writes(v, Before(v, steps, k), steps[k], id, col)
  }

  // Position k holds the latest statement that wrote the column, and the column still
  // holds what it wrote.
  ghost predicate LatestWrite(v: Vault, steps: seq<Step>, k: nat, id: int, c: Channel, col: Column) {
    && k < |steps| && WritesAt(v, steps, k, id, col) && Wrote(v, Before(v, steps, k), steps[k], c, col)
    && forall j :: k < j < |steps| ==> !WritesAt(v, steps, j, id, col)
  }

  // Main theorem. In every interleaving each column of each row holds exactly what the
  // latest statement that writes it wrote; marks and edits on deleted rows write nothing.
  lemma {:induction false} ColumnsAreLatestWrites(v: Vault, steps: seq<Step>, id: int, col: Column)
    returns (k: nat)
    requires v.Sound() && id in Run(v, Start, steps).rows
    ensures LatestWrite(v, steps, k, id, Run(v, Start, steps).rows[id], col)
    decreases |steps|
  {
    var n := |steps| - 1;
    var front, last := steps[..n], steps[n];
    assert steps == front + [last];
    var s := Run(v, Start, front);
    RunAppend(v, Start, front, [last]);
    RunOne(v, s, last);
    BeforePrefix(v, front, last, n);
    if Writes(v, s, last, id, col) {
      ColumnWritten(v, s, last, id, col);
      k := n;
    } else {
      ColumnUntouched(v, s, last, id, col);
      k := ColumnsAreLatestWrites(v, front, id, col);
      LatestGoesOn(v, front, last, k, id, s.rows[id], Next(v, s, last).rows[id], col);
    }
  }

  lemma LatestGoesOn(v: Vault, front: seq<Step>, last: Step, k: nat, id: int, c: Channel, c': Channel, col: Column)
    requires LatestWrite(v, front, k, id, c, col) && SameColumn(c, c', col)
    requires !Writes(v, Run(v, Start, front), last, id, col)
    ensures LatestWrite(v, front + [last], k, id, c', col)
  {
    var steps, n := front + [last], |front|;
    forall j | 0 <= j < n
      ensures WritesAt(v, steps, j, id, col) == WritesAt(v, front, j, id, col)
      ensures Before(v, steps, j) == Before(v, front, j)
    {
      BeforePrefix(v, front, last, j);
    }
    BeforePrefix(v, front, last, n);
    SameColumnWrote(v, Before(v, front, k), front[k], c, c', col);
  }
}
