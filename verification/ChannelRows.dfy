// The channel table: its columns, and one function per SQL statement. Updates and
// ordinary reads skip soft-deleted rows; a row never leaves the table.
module ChannelRows {
  import opened Prelude

  const MAX_SYNC_RETRIES := 5

  const STATUS_ENABLED := 1

  datatype KeyState = Pending | Synced | Failed

  datatype Channel = Channel(
    userId: int, platformId: int, name: string, kind: int,
    encKey: Bytes, fingerprint: string, last4: Bytes, keyState: KeyState,
    baseUrl: string, models: string, group: string,
    usedQuota: int, usageSyncTime: int,
    remoteId: int, syncStatus: int, syncError: string, syncAttempts: nat, lastSyncTime: int,
    status: int, createdTime: int, updatedTime: int, deleted: bool)
  {
    predicate HasRecoverableKey() { encKey != [] && keyState != Synced }
  }

  type Rows = map<int, Channel>

  predicate Live(rows: Rows, id: int) { id in rows && !rows[id].deleted }

  // At most one row differs between two tables with the same ids.
  ghost predicate OnlyRow(a: Rows, b: Rows, id: int) {
    a.Keys == b.Keys && forall i :: i in a && i != id ==> b[i] == a[i]
  }

  // INSERT of a freshly uploaded channel.
  function FreshRow(userId: int, platformId: int, name: string, kind: int,
                    sealed: Bytes, fingerprint: string, last4: Bytes,
                    models: string, group: string, now: int): Channel {
    Channel(userId, platformId, name, kind, sealed, fingerprint, last4, Pending, "", models, group,
            0, 0, 0, 0, "", 0, 0, STATUS_ENABLED, now, now, false)
  }

  function SyncedColumns(c: Channel, remoteId: int, now: int): Channel {
    c.(encKey := [], keyState := Synced, remoteId := remoteId, syncStatus := 1, syncError := "",
    lastSyncTime := now, updatedTime := now)
  }

  function FailedColumns(c: Channel, reason: string, now: int): Channel {
    c.(keyState := Failed, syncStatus := 2, syncError := reason, syncAttempts := c.syncAttempts + 1,
    lastSyncTime := now, updatedTime := now)
  }

  function MetadataSyncedColumns(c: Channel, now: int): Channel {
    c.(syncStatus := 1, syncError := "", lastSyncTime := now, updatedTime := now)
  }

  function EditedColumns(c: Channel, name: string, baseUrl: string, models: string, group: string, now: int): Channel {
    c.(name := name, baseUrl := baseUrl, models := models, group := group, syncStatus := 0, updatedTime := now)
  }

  function RotatedColumns(c: Channel, sealed: Bytes, fingerprint: string, last4: Bytes, now: int): Channel {
    c.(encKey := sealed, fingerprint := fingerprint, last4 := last4, keyState := Pending,
    syncStatus := 0, syncAttempts := 0, updatedTime := now)
  }

  function UsageColumns(c: Channel, quota: int, now: int): Channel {
    c.(usedQuota := quota, usageSyncTime := now)
  }

  function MarkSynced(rows: Rows, id: int, remoteId: int, now: int): Rows {
    if Live(rows, id) then rows[id := SyncedColumns(rows[id], remoteId, now)] else rows
  }

  function MarkFailed(rows: Rows, id: int, reason: string, now: int): Rows {
    if Live(rows, id) then rows[id := FailedColumns(rows[id], reason, now)] else rows
  }

  function MarkMetadataSynced(rows: Rows, id: int, now: int): Rows {
    if Live(rows, id) then rows[id := MetadataSyncedColumns(rows[id], now)] else rows
  }

  function UpdateMetadata(rows: Rows, id: int, name: string, baseUrl: string, models: string, group: string, now: int)
    : Rows
  {
    if Live(rows, id) then rows[id := EditedColumns(rows[id], name, baseUrl, models, group, now)] else rows
  }

  function ReplaceKey(rows: Rows, id: int, sealed: Bytes, fingerprint: string, last4: Bytes, now: int): Rows {
    if Live(rows, id) then rows[id := RotatedColumns(rows[id], sealed, fingerprint, last4, now)] else rows
  }

  function SetUsage(rows: Rows, id: int, quota: int, now: int): Rows {
    if Live(rows, id) then rows[id := UsageColumns(rows[id], quota, now)] else rows
  }

  function SoftDelete(rows: Rows, id: int): Rows {
    if Live(rows, id) then rows[id := rows[id].(deleted := true)] else rows
  }
}
