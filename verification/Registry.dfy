// The relational store (users, platforms, grants, channels) and the effect of every
// handler on it, each handler taken as one atomic step.
module Registry {
  import opened Prelude
  import opened Text
  import opened Vaults
  import opened Catalog
  import opened Whitelist
  import opened ChannelRows
  import opened Names
  import P = Protocol

  const ROLE_SUPPLIER := 1
  const ROLE_ADMIN := 10
  const ROLE_ROOT := 100

  datatype User = User(username: string, role: int, status: int)

  // `nextChannel` is the auto-increment counter of the channel table, whose rows are
  // never removed.
  datatype Store = Store(
    users: map<int, User>, platforms: map<int, Platform>, grants: map<int, Grant>,
    channels: Rows, nextChannel: nat)

  const Empty := Store(map[], map[], map[], map[], 1)

  // One channel as the supplier sees it: the columns without the sealed key.
  datatype View = View(id: int, columns: Channel, showAmount: bool)

  datatype Response =
    | Fail(code: int, message: string)
    | Rejected(violation: Violation)
    | Done(id: int)
    | Uploaded(id: int, keyState: KeyState, syncStatus: int)
    | Listed(items: seq<View>, total: nat)
    | UsageOf(id: int, quota: int)

  // Ids of new users, platforms and grants are chosen by the database. `stop` is how
  // many write statements of a cascade run before it fails.
  datatype Request =
    | CreateUser(newId: int, username: string, passwordLength: nat, role: int)
    | UpdateUser(id: int, role: int, status: int)
    | DeleteUser(id: int, stop: nat)
    | CreatePlatform(newId: int, platform: Platform, hasToken: bool)
    | UpdatePlatform(id: int, platform: Platform)
    | DeletePlatform(id: int, stop: nat)
    | UpsertGrant(newId: int, grant: Grant)
    | DeleteGrant(id: int)
    | ListChannels(userId: int, platformId: int, offset: nat, limit: nat)
    | CreateChannel(userId: int, username: string, platformId: int, kind: int, key: string, models: string,
                    nonce: Bytes, now: int)
    | UpdateChannel(userId: int, id: int, key: string, models: string, nonce: Bytes, now: int)
    | DeleteChannel(userId: int, id: int)
    | ResyncChannel(userId: int, id: int)
    | RefreshUsage(userId: int, id: int, answer: Result<int, string>, now: int)
    | SyncMark(id: int, mark: P.Mark, now: int)

  // --- Reads ---

  function GetPlatform(s: Store, id: int): Option<Platform> {
    if id != 0 && id in s.platforms then Some(s.platforms[id]) else None
  }

  function GetUser(s: Store, id: int): Option<User> {
    if id != 0 && id in s.users then Some(s.users[id]) else None
  }

  function GrantIds(s: Store, userId: int, platformId: int): set<int> {
    set i | i in s.grants && s.grants[i].userId == userId && s.grants[i].platformId == platformId
  }

  function EnabledGrantIds(s: Store, userId: int, platformId: int): set<int> {
    set i | i in GrantIds(s, userId, platformId) && s.grants[i].status == Catalog.STATUS_ENABLED
  }

  // A lookup of one row returns the lowest primary key.
  function GetGrant(s: Store, userId: int, platformId: int): Option<Grant> {
    match FirstId(EnabledGrantIds(s, userId, platformId))
    case None => None
    case Some(i) => Some(s.grants[i])
  }

  // Platform exists and is enabled, and the supplier holds an enabled grant for it.
  function Authorize(s: Store, userId: int, platformId: int): Result<(Platform, Grant), string> {
    match GetPlatform(s, platformId)
    case None => Err("platform not found")
    case Some(p) =>
      if p.status == STATUS_DISABLED then Err("platform is disabled")
      else
        match GetGrant(s, userId, platformId)
        case None => Err("you are not authorized to use this platform")
        case Some(g) => Ok((p, g))
  }

  // All rows of a pair, soft-deleted ones included.
  function PairRows(rows: Rows, userId: int, platformId: int): set<int> {
    set i | i in rows && rows[i].userId == userId && rows[i].platformId == platformId
  }

  function LivePair(rows: Rows, userId: int, platformId: int): set<int> {
    set i | i in PairRows(rows, userId, platformId) && !rows[i].deleted
  }

  function PairNames(rows: Rows, userId: int, platformId: int): set<string> {
    set i | i in PairRows(rows, userId, platformId) :: rows[i].name
  }

  predicate FingerprintExists(rows: Rows, userId: int, platformId: int, fingerprint: string) {
    exists i :: i in LivePair(rows, userId, platformId) && rows[i].fingerprint == fingerprint
  }

  predicate OwnedLive(s: Store, userId: int, id: int) {
    Live(s.channels, id) && s.channels[id].userId == userId
  }

  function NamingPlan(s: Store, userId: int, username: string, platformId: int, prefix: string, group: string): Plan {
    Plan(prefix, username, group, |PairRows(s.channels, userId, platformId)| + 1)
  }

  // --- Suppliers ---

  // The key, the authorization and the whitelist: the first failing check, or the
  // grant used and the validated fields.
  function CheckFields(s: Store, r: Request): Result<(Grant, Accepted), Response>
    requires r.CreateChannel?
  {
    if TrimSpace(r.key) == "" then Err(Fail(400, "key is required"))
    else
      match Authorize(s, r.userId, r.platformId)
      case Err(e) => Err(Fail(403, e))
      case Ok((p, g)) =>
        match p.GroupForType(r.kind)
        case None => Err(Fail(400, "no group is configured for this channel type"))
        case Some(bound) =>
          match Upload(ChannelInput(r.kind, Split(r.models, ','), bound.name), p, Some(g))
          case Err(e) => Err(Rejected(e))
          case Ok(accepted) => Ok((g, accepted))
  }

  // Everything before the insert: the fields, then the cap, then the duplicate check.
  function CheckUpload(v: Vault, s: Store, r: Request): Result<Accepted, Response>
    requires r.CreateChannel?
  {
    match CheckFields(s, r)
    case Err(e) => Err(e)
    case Ok((g, accepted)) =>
      if g.maxChannels > 0 && |LivePair(s.channels, r.userId, r.platformId)| >= g.maxChannels then
        Err(Fail(403, "channel limit reached for this platform"))
      else if FingerprintExists(s.channels, r.userId, r.platformId, v.digest(Utf8(r.key))) then
        Err(Fail(409, "this key has already been uploaded to this platform"))
      else Ok(accepted)
  }

  function NewRow(v: Vault, s: Store, r: Request, a: Accepted): Channel
    requires r.CreateChannel? && r.platformId in s.platforms
  {
    var key := Utf8(r.key);
    var plan := NamingPlan(s, r.userId, r.username, r.platformId, s.platforms[r.platformId].namePrefix, a.group);
    FreshRow(r.userId, r.platformId, plan.Generated(PairNames(s.channels, r.userId, r.platformId)), r.kind,
             v.Blob(r.nonce, key), v.digest(key), Last4(key), a.modelsCsv, a.group, r.now)
  }

  function DoCreateChannel(v: Vault, s: Store, r: Request): (Store, Response)
    requires r.CreateChannel?
  {
    match CheckUpload(v, s, r)
    case Err(e) => (s, e)
    case Ok(a) => InsertRow(s, NewRow(v, s, r, a))
  }

  function InsertRow(s: Store, row: Channel): (Store, Response) {
    (s.(channels := s.channels[s.nextChannel := row], nextChannel := s.nextChannel + 1),
     Uploaded(s.nextChannel, row.keyState, row.syncStatus))
  }

  // The checks of an update: the first failing one, or the validated fields.
  function CheckUpdate(s: Store, r: Request): Result<Accepted, Response>
    requires r.UpdateChannel?
  {
    if !OwnedLive(s, r.userId, r.id) then Err(Fail(404, "channel not found"))
    else
      var c := s.channels[r.id];
      match Authorize(s, r.userId, c.platformId)
      case Err(e) => Err(Fail(403, e))
      case Ok((p, g)) =>
        var models := if r.models != "" then r.models else c.models;
        var group := match p.GroupForType(c.kind)
                     case Some(bound) => bound.name
                     case None => c.group;
        match Upload(ChannelInput(c.kind, Split(models, ','), group), p, Some(g))
        case Err(e) => Err(Rejected(e))
        case Ok(a) => Ok(a)
  }

  predicate Rotates(r: Request)
    requires r.UpdateChannel?
  {
    TrimSpace(r.key) != ""
  }

  function UpdatedRows(v: Vault, s: Store, r: Request, a: Accepted): Rows
    requires r.UpdateChannel? && r.id in s.channels
  {
    var edited := UpdateMetadata(s.channels, r.id, s.channels[r.id].name, "", a.modelsCsv, a.group, r.now);
    if Rotates(r) then
      var key := Utf8(r.key);
      ReplaceKey(edited, r.id, v.Blob(r.nonce, key), v.digest(key), Last4(key), r.now)
    else edited
  }

  function DoUpdateChannel(v: Vault, s: Store, r: Request): (Store, Response)
    requires r.UpdateChannel?
  {
    match CheckUpdate(s, r)
    case Err(e) => (s, e)
    case Ok(a) => (s.(channels := UpdatedRows(v, s, r, a)), Done(r.id))
  }

  predicate Listable(rows: Rows, id: int, userId: int, platformId: int) {
    Live(rows, id) && rows[id].userId == userId && (platformId > 0 ==> rows[id].platformId == platformId)
  }

  // Live rows of a supplier, and of one platform if given, with ids below n, newest first.
  function NewestFirst(rows: Rows, n: nat, userId: int, platformId: int): (ids: seq<int>)
    ensures forall i :: i in ids <==> 0 <= i < n && Listable(rows, i, userId, platformId)
    ensures forall a, b :: 0 <= a < b < |ids| ==> ids[a] > ids[b]
  {
    if n == 0 then []
    else
      var rest := NewestFirst(rows, n - 1, userId, platformId);
      assert forall k :: 0 <= k < |rest| ==> rest[k] in rest;
      if Listable(rows, n - 1, userId, platformId) then [n - 1] + rest else rest
  }

  function ShowsAmount(s: Store, c: Channel): bool {
    match GetPlatform(s, c.platformId) case None => false case Some(p) => p.ShowAmountForGroup(c.group)
  }

  function ViewOf(s: Store, id: int): View
    requires id in s.channels
  {
    View(id, s.channels[id].(encKey := []), ShowsAmount(s, s.channels[id]))
  }

  function Views(s: Store, ids: seq<int>): (r: seq<View>)
    requires forall i :: i in ids ==> i in s.channels
    ensures |r| == |ids| && forall k :: 0 <= k < |ids| ==> r[k] == ViewOf(s, ids[k])
  {
    seq(|ids|, k requires 0 <= k < |ids| => assert ids[k] in ids; ViewOf(s, ids[k]))
  }

  function Page(ids: seq<int>, offset: nat, limit: nat): (r: seq<int>)
    ensures forall i :: i in r ==> i in ids
  {
    if offset >= |ids| then []
    else if offset + limit >= |ids| then ids[offset..]
    else ids[offset..offset + limit]
  }

  function DoListChannels(s: Store, r: Request): Response
    requires r.ListChannels?
  {
    var ids := NewestFirst(s.channels, s.nextChannel, r.userId, r.platformId);
    Listed(Views(s, Page(ids, r.offset, r.limit)), |ids|)
  }

  function DoRefreshUsage(s: Store, r: Request): (Store, Response)
    requires r.RefreshUsage?
  {
    if !OwnedLive(s, r.userId, r.id) then (s, Fail(404, "channel not found"))
    else if s.channels[r.id].remoteId == 0 then (s, Fail(502, "channel has not been synced to AGT yet"))
    else if GetPlatform(s, s.channels[r.id].platformId).None? then (s, Fail(502, "platform not found"))
    else
      match r.answer
      case Err(e) => (s, Fail(502, e))
      case Ok(quota) => (s.(channels := SetUsage(s.channels, r.id, quota, r.now)), UsageOf(r.id, quota))
  }

  // --- Admins ---

  function DoCreateUser(s: Store, r: Request): (Store, Response)
    requires r.CreateUser?
  {
    var role := if r.role == 0 then ROLE_SUPPLIER else r.role;
    if r.username == "" || r.passwordLength < 8 then (s, Fail(400, "username required and password must be >= 8 chars"))
    else if role !in {ROLE_SUPPLIER, ROLE_ADMIN, ROLE_ROOT} then (s, Fail(400, "invalid role"))
    else if exists i :: i in s.users && s.users[i].username == r.username then (s, Fail(409, "username already exists"))
    else if r.newId <= 0 || r.newId in s.users then (s, Fail(500, "failed to create user"))
    else (s.(users := s.users[r.newId := User(r.username, role, Catalog.STATUS_ENABLED)]), Done(r.newId))
  }

  function DoUpdateUser(s: Store, r: Request): (Store, Response)
    requires r.UpdateUser?
  {
    if GetUser(s, r.id).None? then (s, Fail(404, "user not found"))
    else if r.role !in {0, ROLE_SUPPLIER, ROLE_ADMIN, ROLE_ROOT} then (s, Fail(400, "invalid role"))
    else
      var u := s.users[r.id];
      var u' := u.(role := if r.role != 0 then r.role else u.role,
                   status := if r.status != 0 then r.status else u.status);
      (s.(users := s.users[r.id := u']), Done(r.id))
  }

  // The rows with the live channels of a user soft-deleted.
  function WithoutChannelsOf(rows: Rows, userId: int): Rows {
    map i | i in rows :: if rows[i].userId == userId then rows[i].(deleted := true) else rows[i]
  }

  // The cascade after its first `stop` statements: grants, channels (soft), the user.
  function DoDeleteUser(s: Store, id: int, stop: nat): Store {
    var s1 := if stop >= 1 then s.(grants := map i | i in s.grants && s.grants[i].userId != id :: s.grants[i]) else s;
    var s2 := if stop >= 2 then s1.(channels := WithoutChannelsOf(s1.channels, id)) else s1;
    if stop >= 3 then s2.(users := s2.users - {id}) else s2
  }

  function DoCreatePlatform(s: Store, r: Request): (Store, Response)
    requires r.CreatePlatform?
  {
    if r.platform.name == "" || r.platform.baseUrl == "" then (s, Fail(400, "name and base_url are required"))
    else if !r.hasToken then (s, Fail(400, "modex_token is required"))
    else if r.newId <= 0 || r.newId in s.platforms then (s, Fail(500, "failed to create platform"))
    else
      var status := if r.platform.status == 0 then Catalog.STATUS_ENABLED else r.platform.status;
      (s.(platforms := s.platforms[r.newId := r.platform.(status := status)]), Done(r.newId))
  }

  // Empty name, base URL and status keep the old value; every list is overwritten.
  function DoUpdatePlatform(s: Store, r: Request): (Store, Response)
    requires r.UpdatePlatform?
  {
    if GetPlatform(s, r.id).None? then (s, Fail(404, "platform not found"))
    else
      var p, q := s.platforms[r.id], r.platform;
      var p' := q.(name := if q.name != "" then q.name else p.name,
                   baseUrl := if q.baseUrl != "" then q.baseUrl else p.baseUrl,
                   status := if q.status != 0 then q.status else p.status);
      (s.(platforms := s.platforms[r.id := p']), Done(r.id))
  }

  // The live channels that reference a platform.
  function Referring(rows: Rows, platformId: int): set<int> {
    set i | i in rows && rows[i].platformId == platformId && !rows[i].deleted
  }

  predicate PlatformInUse(s: Store, id: int) { |Referring(s.channels, id)| > 0 }

  // Refused while live channels reference the platform; otherwise its grants go
  // first, then the platform.
  function DoDeletePlatform(s: Store, id: int, stop: nat): (Store, Response) {
    if PlatformInUse(s, id) then (s, Fail(409, "platform still has channels; remove them first"))
    else
      var s1 := if stop >= 1 then s.(grants := map i | i in s.grants && s.grants[i].platformId != id :: s.grants[i])
                else s;
      if stop >= 2 then (s1.(platforms := s1.platforms - {id}), Done(id))
      else (s1, Fail(500, "failed to delete platform"))
  }

  function CheckGrant(s: Store, g: Grant): Option<Response> {
    if g.userId <= 0 || g.platformId <= 0 then Some(Fail(400, "user_id and platform_id are required"))
    else if GetUser(s, g.userId).None? then Some(Fail(400, "user not found"))
    else if s.users[g.userId].role != ROLE_SUPPLIER then Some(Fail(400, "grants can only target supplier accounts"))
    else if GetPlatform(s, g.platformId).None? then Some(Fail(400, "platform not found"))
    else None
  }

  // The grant of the pair is updated in place, whatever its status, or created.
  function DoUpsertGrant(s: Store, newId: int, g: Grant): (Store, Response) {
    match CheckGrant(s, g)
    case Some(e) => (s, e)
    case None =>
      var g' := if g.status == 0 then g.(status := Catalog.STATUS_ENABLED) else g;
      match FirstId(GrantIds(s, g.userId, g.platformId))
      case Some(i) => (s.(grants := s.grants[i := g']), Done(i))
      case None =>
        if newId in s.grants then (s, Fail(500, "failed to save grant"))
        else (s.(grants := s.grants[newId := g']), Done(newId))
  }

  // --- One request ---

  predicate FromAdmin(r: Request) {
    || r.CreateUser? || r.UpdateUser? || r.DeleteUser? || r.CreatePlatform? || r.UpdatePlatform?
    || r.DeletePlatform? || r.UpsertGrant? || r.DeleteGrant?
  }

  function HandleAdmin(s: Store, r: Request): (Store, Response)
    requires FromAdmin(r)
  {
    match r
    case CreateUser(_, _, _, _) => DoCreateUser(s, r)
    case UpdateUser(_, _, _) => DoUpdateUser(s, r)
    case DeleteUser(id, stop) =>
      (DoDeleteUser(s, id, stop), if stop >= 3 then Done(id) else Fail(500, "failed to delete user"))
    case CreatePlatform(_, _, _) => DoCreatePlatform(s, r)
    case UpdatePlatform(_, _) => DoUpdatePlatform(s, r)
    case DeletePlatform(id, stop) => DoDeletePlatform(s, id, stop)
    case UpsertGrant(newId, g) => DoUpsertGrant(s, newId, g)
    case DeleteGrant(id) => (s.(grants := s.grants - {id}), Done(id))
  }

  function DoDeleteChannel(s: Store, userId: int, id: int): (Store, Response) {
    if OwnedLive(s, userId, id) then (s.(channels := SoftDelete(s.channels, id)), Done(id))
    else (s, Fail(404, "channel not found"))
  }

  function DoResyncChannel(s: Store, userId: int, id: int): (Store, Response) {
    if !OwnedLive(s, userId, id) then (s, Fail(404, "channel not found"))
    else if s.channels[id].syncAttempts >= MAX_SYNC_RETRIES then
      (s, Fail(429, "max retries reached; please re-upload the key"))
    else (s, Done(id))
  }

  function Handle(v: Vault, s: Store, r: Request): (Store, Response) {
    if FromAdmin(r) then HandleAdmin(s, r)
    else
      match r
      case ListChannels(_, _, _, _) => (s, DoListChannels(s, r))
      case CreateChannel(_, _, _, _, _, _, _, _) => DoCreateChannel(v, s, r)
      case UpdateChannel(_, _, _, _, _, _) => DoUpdateChannel(v, s, r)
      case DeleteChannel(userId, id) => DoDeleteChannel(s, userId, id)
      case ResyncChannel(userId, id) => DoResyncChannel(s, userId, id)
      case RefreshUsage(_, _, _, _) => DoRefreshUsage(s, r)
      case SyncMark(id, mark, now) => (s.(channels := P.MarkRows(s.channels, id, mark, now)), Done(id))
  }

  function After(v: Vault, s: Store, r: Request): Store { Handle(v, s, r).0 }

  function Serve(v: Vault, s: Store, rs: seq<Request>): Store
    decreases |rs|
  {
    if rs == [] then s else Serve(v, After(v, s, rs[0]), rs[1..])
  }
}
