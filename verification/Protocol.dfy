// The channel-key lifecycle as a state machine. Each step is one SQL statement, one
// AGT request or one scheduling event, so background syncs interleave freely.
module Protocol {
  import opened Prelude
  import opened Vaults
  import opened ChannelRows
  import opened Agt

  // What a finished call asks to be written back.
  datatype Mark =
    | ToSynced(remoteId: int)
    | ToFailed(reason: string)
    | ToMetadataSynced

  // A background sync: dispatched, holding its loaded snapshot, or holding the
  // outcome of its AGT call.
  datatype Sync =
    | Waiting(id: int)
    | Loaded(id: int, snap: Channel)
    | Replied(id: int, snap: Channel, mark: Mark)

  // `transit` holds the requests whose client has given up on them: each may still take
  // effect at any time, or never. `uploaded` is a history variable: the latest key
  // uploaded for each row.
  datatype State = State(
    rows: Rows, remote: Remote, syncs: map<int, Sync>, transit: multiset<Outgoing>, uploaded: map<int, Bytes>)

  const Start := State(map[], map[], map[], multiset{}, map[])

  // What a sync meets after its load: no platform row, a platform token that does
  // not decrypt, or a reply to the one request it makes.
  datatype Env = PlatformMissing | TokenUnreadable | Answer(reply: Reply)

  datatype Step =
    | Create(id: int, t: int, userId: int, platformId: int, name: string, kind: int,
             key: Bytes, nonce: Bytes, models: string, group: string, now: int)
    | Edit(id: int, name: string, baseUrl: string, models: string, group: string, now: int)
    | Rotate(id: int, key: Bytes, nonce: Bytes, now: int)
    | Usage(id: int, quota: int, now: int)
    | Delete(id: int)
    | Dispatch(id: int, t: int)        // the unguarded dispatch of an update
    | Resync(id: int, t: int)          // the dispatch guarded by the retry budget
    | Load(t: int)
    | Call(t: int, env: Env)
    | WriteMark(t: int, now: int)
    | Drop(t: int)                     // a sync that ends early: crash, database error
    | Arrive(q: Outgoing, newId: int)  // a request given up on takes effect after all

  // --- The call between load and mark ---

  function Meta(c: Channel): Metadata { Metadata(c.name, c.kind, c.baseUrl, c.models, c.group) }

  function PayloadOf(c: Channel, key: Bytes): Payload { Payload(c.remoteId, key, Meta(c)) }

  function Verdict(reply: Reply, onSuccess: Mark): Mark {
    match reply
    case Success(_) => onSuccess
    case Refused(r) => ToFailed(r)
    case Lost(r) => ToFailed(r)
  }

  // The mark a call ends with; None when it ends without writing one.
  function CallMark(v: Vault, c: Channel, env: Env): Option<Mark> {
    match env
    case PlatformMissing => None
    case TokenUnreadable => Some(ToFailed("platform token could not be decrypted"))
    case Answer(reply) =>
      if c.HasRecoverableKey() then
        match v.Open(c.encKey)
        case Err(_) => Some(ToFailed("sealed key could not be decrypted"))
        case Ok(_) =>
          if c.remoteId == 0 && reply.Success? then Some(ToSynced(reply.newId))
          else Some(Verdict(reply, ToSynced(c.remoteId)))
      else if c.remoteId == 0 then
        Some(ToFailed("no key available to publish; supplier must re-upload"))
      else Some(Verdict(reply, ToMetadataSynced))
  }

  // The request a sync of snapshot c makes, if any: with the key when it is recoverable
  // and opens, without one when the row is already published.
  function RequestOf(v: Vault, id: int, c: Channel): Option<Outgoing> {
    if c.HasRecoverableKey() then
      match v.Open(c.encKey)
      case Err(_) => None
      case Ok(key) => Some(Outgoing(c.platformId, PayloadOf(c, key), id))
    else if c.remoteId == 0 then None
    else Some(Outgoing(c.platformId, PayloadOf(c, []), id))
  }

  // The request a call makes in its environment.
  function Sends(v: Vault, id: int, c: Channel, env: Env): Option<Outgoing> {
    if env.Answer? then RequestOf(v, id, c) else None
  }

  predicate TakesEffect(v: Vault, id: int, c: Channel, env: Env) {
    Sends(v, id, c, env).Some? && env.reply.Success?
  }

  // The AGT contract for a request reported as successful.
  predicate CallPossible(v: Vault, remote: Remote, id: int, c: Channel, env: Env) {
    TakesEffect(v, id, c, env) ==> Acceptable(remote, Sends(v, id, c, env).value, env.reply.newId)
  }

  function CallRemote(v: Vault, remote: Remote, id: int, c: Channel, env: Env): Remote
    requires CallPossible(v, remote, id, c, env)
  {
    if TakesEffect(v, id, c, env) then Land(remote, Sends(v, id, c, env).value, env.reply.newId) else remote
  }

  // What a call leaves in transit: its request, when the reply is lost.
  function CallTransit(v: Vault, id: int, c: Channel, env: Env): multiset<Outgoing> {
    if Sends(v, id, c, env).Some? && env.reply.Lost? then multiset{Sends(v, id, c, env).value} else multiset{}
  }

  function MarkedColumns(c: Channel, m: Mark, now: int): Channel {
    match m
    case ToSynced(remoteId) => SyncedColumns(c, remoteId, now)
    case ToFailed(reason) => FailedColumns(c, reason, now)
    case ToMetadataSynced => MetadataSyncedColumns(c, now)
  }

  // MarkSynced, MarkFailed or MarkMetadataSynced.
  function MarkRows(rows: Rows, id: int, m: Mark, now: int): Rows {
    if Live(rows, id) then rows[id := MarkedColumns(rows[id], m, now)] else rows
  }

  // --- Steps ---

  predicate Enabled(v: Vault, s: State, step: Step) {
    match step
    case Create(id, t, _, _, _, _, key, nonce, _, _, _) =>
      id !in s.rows && t !in s.syncs && key != [] && |nonce| == NONCE_SIZE
    case Edit(id, _, _, _, _, _) => Live(s.rows, id)
    case Rotate(id, key, nonce, _) => Live(s.rows, id) && key != [] && |nonce| == NONCE_SIZE
    case Usage(id, _, _) => Live(s.rows, id)
    case Delete(id) => Live(s.rows, id)
    case Dispatch(id, t) => id in s.rows && t !in s.syncs
    case Resync(id, t) => Live(s.rows, id) && s.rows[id].syncAttempts < MAX_SYNC_RETRIES && t !in s.syncs
    case Load(t) => t in s.syncs && s.syncs[t].Waiting?
    case Call(t, env) =>
      t in s.syncs && s.syncs[t].Loaded? && CallPossible(v, s.remote, s.syncs[t].id, s.syncs[t].snap, env)
    case WriteMark(t, _) => t in s.syncs && s.syncs[t].Replied?
    case Drop(t) => t in s.syncs
    case Arrive(q, newId) => q in s.transit && Acceptable(s.remote, q, newId)
  }

  function Apply(v: Vault, s: State, step: Step): State
    requires Enabled(v, s, step)
  {
    match step
    case Create(id, t, userId, platformId, name, kind, key, nonce, models, group, now) =>
      var row := FreshRow(userId, platformId, name, kind, v.Blob(nonce, key), v.digest(key), Last4(key),
                          models, group, now);
      s.(rows := s.rows[id := row], syncs := s.syncs[t := Waiting(id)], uploaded := s.uploaded[id := key])
    case Edit(id, name, baseUrl, models, group, now) =>
      s.(rows := UpdateMetadata(s.rows, id, name, baseUrl, models, group, now))
    case Rotate(id, key, nonce, now) =>
      s.(rows := ReplaceKey(s.rows, id, v.Blob(nonce, key), v.digest(key), Last4(key), now),
      uploaded := s.uploaded[id := key])
    case Usage(id, quota, now) => s.(rows := SetUsage(s.rows, id, quota, now))
    case Delete(id) => s.(rows := SoftDelete(s.rows, id))
    case Dispatch(id, t) => s.(syncs := s.syncs[t := Waiting(id)])
    case Resync(id, t) => s.(syncs := s.syncs[t := Waiting(id)])
    case Load(t) =>
      var id := s.syncs[t].id;
      s.(syncs := if Live(s.rows, id) then s.syncs[t := Loaded(id, s.rows[id])] else s.syncs - {t})
    case Call(t, env) =>
      var id, c := s.syncs[t].id, s.syncs[t].snap;
      s.(remote := CallRemote(v, s.remote, id, c, env),
      transit := s.transit + CallTransit(v, id, c, env),
      syncs := match CallMark(v, c, env)
               case None => s.syncs - {t}
               case Some(m) => s.syncs[t := Replied(id, c, m)])
    case WriteMark(t, now) =>
      s.(rows := MarkRows(s.rows, s.syncs[t].id, s.syncs[t].mark, now), syncs := s.syncs - {t})
    case Drop(t) => s.(syncs := s.syncs - {t})
    case Arrive(q, newId) => s.(remote := Land(s.remote, q, newId), transit := s.transit - multiset{q})
  }

  // A step that cannot happen changes nothing.
  function Next(v: Vault, s: State, step: Step): State {
    if Enabled(v, s, step) then Apply(v, s, step) else s
  }

  function Run(v: Vault, s: State, steps: seq<Step>): State
    decreases |steps|
  {
    if steps == [] then s else Run(v, Next(v, s, steps[0]), steps[1..])
  }

  lemma RunOne(v: Vault, s: State, a: Step)
    ensures Run(v, s, [a]) == Next(v, s, a)
  {
  }

  lemma {:induction false} RunAppend(v: Vault, s: State, a: seq<Step>, b: seq<Step>)
    ensures Run(v, s, a + b) == Run(v, Run(v, s, a), b)
    decreases |a|
  {
    if a == [] {
      assert a + b == b;
    } else {
      assert (a + b)[1..] == a[1..] + b;
      RunAppend(v, Next(v, s, a[0]), a[1..], b);
    }
  }

  lemma RunTwo(v: Vault, s: State, a: Step, b: Step)
    ensures Run(v, s, [a, b]) == Next(v, Next(v, s, a), b) == Run(v, Next(v, s, a), [b])
  {
    assert [a, b][1..] == [b];
    RunOne(v, Next(v, s, a), b);
  }

  lemma RunThree(v: Vault, s: State, a: Step, b: Step, c: Step)
    ensures Run(v, s, [a, b, c]) == Next(v, Next(v, Next(v, s, a), b), c)
  {
    assert [a, b, c][1..] == [b, c];
    RunTwo(v, Next(v, s, a), b, c);
  }
}
