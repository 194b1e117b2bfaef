// The downstream AGT store and the contract of its channel API.
module Agt {
  import opened Prelude

  // The columns of a channel that are forwarded besides the key.
  datatype Metadata = Metadata(name: string, kind: int, baseUrl: string, models: string, group: string)

  // An empty key is omitted from the request.
  datatype Payload = Payload(id: int, key: Bytes, meta: Metadata)

  // `maker` is a history variable: the local row whose POST made the entry.
  datatype Entry = Entry(key: Bytes, meta: Metadata, maker: int)

  // Keyed by platform and remote id.
  type Remote = map<(int, int), Entry>

  // A request on its way: a POST when the payload has no id, else a PUT. `maker` is
  // the local row it is sent for.
  datatype Outgoing = Outgoing(platformId: int, payload: Payload, maker: int)

  // What the client sees of one request. Lost is an error (a timeout, a broken reply, a
  // reply without an id) that leaves open whether and when the request takes effect.
  datatype Reply =
    | Success(newId: int)
    | Refused(reason: string)
    | Lost(reason: string)

  // A POST that takes effect makes an entry under a fresh non-zero id.
  predicate FreshId(remote: Remote, platformId: int, newId: int) {
    newId != 0 && (platformId, newId) !in remote
  }

  function Post(remote: Remote, q: Outgoing, newId: int): Remote {
    remote[(q.platformId, newId) := Entry(q.payload.key, q.payload.meta, q.maker)]
  }

  // A PUT that takes effect overwrites the metadata, and the key only when the
  // payload carries one.
  function Put(remote: Remote, q: Outgoing): Remote
    requires (q.platformId, q.payload.id) in remote
  {
    var e := remote[(q.platformId, q.payload.id)];
    var key := if q.payload.key == [] then e.key else q.payload.key;
    remote[(q.platformId, q.payload.id) := Entry(key, q.payload.meta, e.maker)]
  }

  // The store can carry out a request: a POST under a fresh id, a PUT on its entry.
  predicate Acceptable(remote: Remote, q: Outgoing, newId: int) {
    if q.payload.id == 0 then FreshId(remote, q.platformId, newId) else (q.platformId, q.payload.id) in remote
  }

  function Land(remote: Remote, q: Outgoing, newId: int): Remote
    requires Acceptable(remote, q, newId)
  {
    if q.payload.id == 0 then Post(remote, q, newId) else Put(remote, q)
  }

  // The entry a request writes.
  function Target(q: Outgoing, newId: int): (int, int) {
    (q.platformId, if q.payload.id == 0 then newId else q.payload.id)
  }

  // A request writes its target and nothing else: the metadata it carries, the key it
  // carries if any, and never another maker.
  lemma LandWrites(remote: Remote, q: Outgoing, newId: int)
    requires Acceptable(remote, q, newId)
    ensures var after, r := Land(remote, q, newId), Target(q, newId);
            && after.Keys == remote.Keys + {r}
            && (forall x :: x in remote && x != r ==> after[x] == remote[x])
            && after[r].meta == q.payload.meta
            && after[r].key == (if r in remote && q.payload.key == [] then remote[r].key else q.payload.key)
            && after[r].maker == (if r in remote then remote[r].maker else q.maker)
  {
  }

  lemma {:induction false} IdBound(refs: set<(int, int)>) returns (b: int)
    ensures b > 0 && forall r :: r in refs ==> r.1 < b
    decreases |refs|
  {
    if refs == {} {
      b := 1;
    } else {
      var r :| r in refs;
      var c := IdBound(refs - {r});
      b := if r.1 < c then c else r.1 + 1;
      forall x | x in refs
        ensures x.1 < b
      {
        assert x == r || x in refs - {r};
      }
    }
  }

  // Ids never run out.
  lemma FreshIdExists(remote: Remote, platformId: int) returns (newId: int)
    ensures FreshId(remote, platformId, newId)
  {
    newId := IdBound(remote.Keys);
    assert (platformId, newId) !in remote.Keys;
  }
}
