// What a page of a supplier's channels shows.
module Listing {
  import opened Prelude
  import opened Vaults
  import opened Catalog
  import opened ChannelRows
  import opened Registry
  import opened Integrity

  predicate Descending(ids: seq<int>) { forall a, b :: 0 <= a < b < |ids| ==> ids[a] > ids[b] }

  function Elements(ids: seq<int>): set<int> { set i | i in ids }

  function Above(all: set<int>, x: int): set<int> { set i | i in all && i > x }

  lemma {:induction false} DescendingCount(ids: seq<int>)
    requires Descending(ids)
    ensures |Elements(ids)| == |ids|
  {
    if ids != [] {
      var n := |ids| - 1;
      DescendingCount(ids[..n]);
      assert Elements(ids) == Elements(ids[..n]) + {ids[n]};
      assert ids[n] !in ids[..n];
    }
  }

  // The k-th element of a descending sequence has exactly the first k above it.
  lemma DescendingRank(ids: seq<int>, k: nat)
    requires Descending(ids) && k < |ids|
    ensures |Above(Elements(ids), ids[k])| == k
  {
    forall i
      ensures i in ids && i > ids[k] <==> i in ids[..k]
    {
      if i in ids[..k] {
        var a :| 0 <= a < k && ids[a] == i;
      }
      if i in ids && i > ids[k] {
        var a :| 0 <= a < |ids| && ids[a] == i;
        assert ids[..k][a] == i;
      }
    }
    assert Above(Elements(ids), ids[k]) == Elements(ids[..k]);
    DescendingCount(ids[..k]);
  }

  // One view: the row's columns without the sealed key, and the toggle of the first
  // configured group that has the row's group name.
  ghost predicate ViewShows(s: Store, view: View)
    requires view.id in s.channels
  {
    var c := s.channels[view.id];
    && view.columns.encKey == [] && view.columns.(encKey := c.encKey) == c
    && (view.showAmount <==>
          && c.platformId != 0 && c.platformId in s.platforms
          && var gs := s.platforms[c.platformId].groups;
             exists i :: 0 <= i < |gs| && gs[i].name == c.group && gs[i].showAmount
                         && forall j :: 0 <= j < i ==> gs[j].name != c.group)
  }

  lemma ViewOfShows(s: Store, id: int)
    requires id in s.channels
    ensures ViewShows(s, ViewOf(s, id))
  {
    var c := s.channels[id];
    if GetPlatform(s, c.platformId).Some? {
      ShowAmountExactly(s.platforms[c.platformId].groups, c.group);
    }
  }

  // The supplier's live channels, of one platform if the request names one.
  function Listables(s: Store, r: Request): set<int>
    requires r.ListChannels?
  {
    set i | i in s.channels && !s.channels[i].deleted && s.channels[i].userId == r.userId
            && (r.platformId <= 0 || s.channels[i].platformId == r.platformId)
  }

  lemma ListedIds(s: Store, r: Request)
    requires r.ListChannels? && IdsIntact(s)
    ensures var ids := NewestFirst(s.channels, s.nextChannel, r.userId, r.platformId);
            Descending(ids) && Elements(ids) == Listables(s, r)
  {
    var ids := NewestFirst(s.channels, s.nextChannel, r.userId, r.platformId);
    forall i
      ensures i in Elements(ids) <==> i in Listables(s, r)
    {
      assert i in ids <==> 0 <= i < s.nextChannel && Listable(s.channels, i, r.userId, r.platformId);
    }
  }

  lemma PageCuts(ids: seq<int>, offset: nat, limit: nat)
    ensures var page := Page(ids, offset, limit);
            && |page| == (if offset >= |ids| then 0
                          else if offset + limit >= |ids| then |ids| - offset else limit)
            && forall k :: 0 <= k < |page| ==> offset + k < |ids| && page[k] == ids[offset + k]
  {
  }

  lemma PageRank(s: Store, r: Request, k: nat)
    requires r.ListChannels? && IdsIntact(s)
    requires k < |Page(NewestFirst(s.channels, s.nextChannel, r.userId, r.platformId), r.offset, r.limit)|
    ensures var id := Page(NewestFirst(s.channels, s.nextChannel, r.userId, r.platformId), r.offset, r.limit)[k];
            id in Listables(s, r) && |Above(Listables(s, r), id)| == r.offset + k
  {
    var ids := NewestFirst(s.channels, s.nextChannel, r.userId, r.platformId);
    ListedIds(s, r);
    PageCuts(ids, r.offset, r.limit);
    DescendingRank(ids, r.offset + k);
    assert ids[r.offset + k] in Elements(ids);
  }

  lemma ItemIs(s: Store, r: Request, k: nat)
    requires r.ListChannels? && k < |DoListChannels(s, r).items|
    ensures var page := Page(NewestFirst(s.channels, s.nextChannel, r.userId, r.platformId), r.offset, r.limit);
            |DoListChannels(s, r).items| == |page|
            && page[k] in s.channels && DoListChannels(s, r).items[k] == ViewOf(s, page[k])
  {
    var page := Page(NewestFirst(s.channels, s.nextChannel, r.userId, r.platformId), r.offset, r.limit);
    assert page[k] in page;
  }

  lemma ItemShows(s: Store, r: Request, k: nat)
    requires r.ListChannels? && IdsIntact(s) && k < |DoListChannels(s, r).items|
    ensures var view := DoListChannels(s, r).items[k];
            && view.id in Listables(s, r) && |Above(Listables(s, r), view.id)| == r.offset + k
            && ViewShows(s, view)
  {
    ItemIs(s, r, k);
    PageRank(s, r, k);
    ViewOfShows(s, DoListChannels(s, r).items[k].id);
  }

  // The page is the part of the supplier's live channels, newest first, that offset and
  // limit cut out: item k has exactly offset + k of them above it. The total counts all.
  lemma ListChannelsEffect(v: Vault, s: Store, r: Request)
    requires r.ListChannels? && IdsIntact(s)
    ensures var all := Listables(s, r);
            var (s', resp) := Handle(v, s, r);
            && s' == s && resp.Listed? && resp.total == |all|
            && |resp.items| == (if r.offset >= |all| then 0
                                else if r.offset + r.limit >= |all| then |all| - r.offset else r.limit)
            && forall k :: 0 <= k < |resp.items| ==>
                 && resp.items[k].id in all && |Above(all, resp.items[k].id)| == r.offset + k
                 && ViewShows(s, resp.items[k])
  {
    var ids := NewestFirst(s.channels, s.nextChannel, r.userId, r.platformId);
    ListedIds(s, r);
    DescendingCount(ids);
    PageCuts(ids, r.offset, r.limit);
    var items := DoListChannels(s, r).items;
    forall k | 0 <= k < |items|
      ensures items[k].id in Listables(s, r) && |Above(Listables(s, r), items[k].id)| == r.offset + k
              && ViewShows(s, items[k])
    {
      ItemShows(s, r, k);
    }
  }
}
