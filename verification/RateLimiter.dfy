// The fixed-window rate limiter and its true sliding-interval guarantees.
module RateLimiter {
  import opened Prelude

  // --- The pure transition ---

  datatype Window = Window(count: int, reset: int)

  type Windows = map<string, Window>

  datatype Config = Config(limit: int, window: nat) {
    function Opens(ws: Windows, key: string, now: int): bool { key !in ws || now > ws[key].reset }

    function Allows(ws: Windows, key: string, now: int): bool { Opens(ws, key, now) || ws[key].count < limit }

    // A call opens a window, counts in the open one, or is refused without effect.
    function Next(ws: Windows, key: string, now: int): Windows {
      if Opens(ws, key, now) then ws[key := Window(1, now + window)]
      else if ws[key].count < limit then ws[key := ws[key].(count := ws[key].count + 1)]
      else ws
    }
  }

  // --- The limiter object: a map of shared window cells updated in place ---

  class WindowCell {
    var count: int
    var reset: int

    constructor (count: int, reset: int)
      ensures this.count == count && this.reset == reset
    {
      this.count, this.reset := count, reset;
    }
  }

  class FixedWindowLimiter {
    var hits: map<string, WindowCell>
    const config: Config

    // No two keys share a cell.
    ghost predicate Valid()
      reads this
    {
      forall k, l :: k in hits && l in hits && k != l ==> hits[k] != hits[l]
    }

    ghost function Model(): Windows
      reads this, hits.Values
    {
      map k | k in hits :: Window(hits[k].count, hits[k].reset)
    }

    constructor (config: Config)
      ensures Valid() && Model() == map[] && this.config == config && hits == map[]
    {
      this.config := config;
      hits := map[];
    }

    method Allow(key: string, now: int) returns (ok: bool)
      requires Valid()
      modifies this, hits.Values
      ensures Valid() && fresh(hits.Values - old(hits.Values))
      ensures ok == config.Allows(old(Model()), key, now)
      ensures Model() == config.Next(old(Model()), key, now)
    {
      if key !in hits || now > hits[key].reset {
        var cell := new WindowCell(1, now + config.window);
        hits := hits[key := cell];
        assert forall k :: k in hits && k != key ==> hits[k] == old(hits)[k];
        return true;
      }
      var wnd := hits[key];
      if wnd.count >= config.limit {
        return false;
      }
      wnd.count := wnd.count + 1;
      ok := true;
    }
  }

  // --- Call histories ---

  datatype CallAt = CallAt(key: string, time: int)

  function StateAfter(cfg: Config, calls: seq<CallAt>): Windows {
    if calls == [] then map[]
    else
      var last := calls[|calls| - 1];
      cfg.Next(StateAfter(cfg, calls[..|calls| - 1]), last.key, last.time)
  }

  // Whether the call that follows a history is accepted.
  function Accepts(cfg: Config, calls: seq<CallAt>, c: CallAt): bool {
    cfg.Allows(StateAfter(cfg, calls), c.key, c.time)
  }

  predicate Ordered(calls: seq<CallAt>) {
    forall i, j :: 0 <= i < j < |calls| ==> calls[i].time <= calls[j].time
  }

  // Accepted calls of a key at times lo..hi.
  function Count(cfg: Config, calls: seq<CallAt>, key: string, lo: int, hi: int): nat {
    if calls == [] then 0
    else
      var before, last := calls[..|calls| - 1], calls[|calls| - 1];
      Count(cfg, before, key, lo, hi)
      + if last.key == key && lo <= last.time <= hi && Accepts(cfg, before, last) then 1 else 0
  }

  lemma {:induction false} CountSplit(cfg: Config, calls: seq<CallAt>, key: string, lo: int, mid: int, hi: int)
    requires lo <= mid <= hi + 1
    ensures Count(cfg, calls, key, lo, hi) == Count(cfg, calls, key, lo, mid - 1) + Count(cfg, calls, key, mid, hi)
  {
    if calls != [] {
      CountSplit(cfg, calls[..|calls| - 1], key, lo, mid, hi);
    }
  }

  lemma {:induction false} CountWider(cfg: Config, calls: seq<CallAt>, key: string,
                                      lo: int, hi: int, lo': int, hi': int)
    requires lo' <= lo && hi <= hi'
    ensures Count(cfg, calls, key, lo, hi) <= Count(cfg, calls, key, lo', hi')
  {
    if calls != [] {
      CountWider(cfg, calls[..|calls| - 1], key, lo, hi, lo', hi');
    }
  }

  // Nothing happens after the last call.
  lemma {:induction false} CountPastEnd(cfg: Config, calls: seq<CallAt>, key: string, lo: int, hi: int, hi': int)
    requires hi <= hi' && forall i :: 0 <= i < |calls| ==> calls[i].time <= hi
    ensures Count(cfg, calls, key, lo, hi') == Count(cfg, calls, key, lo, hi)
  {
    if calls != [] {
      CountPastEnd(cfg, calls[..|calls| - 1], key, lo, hi, hi');
    }
  }

  // What the state knows of a key: the open window's count is the number of accepted
  // calls since it opened, and the interval of one window length before that held at
  // most `limit` of them.
  ghost predicate Explains(cfg: Config, calls: seq<CallAt>, key: string, end: int) {
    var ws := StateAfter(cfg, calls);
    if key !in ws then forall lo, hi :: Count(cfg, calls, key, lo, hi) == 0
    else
      var start := ws[key].reset - cfg.window;
      && start <= end
      && 1 <= ws[key].count == Count(cfg, calls, key, start, end)
      && (cfg.limit >= 1 ==>
            && ws[key].count <= cfg.limit
            && Count(cfg, calls, key, start - cfg.window, start - 1) <= cfg.limit)
  }

  predicate Before(calls: seq<CallAt>, end: int) { forall i :: 0 <= i < |calls| ==> calls[i].time <= end }

  lemma Append(cfg: Config, calls: seq<CallAt>, c: CallAt)
    ensures StateAfter(cfg, calls + [c]) == cfg.Next(StateAfter(cfg, calls), c.key, c.time)
    ensures forall key, lo, hi {:trigger Count(cfg, calls + [c], key, lo, hi)} ::
              Count(cfg, calls + [c], key, lo, hi)
              == Count(cfg, calls, key, lo, hi)
                 + if c.key == key && lo <= c.time <= hi && Accepts(cfg, calls, c) then 1 else 0
  {
  }

  lemma OtherKeyCalls(cfg: Config, before: seq<CallAt>, c: CallAt, key: string, end: int)
    requires Before(before, c.time) && c.time <= end && c.key != key
    requires Explains(cfg, before, key, c.time)
    ensures Explains(cfg, before + [c], key, end)
  {
    Append(cfg, before, c);
    var ws := StateAfter(cfg, before);
    if key in ws {
      CountPastEnd(cfg, before, key, ws[key].reset - cfg.window, c.time, end);
    }
  }

  // A call in an open window counts in it, or is refused without effect.
  lemma WindowGoesOn(cfg: Config, before: seq<CallAt>, c: CallAt, end: int)
    requires Before(before, c.time) && c.time <= end
    requires Explains(cfg, before, c.key, c.time) && !cfg.Opens(StateAfter(cfg, before), c.key, c.time)
    ensures Explains(cfg, before + [c], c.key, end)
  {
    Append(cfg, before, c);
    CountPastEnd(cfg, before, c.key, StateAfter(cfg, before)[c.key].reset - cfg.window, c.time, end);
  }

  // Opening a window: the new interval holds one call, and the window length before
  // it lies inside the old window.
  lemma WindowOpens(cfg: Config, before: seq<CallAt>, c: CallAt, end: int)
    requires Ordered(before) && Before(before, c.time) && c.time <= end
    requires Explains(cfg, before, c.key, c.time) && cfg.Opens(StateAfter(cfg, before), c.key, c.time)
    ensures Explains(cfg, before + [c], c.key, end)
  {
    Append(cfg, before, c);
    var ws := StateAfter(cfg, before);
    if c.key in ws {
      CountWider(cfg, before, c.key, c.time - cfg.window, c.time - 1, ws[c.key].reset - cfg.window, c.time);
      OldCallsEnd(cfg, before, c.key, ws[c.key].reset, c.time);
    }
    assert Count(cfg, before, c.key, c.time, end) == 0;
  }

  // No accepted call is later than the reset of the window it was counted in.
  lemma {:induction false} OldCallsEnd(cfg: Config, calls: seq<CallAt>, key: string, reset: int, lo: int)
    requires key in StateAfter(cfg, calls) && StateAfter(cfg, calls)[key].reset == reset && Ordered(calls) && reset < lo
    ensures forall hi :: Count(cfg, calls, key, lo, hi) == 0
  {
    var before, last := calls[..|calls| - 1], calls[|calls| - 1];
    if key !in StateAfter(cfg, before) {
      NeverCounted(cfg, before, key);
    } else if last.key == key && cfg.Opens(StateAfter(cfg, before), key, last.time) {
      OldCallsEnd(cfg, before, key, StateAfter(cfg, before)[key].reset, lo);
    } else {
      OldCallsEnd(cfg, before, key, reset, lo);
    }
  }

  lemma {:induction false} NeverCounted(cfg: Config, calls: seq<CallAt>, key: string)
    requires key !in StateAfter(cfg, calls)
    ensures forall lo, hi :: Count(cfg, calls, key, lo, hi) == 0
  {
    if calls != [] {
      NeverCounted(cfg, calls[..|calls| - 1], key);
    }
  }

  lemma {:induction false} Explained(cfg: Config, calls: seq<CallAt>, key: string, end: int)
    requires Ordered(calls) && Before(calls, end)
    ensures Explains(cfg, calls, key, end)
  {
    if calls != [] {
      var before, last := calls[..|calls| - 1], calls[|calls| - 1];
      Explained(cfg, before, key, last.time);
      assert before + [last] == calls;
      if last.key != key {
        OtherKeyCalls(cfg, before, last, key, end);
      } else if cfg.Opens(StateAfter(cfg, before), key, last.time) {
        WindowOpens(cfg, before, last, end);
      } else {
        WindowGoesOn(cfg, before, last, end);
      }
    }
  }

  // Main theorem. Over every history with non-decreasing call times, any closed
  // interval of one window length holds at most 2 * limit accepted calls of a key.
  lemma {:induction false} RateBound(cfg: Config, calls: seq<CallAt>, key: string, lo: int)
    requires Ordered(calls) && cfg.limit >= 1
    ensures Count(cfg, calls, key, lo, lo + cfg.window) <= 2 * cfg.limit
  {
    if calls != [] {
      var before, last := calls[..|calls| - 1], calls[|calls| - 1];
      RateBound(cfg, before, key, lo);
      if last.key == key && lo <= last.time <= lo + cfg.window && Accepts(cfg, before, last) {
        Explained(cfg, calls, key, last.time);
        var start := StateAfter(cfg, calls)[key].reset - cfg.window;
        CountPastEnd(cfg, calls, key, lo, last.time, lo + cfg.window);
        if start <= lo {
          CountWider(cfg, calls, key, lo, last.time, start, last.time);
        } else {
          CountSplit(cfg, calls, key, lo, start, last.time);
          CountWider(cfg, calls, key, lo, start - 1, start - cfg.window, start - 1);
        }
      }
    }
  }

  // Main theorem. A refused call has at least `limit` accepted calls of its own key in
  // the window length before it.
  lemma NeverRefusedWrongly(cfg: Config, calls: seq<CallAt>, c: CallAt)
    requires Ordered(calls) && Before(calls, c.time) && !Accepts(cfg, calls, c)
    ensures Count(cfg, calls, c.key, c.time - cfg.window, c.time) >= cfg.limit
  {
    Explained(cfg, calls, c.key, c.time);
    var start := StateAfter(cfg, calls)[c.key].reset - cfg.window;
    CountWider(cfg, calls, c.key, start, c.time, c.time - cfg.window, c.time);
  }

  // --- Keys do not influence each other ---

  function Only(calls: seq<CallAt>, key: string): seq<CallAt> {
    if calls == [] then []
    else
      var last := calls[|calls| - 1];
      Only(calls[..|calls| - 1], key) + if last.key == key then [last] else []
  }

  lemma {:induction false} KeyStateAlone(cfg: Config, calls: seq<CallAt>, key: string)
    ensures var ws, alone := StateAfter(cfg, calls), StateAfter(cfg, Only(calls, key));
            (key in ws <==> key in alone) && (key in ws ==> ws[key] == alone[key])
  {
    if calls != [] {
      var before, last := calls[..|calls| - 1], calls[|calls| - 1];
      KeyStateAlone(cfg, before, key);
      if last.key == key {
        Append(cfg, Only(before, key), last);
        assert Only(calls, key) == Only(before, key) + [last];
      } else {
        assert Only(calls, key) == Only(before, key);
      }
    }
  }

  // Main theorem. Every answer is the one a limiter would give that saw only the
  // key's own calls.
  lemma KeysIndependent(cfg: Config, calls: seq<CallAt>, c: CallAt)
    ensures Accepts(cfg, calls, c) == Accepts(cfg, Only(calls, c.key), c)
  {
    KeyStateAlone(cfg, calls, c.key);
  }
}
