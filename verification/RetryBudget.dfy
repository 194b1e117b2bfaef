// How many failed syncs a row can accumulate.
module RetryBudget {
  import opened Prelude
  import opened Vaults
  import opened ChannelRows
  import opened Agt
  import opened Protocol
  import opened KeyConservation

  // The syncs of a row that are dispatched and not yet finished.
  function InFlight(s: State, id: int): set<int> { set t | t in s.syncs && s.syncs[t].id == id }

  // No unguarded dispatch of this row, and a guarded one only while fewer than k of
  // its syncs are in flight.
  predicate StepBudgeted(v: Vault, s: State, step: Step, id: int, k: nat) {
    Enabled(v, s, step) ==>
      && (step.Dispatch? ==> step.id != id)
      && (step.Resync? && step.id == id ==> |InFlight(s, id)| < k)
  }

  predicate RunBudgeted(v: Vault, s: State, steps: seq<Step>, id: int, k: nat)
    decreases |steps|
  {
    steps != [] ==> StepBudgeted(v, s, steps[0], id, k) && RunBudgeted(v, Next(v, s, steps[0]), steps[1..], id, k)
  }

  // A failure is paid for by a sync that leaves the air.
  predicate WithinBudget(s: State, id: int, k: nat) {
    && (id in s.rows ==> s.rows[id].syncAttempts + |InFlight(s, id)| <= MAX_SYNC_RETRIES - 1 + k)
    && (id !in s.rows ==> InFlight(s, id) == {})
  }

  // The in-flight set grows only by a dispatch and loses the sync that marks.
  lemma InFlightStep(v: Vault, s: State, step: Step, id: int)
    requires Enabled(v, s, step)
    ensures var f, f' := InFlight(s, id), InFlight(Apply(v, s, step), id);
            && (step.Create? || step.Dispatch? || step.Resync? ==> f' == if step.id == id then f + {step.t} else f)
            && (step.WriteMark? || step.Drop? ==> f' == f - {step.t})
            && (step.Load? || step.Call? ==> f' == f || f' == f - {step.t})
            && (step.Edit? || step.Rotate? || step.Usage? || step.Delete? || step.Arrive? ==> f' == f)
  {
  }

  lemma AttemptsStep(v: Vault, s: State, step: Step, id: int)
    requires Enabled(v, s, step) && id in s.rows
    ensures var s' := Apply(v, s, step);
            && id in s'.rows
            && s'.rows[id].syncAttempts <=
               s.rows[id].syncAttempts + (if step.WriteMark? && s.syncs[step.t].id == id then 1 else 0)
  {
  }

  // A dispatch of the row, within its guard.
  lemma BudgetDispatch(v: Vault, s: State, step: Step, id: int, k: nat)
    requires k >= 1 && v.Sound() && WithinBudget(s, id, k) && StepBudgeted(v, s, step, id, k)
    requires Enabled(v, s, step) && (step.Create? || step.Resync?) && step.id == id
    ensures WithinBudget(Apply(v, s, step), id, k)
  {
    InFlightStep(v, s, step, id);
    if id in s.rows {
      AttemptsStep(v, s, step, id);
    }
  }

  lemma BudgetMark(v: Vault, s: State, t: int, now: int, id: int, k: nat)
    requires Kept(v, s) && WithinBudget(s, id, k) && Enabled(v, s, WriteMark(t, now))
    ensures WithinBudget(Apply(v, s, WriteMark(t, now)), id, k)
  {
    InFlightStep(v, s, WriteMark(t, now), id);
    assert SyncKept(v, s, s.syncs[t]);
    if id in s.rows {
      AttemptsStep(v, s, WriteMark(t, now), id);
      assert s.syncs[t].id == id ==> t in InFlight(s, id);
    }
  }

  lemma BudgetOther(v: Vault, s: State, step: Step, id: int, k: nat)
    requires WithinBudget(s, id, k) && Enabled(v, s, step) && !step.WriteMark?
    requires step.Create? || step.Dispatch? || step.Resync? ==> step.id != id
    ensures WithinBudget(Apply(v, s, step), id, k)
  {
    InFlightStep(v, s, step, id);
    if id in s.rows {
      AttemptsStep(v, s, step, id);
    }
  }

  lemma BudgetStep(v: Vault, s: State, step: Step, id: int, k: nat)
    requires k >= 1 && v.Sound() && Kept(v, s) && WithinBudget(s, id, k) && StepBudgeted(v, s, step, id, k)
    ensures WithinBudget(Next(v, s, step), id, k)
  {
    if Enabled(v, s, step) {
      if (step.Create? || step.Resync?) && step.id == id {
        BudgetDispatch(v, s, step, id, k);
      } else if step.WriteMark? {
        BudgetMark(v, s, step.t, step.now, id, k);
      } else {
        BudgetOther(v, s, step, id, k);
      }
    }
  }

  lemma {:induction false} BudgetRun(v: Vault, s: State, steps: seq<Step>, id: int, k: nat)
    requires k >= 1 && v.Sound() && Kept(v, s) && WithinBudget(s, id, k) && RunBudgeted(v, s, steps, id, k)
    ensures WithinBudget(Run(v, s, steps), id, k)
    decreases |steps|
  {
    if steps != [] {
      BudgetStep(v, s, steps[0], id, k);
      KeptStep(v, s, steps[0]);
      BudgetRun(v, Next(v, s, steps[0]), steps[1..], id, k);
    }
  }

  // Main theorem: with at most k syncs of the row in flight, failures and in-flight
  // syncs together never exceed the budget by more than k - 1. With k = 1, never more
  // than MAX_SYNC_RETRIES failures.
  lemma AttemptsBounded(v: Vault, steps: seq<Step>, id: int, k: nat)
    requires k >= 1 && v.Sound() && RunBudgeted(v, Start, steps, id, k)
    ensures var s := Run(v, Start, steps);
            id in s.rows ==> s.rows[id].syncAttempts + |InFlight(s, id)| <= MAX_SYNC_RETRIES - 1 + k
  {
    assert InFlight(Start, id) == {};
    BudgetRun(v, Start, steps, id, k);
  }

  // Syncs that never overlap fail five times at most before a resync is refused.
  lemma FiveFailures(v: Vault, steps: seq<Step>, id: int, t: int)
    requires v.Sound() && RunBudgeted(v, Start, steps, id, 1)
    requires id in Run(v, Start, steps).rows
    ensures var s := Run(v, Start, steps);
            && s.rows[id].syncAttempts <= 5
            && (Live(s.rows, id) && t !in s.syncs ==> (Enabled(v, s, Resync(id, t)) <==> s.rows[id].syncAttempts < 5))
  {
    AttemptsBounded(v, steps, id, 1);
  }

  // A row refused for too many failures can be resynced again once a key has been
  // uploaded to it.
  lemma ReuploadRestoresBudget(v: Vault, s: State, id: int, key: Bytes, nonce: Bytes, now: int, t: int)
    requires Enabled(v, s, Rotate(id, key, nonce, now)) && t !in s.syncs
    ensures Enabled(v, Next(v, s, Rotate(id, key, nonce, now)), Resync(id, t))
  {
  }

  // --- What one more dispatch can cost ---

  // A sync that may still fail: it has not been answered, or its answer is a failure.
  predicate CanFail(y: Sync) { y.Waiting? || y.Loaded? || (y.Replied? && y.mark.ToFailed?) }

  function MayFail(s: State, id: int): set<int> { set t | t in s.syncs && s.syncs[t].id == id && CanFail(s.syncs[t]) }

  predicate StartsSync(step: Step, id: int) { (step.Dispatch? || step.Resync?) && step.id == id }

  predicate StartsNone(steps: seq<Step>, id: int) { forall i :: 0 <= i < |steps| ==> !StartsSync(steps[i], id) }

  // Without a new sync of the row none of its syncs comes to be able to fail.
  lemma MayFailStep(v: Vault, s: State, step: Step, id: int)
    requires Enabled(v, s, step) && id in s.rows && !StartsSync(step, id)
    ensures MayFail(Apply(v, s, step), id) <= MayFail(s, id)
    ensures step.WriteMark? ==> step.t !in MayFail(Apply(v, s, step), id)
  {
  }

  lemma FailureCounted(v: Vault, s: State, step: Step, id: int)
    requires Enabled(v, s, step) && id in s.rows
    ensures id in Apply(v, s, step).rows
    ensures Apply(v, s, step).rows[id].syncAttempts <= s.rows[id].syncAttempts
            || (step.WriteMark? && step.t in MayFail(s, id)
                && Apply(v, s, step).rows[id].syncAttempts == s.rows[id].syncAttempts + 1)
  {
  }

  // So failures and syncs that may still fail together never grow.
  lemma ExposureStep(v: Vault, s: State, step: Step, id: int)
    requires id in s.rows && !StartsSync(step, id)
    ensures var s' := Next(v, s, step);
            id in s'.rows && s'.rows[id].syncAttempts + |MayFail(s', id)| <= s.rows[id].syncAttempts + |MayFail(s, id)|
  {
    if Enabled(v, s, step) {
      var f, f' := MayFail(s, id), MayFail(Apply(v, s, step), id);
      MayFailStep(v, s, step, id);
      FailureCounted(v, s, step, id);
      if step.WriteMark? && step.t in f {
        SubsetSize(f', f - {step.t});
      } else {
        SubsetSize(f', f);
      }
    }
  }

  lemma {:induction false} ExposureRun(v: Vault, s: State, steps: seq<Step>, id: int)
    requires id in s.rows && StartsNone(steps, id)
    ensures var s' := Run(v, s, steps);
            id in s'.rows && s'.rows[id].syncAttempts <= s.rows[id].syncAttempts + |MayFail(s, id)|
    decreases |steps|
  {
    if steps != [] {
      ExposureStep(v, s, steps[0], id);
      ExposureRun(v, Next(v, s, steps[0]), steps[1..], id);
    }
  }

  // What makes a sync fail from where it is.
  function FailSteps(y: Sync, t: int): seq<Step> {
    match y
    case Waiting(_) => FailingSync(t)
    case Loaded(_, _) => [Call(t, TokenUnreadable), WriteMark(t, 0)]
    case Replied(_, _, _) => [WriteMark(t, 0)]
  }

  function FailingSync(t: int): seq<Step> { [Load(t), Call(t, TokenUnreadable), WriteMark(t, 0)] }

  // The failure is counted, and the sync is gone.
  ghost predicate FailedOnce(s: State, t: int, s': State)
    requires t in s.syncs && Live(s.rows, s.syncs[t].id)
  {
    var id := s.syncs[t].id;
    && Live(s'.rows, id) && s'.rows[id].syncAttempts == s.rows[id].syncAttempts + 1
    && s'.syncs == s.syncs - {t}
  }

  lemma MarkFails(v: Vault, s: State, t: int)
    requires t in s.syncs && s.syncs[t].Replied? && s.syncs[t].mark.ToFailed? && Live(s.rows, s.syncs[t].id)
    ensures FailedOnce(s, t, Next(v, s, WriteMark(t, 0)))
  {
  }

  lemma CallFails(v: Vault, s: State, t: int)
    requires t in s.syncs && s.syncs[t].Loaded? && Live(s.rows, s.syncs[t].id)
    ensures FailedOnce(s, t, Next(v, Next(v, s, Call(t, TokenUnreadable)), WriteMark(t, 0)))
  {
    var s1 := Next(v, s, Call(t, TokenUnreadable));
    assert s1.rows == s.rows && s1.syncs - {t} == s.syncs - {t};
    MarkFails(v, s1, t);
  }

  lemma FailOnce(v: Vault, s: State, t: int)
    requires t in s.syncs && CanFail(s.syncs[t]) && Live(s.rows, s.syncs[t].id)
    ensures FailedOnce(s, t, Run(v, s, FailSteps(s.syncs[t], t)))
  {
    match s.syncs[t]
    case Waiting(_) =>
      RunThree(v, s, Load(t), Call(t, TokenUnreadable), WriteMark(t, 0));
      var s1 := Next(v, s, Load(t));
      assert s1.rows == s.rows && s1.syncs - {t} == s.syncs - {t};
      CallFails(v, s1, t);
    case Loaded(_, _) =>
      RunTwo(v, s, Call(t, TokenUnreadable), WriteMark(t, 0));
      CallFails(v, s, t);
    case Replied(_, _, _) =>
      RunOne(v, s, WriteMark(t, 0));
      MarkFails(v, s, t);
  }

  // All syncs that may fail can fail.
  lemma {:induction false} AllMayFail(v: Vault, s: State, id: int) returns (after: seq<Step>)
    requires Live(s.rows, id)
    ensures StartsNone(after, id)
    ensures var s' := Run(v, s, after);
            id in s'.rows && s'.rows[id].syncAttempts == s.rows[id].syncAttempts + |MayFail(s, id)|
    decreases |MayFail(s, id)|
  {
    after := [];
    if MayFail(s, id) != {} {
      var t := Pick(MayFail(s, id));
      FailOnce(v, s, t);
      var first := FailSteps(s.syncs[t], t);
      var s1 := Run(v, s, first);
      assert MayFail(s1, id) == MayFail(s, id) - {t};
      var rest := AllMayFail(v, s1, id);
      RunAppend(v, s, first, rest);
      after := first + rest;
    }
  }

  lemma Started(v: Vault, s: State, step: Step, id: int)
    requires Enabled(v, s, step) && StartsSync(step, id)
    ensures step.t !in s.syncs && Next(v, s, step) == s.(syncs := s.syncs[step.t := Waiting(id)])
  {
  }

  lemma OneMoreMayFail(s: State, t: int, id: int)
    requires t !in s.syncs
    ensures |MayFail(s.(syncs := s.syncs[t := Waiting(id)]), id)| == |MayFail(s, id)| + 1
  {
    assert MayFail(s.(syncs := s.syncs[t := Waiting(id)]), id) == MayFail(s, id) + {t} && t !in MayFail(s, id);
  }

  // One more sync of a live row keeps its failure count within a bound, in every
  // continuation that starts no further sync of it, if and only if its failures and the
  // syncs that may still fail are below the bound before it starts. The dispatch of an
  // update looks at neither; the guard of a resync looks at the failures alone.
  lemma OneMoreSyncExactly(v: Vault, s: State, step: Step, id: int, bound: nat)
    requires Enabled(v, s, step) && StartsSync(step, id) && Live(s.rows, id)
    ensures s.rows[id].syncAttempts + |MayFail(s, id)| < bound <==>
              forall after: seq<Step> :: StartsNone(after, id) ==>
                var s' := Run(v, Next(v, s, step), after);
                id in s'.rows && s'.rows[id].syncAttempts <= bound
  {
    var s1 := Next(v, s, step);
    Started(v, s, step, id);
    OneMoreMayFail(s, step.t, id);
    forall after: seq<Step> | StartsNone(after, id)
      ensures var s' := Run(v, s1, after);
              id in s'.rows && s'.rows[id].syncAttempts <= s.rows[id].syncAttempts + |MayFail(s, id)| + 1
    {
      ExposureRun(v, s1, after, id);
    }
    var after := AllMayFail(v, s1, id);
  }

  // The budget itself can be used up: resyncs that are all checked before any of
  // them fails reach MAX_SYNC_RETRIES - 1 + k.
  function Resyncs(k: nat): seq<Step> { if k == 0 then [] else Resyncs(k - 1) + [Resync(1, k)] }

  function Failures(k: nat): seq<Step> { if k == 0 then [] else FailingSync(k) + Failures(k - 1) }

  function Queue(k: nat): (q: map<int, Sync>)
    ensures forall t :: t in q <==> 1 <= t <= k
  {
    if k == 0 then map[] else Queue(k - 1)[k := Waiting(1)]
  }

  lemma {:induction false} ResyncsOverlap(v: Vault, s: State, k: nat)
    requires Live(s.rows, 1) && s.rows[1].syncAttempts < MAX_SYNC_RETRIES && s.syncs == map[]
    ensures Run(v, s, Resyncs(k)) == s.(syncs := Queue(k))
  {
    if k > 0 {
      ResyncsOverlap(v, s, k - 1);
      RunAppend(v, s, Resyncs(k - 1), [Resync(1, k)]);
      RunOne(v, Run(v, s, Resyncs(k - 1)), Resync(1, k));
    }
  }

  lemma LastFails(v: Vault, s: State, k: nat)
    requires k > 0 && Live(s.rows, 1) && s.syncs == Queue(k)
    ensures var s1 := Run(v, s, FailingSync(k));
            && Live(s1.rows, 1) && s1.rows[1].syncAttempts == s.rows[1].syncAttempts + 1
            && s1.syncs == Queue(k - 1)
  {
    assert s.syncs[k] == Waiting(1);
    FailOnce(v, s, k);
    assert s.syncs - {k} == Queue(k - 1);
  }

  lemma {:induction false} AllFail(v: Vault, s: State, k: nat)
    requires Live(s.rows, 1) && s.syncs == Queue(k)
    ensures var s' := Run(v, s, Failures(k));
            Live(s'.rows, 1) && s'.rows[1].syncAttempts == s.rows[1].syncAttempts + k && s'.syncs == map[]
    decreases k
  {
    if k > 0 {
      LastFails(v, s, k);
      AllFail(v, Run(v, s, FailingSync(k)), k - 1);
      RunAppend(v, s, FailingSync(k), Failures(k - 1));
    }
  }

  // From a row with one failure short of the budget and nothing in flight.
  lemma BudgetIsTight(v: Vault, s: State, k: nat)
    requires Live(s.rows, 1) && s.rows[1].syncAttempts == MAX_SYNC_RETRIES - 1 && s.syncs == map[]
    ensures var s' := Run(v, s, Resyncs(k) + Failures(k));
            1 in s'.rows && s'.rows[1].syncAttempts == MAX_SYNC_RETRIES - 1 + k
  {
    ResyncsOverlap(v, s, k);
    RunAppend(v, s, Resyncs(k), Failures(k));
    AllFail(v, Run(v, s, Resyncs(k)), k);
  }
}
