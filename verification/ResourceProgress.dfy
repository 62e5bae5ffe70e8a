/** No lost grant and capacity safety, for every step and every run. */
module ResourceProgress {
  import opened HashHeap
  import opened WaitKeys
  import opened ResourceModel
  import opened ResourceInvariant
  import opened ResourceRuns
  import opened ResourceGrants
  import opened ResourceStops
  import opened ResourceTheorems

  /** What every step owes every pool: no rise of in_use above the capacity,
      and a heeded pool stays heeded unless it is in `except`. */
  ghost predicate StepFlow(w: World, w': World, except: iset<nat>) {
    && |w'.pools| == |w.pools|
    && (forall s :: 0 <= s < |w.pools| ==> w'.pools[s].inUse <= w.pools[s].inUse || w'.pools[s].inUse <= w'.pools[s].capacity)
    && (forall s: nat :: s !in except && Heeded(w, s) ==> Heeded(w', s))
  }

  lemma ReleaseFlow(w: World, p: nat, r: nat, amount: nat)
    requires Inv(w) && CanCall(w, p) && r < |w.pools|
    ensures Flow(w, Release(w, p, r, amount).0, {})
  {
    if 0 < amount <= Held(w, r, p) && amount <= INT64_MAX {
      hide GiveBack, SettleTag, SignalGuard;
      var w1 := GiveBack(w, r, p, amount);
      var w2 := SettleTag(w1, p, r);
      Unsettled(w, p, [r]);
      PoolIsOk(w, r);
      GiveBackKeeps(w, r, p, amount, [r]);
      GiveBackFlow(w, w1, r, p);
      SettleTagKeeps(w1, p, r, [r]);
      SettleFlow(w1, w2, p);
      SignalFlow(w2, r, p, [r]);
      FlowTrans(w, w1, w2, {r}, {});
      FlowTrans(w, w2, SignalGuard(w2, r), {r} + {}, {});
      FlowHeals(w, SignalGuard(w2, r), {r} + {} + {}, {});
    }
  }

  lemma SetCapacityFlow(w: World, caller: Option<nat>, r: nat, value: int, preempting: bool)
    requires Inv(w) && r < |w.pools|
    ensures StepFlow(w, SetCapacity(w, caller, r, value, preempting).0, iset{})
  {
    var pool := w.pools[r];
    if 0 <= value != pool.capacity {
      hide ShedOthers, SignalGuard, Inv, Heeded;
      var w1 := SetPool(w, r, pool.(capacity := value, maxCapacity := if value > pool.maxCapacity then value else pool.maxCapacity));
      ResizeKeeps(w, r, value);
      ResizeFlow(w, w1, r);
      var w2 := if preempting && pool.inUse > value then ShedOthers(w1, caller, r) else w1;
      if preempting && pool.inUse > value { ShedFlow(w1, caller, r); ShedKeeps(w1, caller, r); }
      SignalFlow(w2, r, 0, []) by { InvIsRunning(w2); }
    }
  }

  lemma ResizeFlow(w: World, w1: World, r: nat)
    requires r < |w.pools| && w1 == w.(pools := w1.pools) && |w1.pools| == |w.pools|
    requires forall s :: 0 <= s < |w.pools| && s != r ==> w1.pools[s] == w.pools[s]
    ensures forall s: nat :: s != r && Heeded(w, s) ==> Heeded(w1, s)
  {
    forall s: nat | s != r && Heeded(w, s) ensures Heeded(w1, s) {
      if q :| Token(w, q, s) { assert Token(w1, q, s); }
    }
  }

  lemma ShedFlow(w: World, caller: Option<nat>, r: nat)
    requires Inv(w) && r < |w.pools|
    ensures Flow(w, ShedOthers(w, caller, r), {r})
  {
    hide EvictAll, Running;
    var need := w.pools[r].inUse - w.pools[r].capacity;
    var others := Others(w.pools[r].holders, caller);
    var vs := Keys(others[..ShedCount(others, need)]);
    PoolIsOk(w, r);
    OthersOk(w, r, caller);
    ShedReaches(w, r, others, caller, need);
    EvictAllKeeps(w, r, vs, 0, []) by { InvIsRunning(w); }
    assert Waits(w) by { InvWaits(w); }
    EvictFlow(w, EvictAll(w, r, vs), r, vs, 0, []);
  }

  lemma InvWaits(w: World)
    requires Inv(w)
    ensures Waits(w)
  {
  }

  lemma SetPriorityFlow(w: World, p: nat, priority: int)
    requires Inv(w) && p < |w.procs|
    ensures Flow(w, SetPriority(w, p, priority), {})
  {
    hide SetPriority;
    var w' := SetPriority(w, p, priority);
    SetPriorityEffect(w, p, priority);
    forall s: nat | Heeded(w, s) ensures Heeded(w', s) {
      if s < |w.pools| && w'.pools[s].queue != [] && Room(w'.pools[s]) > 0 {
        assert PoolOk(w'.pools[s], |w'.procs|);
        EntriesShrink(w, w', s);
        var q :| Token(w, q, s);
        assert Token(w', q, s);
      }
    }
  }

  // ---- Every step ----

  /** The steps after which pool r has room and a queue and nobody to see it,
      though it was heeded before: the quiet rollback, the cancelled
      acquire_any with a grant pending, the one that was thrown out and takes a
      unit elsewhere, and the stop of a process on its way. */
  ghost predicate LosesGrant(w: World, s: Step, r: nat) {
    match s
    case Deliver(e) => e.Notice? && LosesOnResume(w, e.pid, e.sig, true, r)
    case Timer(p, sig) => LosesOnResume(w, p, sig, false, r)
    case StopProcess(p) => LosesOnStop(w, p, r)
    case _ => false
  }

  lemma ResumeStepFlow(w: World, s: Step, p: nat)
    requires Inv(w) && Enabled(w, s) && Resumes(w, s, p)
    ensures StepFlow(w, Next(w, s), iset r: nat | LosesGrant(w, s, r))
    ensures forall r: nat :: Heeded(w, r) && LosesGrant(w, s, r) ==> !Heeded(Next(w, s), r)
  {
    hide Resume, Inv, Exec, Heeded, LosesOnResume;
    var events, cancelled := ResumingStep(w, s, p);
    var w' := Next(w, s);
    LosesIsOnResume(w, s, p, cancelled);
    if w.procs[p].frame.call.Take? {
      var m := w.procs[p].frame.members[0];
      ResumeTakeFlow(w, p, SignalOf(s), cancelled, events);
      forall r: nat | r != m ensures !LosesOnResume(w, p, SignalOf(s), cancelled, r) { OnlyItsPool(w, p, SignalOf(s), cancelled, r); }
    } else {
      ResumeAnyFlow(w, p, SignalOf(s), cancelled, events);
      forall r: nat | r >= |w.pools| ensures Heeded(w', r) && !LosesOnResume(w, p, SignalOf(s), cancelled, r) {
        OutOfRange(w', r);
        OnlyItsPools(w, p, SignalOf(s), cancelled, r);
      }
    }
  }

  lemma OutOfRange(w: World, r: nat)
    requires r >= |w.pools|
    ensures Heeded(w, r)
  {
  }

  lemma OnlyItsPool(w: World, p: nat, sig: Signal, cancelled: bool, r: nat)
    requires p < |w.procs| && w.procs[p].frame.Waiting? && w.procs[p].frame.call.Take? && |w.procs[p].frame.members| > 0
    requires r != w.procs[p].frame.members[0]
    ensures !LosesOnResume(w, p, sig, cancelled, r)
  {
  }

  lemma OnlyItsPools(w: World, p: nat, sig: Signal, cancelled: bool, r: nat)
    requires r >= |w.pools|
    ensures !LosesOnResume(w, p, sig, cancelled, r)
  {
  }

  lemma LosesIsOnResume(w: World, s: Step, p: nat, cancelled: bool)
    requires Resumes(w, s, p) && (cancelled <==> s.Deliver? && s.event.Notice?)
    ensures forall r: nat :: LosesGrant(w, s, r) == LosesOnResume(w, p, SignalOf(s), cancelled, r)
  {
  }

  /** Each step keeps in_use from rising above the capacity, keeps every heeded
      pool heeded that it does not lose, and loses exactly those that
      LosesGrant names. */
  lemma StepIsHeeded(w: World, s: Step)
    requires Inv(w) && Enabled(w, s)
    ensures StepFlow(w, Next(w, s), iset r: nat | LosesGrant(w, s, r))
    ensures forall r: nat :: Heeded(w, r) ==> (Heeded(Next(w, s), r) <==> !LosesGrant(w, s, r))
  {
    match s
    case Acquire(p, r, amount, preempt, rq) => StartAcquireFlow(w, p, r, amount, preempt, rq);
    case AcquireAny(p, members, rq) =>
      if members != [] { Unsettled(w, p, members); AttemptAnyFlow(w, p, members, rq, Unplaced); }
    case ReleaseUnits(p, r, amount) => ReleaseFlow(w, p, r, amount);
    case ChangeCapacity(caller, r, value, preempting) => SetCapacityFlow(w, caller, r, value, preempting);
    case ChangePriority(p, priority) => SetPriorityFlow(w, p, priority);
    case StopProcess(p) => StopFlow(w, p);
    case Interrupt(_, _) => UnchangedHeeded(w, Next(w, s));
    case Tick(_) => UnchangedHeeded(w, Next(w, s));
    case Timer(p, _) => ResumeStepFlow(w, s, p);
    case Deliver(e) =>
      if Resumes(w, s, e.pid) { ResumeStepFlow(w, s, e.pid); }
      else { EventStepKeeps(w, s); UnchangedHeeded(w, Next(w, s)); }
  }

  lemma UnchangedHeeded(w: World, w': World)
    requires w'.pools == w.pools && w'.procs == w.procs
    ensures StepFlow(w, w', iset{}) && forall r: nat :: Heeded(w', r) == Heeded(w, r)
  {
    SameTokens(w, w');
    forall r: nat ensures Heeded(w', r) == Heeded(w, r) { BothWays(w, w', r); }
  }

  // ---- Every run ----

  /** No lost grant: in every run up to state i none of whose steps loses a
      grant of pool r, whenever r has room and somebody queues for it, some
      process is on its way to look at r again, and its wakeup is pending. */
  lemma {:induction false} NoLostGrant(ws: seq<World>, steps: seq<Step>, i: nat, r: nat)
    requires Run(ws, steps) && i < |ws|
    requires forall j :: 0 <= j < i ==> !LosesGrant(ws[j], steps[j], r)
    ensures Heeded(ws[i], r)
    ensures r < |ws[i].pools| && Room(ws[i].pools[r]) > 0 && ws[i].pools[r].queue != [] ==>
      exists q :: Token(ws[i], q, r) && WakeupPending(ws[i], q, r)
  {
    RunKeeps(ws, steps, i);
    if i > 0 {
      RunKeeps(ws, steps, i - 1);
      assert Enabled(ws[i - 1], steps[i - 1]) && ws[i] == Next(ws[i - 1], steps[i - 1]);
      NoLostGrant(ws, steps, i - 1, r);
      StepIsHeeded(ws[i - 1], steps[i - 1]);
    }
    if q :| Token(ws[i], q, r) {
      assert WaitOk(ws[i], q);
      assert WakeupPending(ws[i], q, r);
    }
  }

  ghost predicate WakeupPending(w: World, q: nat, r: nat) {
    q < |w.procs| && w.procs[q].frame.Waiting?
    && (Grant(q, r, w.procs[q].frame.key) in w.events || Notice(q, Preempted) in w.events)
  }

  /** Capacity safety: in every reachable state the units in use fit the
      capacity the pool has, or had at some earlier state of the run. */
  lemma {:induction false} WithinSomeCapacity(ws: seq<World>, steps: seq<Step>, i: nat, r: nat) returns (j: nat)
    requires Run(ws, steps) && i < |ws| && r < |ws[i].pools|
    ensures j <= i && r < |ws[j].pools| && ws[i].pools[r].inUse <= ws[j].pools[r].capacity
  {
    if i == 0 {
      j := 0;
    } else {
      hide Run, Inv, Enabled, Next, Heeded, LosesGrant;
      RunStep(ws, steps, i - 1);
      RunKeeps(ws, steps, i - 1);
      StepIsHeeded(ws[i - 1], steps[i - 1]);
      if ws[i].pools[r].inUse <= ws[i].pools[r].capacity { j := i; }
      else { j := WithinSomeCapacity(ws, steps, i - 1, r); }
    }
  }
}
