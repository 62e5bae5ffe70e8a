/** What becomes of each spawned process: what starting a model schedules, when
    a process starts, ends, is kept and is freed, and that none is forgotten. */
module SpawnedLives {
  import opened RetiredRing
  import opened Retirement

  // ---- Starting a model ----

  /** The copies are new processes, not yet started, each with one new event
      that starts it now. Nothing else changes. */
  lemma {:induction false} StartModelEffect(s: State, copies: nat)
    requires forall h :: h in s.events ==> h < s.nextHandle
    ensures var s' := StartModel(s, copies);
      && s' == s.(events := s'.events, procs := s'.procs, nextHandle := s.nextHandle + copies)
      && |s'.procs| == |s.procs| + copies && s'.procs[..|s.procs|] == s.procs
      && (forall q :: |s.procs| <= q < |s'.procs| ==> s'.procs[q] == Process(Initialized, InSlot, 0, 0, 0, {}, 0))
      && (forall h :: h in s'.events <==> h in s.events || s.nextHandle <= h < s.nextHandle + copies)
      && (forall h :: h in s.events ==> s'.events[h] == s.events[h])
      && (forall h :: s.nextHandle <= h < s.nextHandle + copies ==>
            s'.events[h] == Event(Deferred, |s.procs| + h - s.nextHandle, s.clock))
    decreases copies
  {
    if copies > 0 {
      var s1 := Schedule(s.(procs := s.procs + [Spawned]), Deferred, |s.procs|);
      StartModelEffect(s1, copies - 1);
      var s' := StartModel(s, copies);
      assert s1.procs[..|s.procs|] == s.procs;
      assert s'.procs[..|s.procs|] == s'.procs[..|s1.procs|][..|s.procs|];
      assert s'.procs[|s.procs|] == s'.procs[..|s1.procs|][|s.procs|];
    }
  }

  // ---- What is put on the event queue, and what is taken off ----

  /** The step takes this event off the queue. A process that ends loses the
      signals to it and its timers; a released one its start, and if it has
      never run everything. */
  predicate TakesOff(s: State, step: Step, h: nat)
    requires h in s.events
  {
    var e := s.events[h];
    match step
    case Dispatch(k) => h == k
    case CancelTimer(_, k) => h == k
    case Return(p) => e.process == p && e.kind in {Signal, Timer}
    case Stop(p) => e.process == p && e.kind in {Signal, Timer}
    case ReleaseModel(lo, hi, _) => lo <= e.process < hi && ReleasedOff(s, |s.procs|, e)
    case ClearQueue => true
    case _ => false
  }

  predicate ReleasedOff(s: State, caller: nat, e: Event) {
    e.process < |s.procs| && s.procs[e.process].fate.InSlot? &&
    (e.kind == Deferred || (e.process != caller && match s.procs[e.process].status
                                                   case Initialized => true
                                                   case Running => e.kind in {Signal, Timer}
                                                   case Finished => false))
  }

  /** The step puts this event on the queue. */
  predicate PutsOn(s: State, step: Step, e: Event) {
    match step
    case Dispatch(h) => h in s.events && s.events[h].kind == Deferred && e == Event(Start, s.events[h].process, s.events[h].time)
    case Spawn(copies) => e.kind == Deferred && |s.procs| <= e.process < |s.procs| + copies && e.time == s.clock
    case Interrupt(p) => e == Event(Signal, p, s.clock)
    case Grant(p) => e == Event(Wakeup, p, s.clock)
    case SetTimer(p, time) => e == Event(Timer, p, time)
    case Return(p) => e == Event(Retire, p, s.clock)
    case ReleaseModel(lo, hi, _) => lo <= e.process < hi && e == Event(Retire, e.process, s.clock) && e.process < |s.procs| && s.procs[e.process].fate.InSlot?
    case _ => false
  }

  ghost predicate Fresh(s: State, s': State, h: nat) { h in s'.events && h !in s.events }

  ghost predicate Appears(s: State, s': State, e: Event) { exists h :: Fresh(s, s', h) && s'.events[h] == e }

  /** The queue after a step: what was on it and has not been taken off, and
      each event that the step puts on, once, under a handle of its own. */
  ghost predicate QueueChanges(s: State, step: Step, s': State) {
    && (forall h :: h in s.events ==> (h in s'.events <==> !TakesOff(s, step, h)))
    && (forall h :: h in s.events && h in s'.events ==> s'.events[h] == s.events[h])
    && (forall h: nat :: Fresh(s, s', h) ==> s.nextHandle <= h < s'.nextHandle && PutsOn(s, step, s'.events[h]))
    && (forall e :: PutsOn(s, step, e) ==> Appears(s, s', e))
    && (forall h: nat, k: nat :: Fresh(s, s', h) && Fresh(s, s', k) && h != k ==> s'.events[h] != s'.events[k])
  }

  /** One new event under the next handle. */
  lemma OneFresh(s: State, s': State, e: Event)
    requires s.nextHandle !in s.events && s.nextHandle in s'.events && s'.events[s.nextHandle] == e
    ensures Appears(s, s', e)
  {
    assert Fresh(s, s', s.nextHandle);
  }

  lemma HandlesGivenOut(s: State)
    requires Inv(s)
    ensures forall h :: h in s.events ==> h < s.nextHandle && s.events[h].process < |s.procs|
  {
    forall h | h in s.events ensures h < s.nextHandle && s.events[h].process < |s.procs| { assert EventOk(s, h, NOBODY); }
  }

  lemma SpawnQueue(s: State, copies: nat)
    requires Inv(s)
    ensures QueueChanges(s, Spawn(copies), StartModel(s, copies))
  {
    hide StartModel, Inv;
    HandlesGivenOut(s);
    StartModelEffect(s, copies);
    var s' := StartModel(s, copies);
    forall e | PutsOn(s, Spawn(copies), e) ensures Appears(s, s', e) {
      assert Fresh(s, s', s.nextHandle + e.process - |s.procs|);
    }
  }

  ghost predicate LosesSignals(s1: State, p: nat, s2: State) {
    && s2.nextHandle == s1.nextHandle
    && (forall h :: h in s2.events <==> h in s1.events && !(s1.events[h].process == p && s1.events[h].kind in {Signal, Timer}))
    && (forall h :: h in s2.events ==> s2.events[h] == s1.events[h])
  }

  lemma EndLosesSignals(s: State, p: nat)
    requires p < |s.procs|
    ensures LosesSignals(s, p, EndSwept(s, p))
  {
  }

  lemma ReturnQueue(s: State, p: nat)
    requires Inv(s) && Live(s, p)
    ensures QueueChanges(s, Return(p), Finish(s, p, Direct))
  {
    HandlesGivenOut(s);
    FinishKeeps(s, p);
    EndLosesSignals(Schedule(s, Retire, p), p);
    hide EndSwept, Inv, QueueChanges;
    ReturnedQueue(s, p, Finish(s, p, Swept));
  }

  lemma ReturnedQueue(s: State, p: nat, s': State)
    requires LosesSignals(Schedule(s, Retire, p), p, s') && forall h :: h in s.events ==> h < s.nextHandle
    ensures QueueChanges(s, Return(p), s')
  {
    OneFresh(s, s', Event(Retire, p, s.clock));
  }

  lemma OffTheQueue(s: State, h: nat, s': State)
    requires h in s.events && s.events[h].kind != Deferred && s'.events == s.events - {h}
    ensures QueueChanges(s, Dispatch(h), s')
  {
  }

  lemma DispatchQueue(s: State, h: nat)
    requires Inv(s) && Enabled(s, Dispatch(h))
    ensures QueueChanges(s, Dispatch(h), Fire(s, h, Direct)) && Fire(s, h, Direct).clock == s.events[h].time
  {
    hide QueueChanges, FreeBefore, Inv;
    var e := s.events[h];
    var s1 := s.(clock := e.time, events := s.events - {h});
    var s' := Fire(s, h, Direct);
    DispatchKeeps(s, h);
    if e.kind == Deferred {
      HandlesGivenOut(s);
      DeferredQueue(s, h);
    } else if e.kind == Retire {
      FreeBeforeEffect(s1, Before(s1.clock)) by { InvIsWithin(s1); }
      OffTheQueue(s, h, s');
    } else {
      OffTheQueue(s, h, s');
    }
  }

  lemma DeferredQueue(s: State, h: nat)
    requires h in s.events && s.events[h].kind == Deferred && s.events[h].process < |s.procs|
    requires forall k :: k in s.events ==> k < s.nextHandle
    ensures QueueChanges(s, Dispatch(h), Fire(s, h, Direct))
  {
    var s' := Fire(s, h, Direct);
    OneFresh(s, s', Event(Start, s.events[h].process, s.events[h].time));
  }

  // ---- A release ----

  /** The processes lo up to hi of a release, before the caller ends: those
      that run are ended, */
  ghost predicate RangeEnded(s: State, lo: nat, hi: nat, caller: nat, s': State) {
    && s' == s.(events := s'.events, procs := s'.procs, nextHandle := s'.nextHandle) && |s'.procs| == |s.procs| && s.nextHandle <= s'.nextHandle
    && (forall q :: 0 <= q < |s.procs| ==>
          s'.procs[q] == if lo <= q < hi && q != caller && s.procs[q].fate.InSlot? && s.procs[q].status == Running
                         then s.procs[q].(status := Finished, holds := 0, waits := 0, waiters := 0, timers := {}) else s.procs[q])
  }

  /** the events that a release takes off are off, */
  ghost predicate RangeTaken(s: State, lo: nat, hi: nat, caller: nat, s': State) {
    && (forall h :: h in s.events ==> (h in s'.events <==> !(lo <= s.events[h].process < hi && ReleasedOff(s, caller, s.events[h]))))
    && (forall h :: h in s.events && h in s'.events ==> s'.events[h] == s.events[h])
  }

  /** and each that is in its slot has one new retirement. */
  ghost predicate RangeRetired(s: State, lo: nat, hi: nat, caller: nat, s': State) {
    && (forall h: nat :: Fresh(s, s', h) ==> s.nextHandle <= h < s'.nextHandle && PutsOn(s, ReleaseModel(lo, hi, caller), s'.events[h]))
    && (forall e :: PutsOn(s, ReleaseModel(lo, hi, caller), e) ==> Appears(s, s', e))
    && (forall h: nat, k: nat :: Fresh(s, s', h) && Fresh(s, s', k) && h != k ==> s'.events[h].process != s'.events[k].process)
  }

  ghost predicate RangeReleased(s: State, lo: nat, hi: nat, caller: nat, s': State) {
    RangeEnded(s, lo, hi, caller, s') && RangeTaken(s, lo, hi, caller, s') && RangeRetired(s, lo, hi, caller, s')
  }

  lemma NoneReleased(s: State, p: nat, caller: nat)
    requires p < |s.procs| && !s.procs[p].fate.InSlot?
    ensures RangeReleased(s, p, p + 1, caller, s)
  {
  }

  /** It has lost what it is to lose, and then its retirement is scheduled. */
  lemma ThenRetired(s: State, p: nat, caller: nat, s1: State)
    requires p < |s.procs| && s.procs[p].fate.InSlot? && forall h :: h in s.events ==> h < s.nextHandle
    requires s1 == s.(events := s1.events, procs := s1.procs)
    requires s1.procs == if p != caller && s.procs[p].status == Running
                         then s.procs[p := s.procs[p].(status := Finished, holds := 0, waits := 0, waiters := 0, timers := {})] else s.procs
    requires forall h :: h in s1.events <==> h in s.events && !(s.events[h].process == p && ReleasedOff(s, caller, s.events[h]))
    requires forall h :: h in s1.events ==> s1.events[h] == s.events[h]
    ensures RangeReleased(s, p, p + 1, caller, Schedule(s1, Retire, p))
  {
    OneFresh(s, Schedule(s1, Retire, p), Event(Retire, p, s.clock));
  }

  lemma OneReleased(s: State, p: nat, caller: nat)
    requires p < |s.procs| && forall h :: h in s.events ==> h < s.nextHandle
    ensures RangeReleased(s, p, p + 1, caller, ReleaseProcess(s, p, caller))
  {
    hide RangeReleased;
    if s.procs[p].fate.InSlot? {
      var s1 := Sweep(s, p, {Deferred});
      if p == caller || s.procs[p].status == Finished {
        ThenRetired(s, p, caller, s1);
      } else if s.procs[p].status == Initialized {
        ThenRetired(s, p, caller, Sweep(s1, p, EVERY_KIND));
      } else {
        ThenRetired(s, p, caller, EndSwept(s1, p));
      }
    } else {
      NoneReleased(s, p, caller);
    }
  }

  lemma EndedJoin(s: State, s1: State, s2: State, lo: nat, mid: nat, hi: nat, caller: nat)
    requires lo <= mid <= hi <= |s.procs| && RangeEnded(s, lo, mid, caller, s1) && RangeEnded(s1, mid, hi, caller, s2)
    ensures RangeEnded(s, lo, hi, caller, s2)
  {
  }

  /** The second part finds what the first has left of its processes. */
  lemma SameOff(s: State, s1: State, lo: nat, mid: nat, hi: nat, caller: nat, e: Event)
    requires lo <= mid <= hi <= |s.procs| && RangeEnded(s, lo, mid, caller, s1) && mid <= e.process
    ensures ReleasedOff(s1, caller, e) == ReleasedOff(s, caller, e)
    ensures PutsOn(s1, ReleaseModel(mid, hi, caller), e) == PutsOn(s, ReleaseModel(mid, hi, caller), e)
  {
  }

  lemma TakenJoin(s: State, s1: State, s2: State, lo: nat, mid: nat, hi: nat, caller: nat)
    requires forall h :: h in s.events ==> h < s.nextHandle
    requires lo <= mid <= hi <= |s.procs| && RangeEnded(s, lo, mid, caller, s1) && s.nextHandle <= s1.nextHandle
    requires RangeReleased(s, lo, mid, caller, s1) && RangeReleased(s1, mid, hi, caller, s2)
    ensures RangeTaken(s, lo, hi, caller, s2)
  {
    hide RangeEnded, ReleasedOff, PutsOn, Appears;
    forall h | h in s.events ensures h in s2.events <==> !(lo <= s.events[h].process < hi && ReleasedOff(s, caller, s.events[h])) {
      if s.events[h].process >= mid { SameOff(s, s1, lo, mid, hi, caller, s.events[h]); }
      if h !in s1.events { assert !Fresh(s1, s2, h); }
    }
  }

  lemma RetiredJoin(s: State, s1: State, s2: State, lo: nat, mid: nat, hi: nat, caller: nat)
    requires forall h :: h in s.events ==> h < s.nextHandle
    requires lo <= mid <= hi <= |s.procs|
    requires RangeReleased(s, lo, mid, caller, s1) && RangeReleased(s1, mid, hi, caller, s2)
    ensures RangeRetired(s, lo, hi, caller, s2)
  {
    hide RangeEnded, ReleasedOff, Appears, PutsOn;
    forall h: nat | Fresh(s, s2, h)
      ensures s.nextHandle <= h < s2.nextHandle && PutsOn(s, ReleaseModel(lo, hi, caller), s2.events[h])
      ensures (Fresh(s, s1, h) && s1.events[h] == s2.events[h] && s2.events[h].process < mid)
              || (Fresh(s1, s2, h) && s2.events[h].process >= mid)
    {
      FreshOfTwo(s, s1, s2, lo, mid, hi, caller, h);
    }
    forall e | PutsOn(s, ReleaseModel(lo, hi, caller), e) ensures Appears(s, s2, e) {
      PutByTwo(s, s1, s2, lo, mid, hi, caller, e);
    }
  }

  lemma FreshOfTwo(s: State, s1: State, s2: State, lo: nat, mid: nat, hi: nat, caller: nat, h: nat)
    requires lo <= mid <= hi <= |s.procs| && Fresh(s, s2, h)
    requires RangeReleased(s, lo, mid, caller, s1) && RangeReleased(s1, mid, hi, caller, s2)
    ensures s.nextHandle <= h < s2.nextHandle && PutsOn(s, ReleaseModel(lo, hi, caller), s2.events[h])
    ensures (Fresh(s, s1, h) && s1.events[h] == s2.events[h] && s2.events[h].process < mid)
            || (Fresh(s1, s2, h) && s2.events[h].process >= mid)
  {
    hide ReleasedOff, Appears;
    if h in s1.events {
      assert Fresh(s, s1, h);
    } else {
      assert Fresh(s1, s2, h);
      SameOff(s, s1, lo, mid, hi, caller, s2.events[h]);
    }
  }

  lemma PutByTwo(s: State, s1: State, s2: State, lo: nat, mid: nat, hi: nat, caller: nat, e: Event)
    requires lo <= mid <= hi <= |s.procs| && PutsOn(s, ReleaseModel(lo, hi, caller), e)
    requires forall h :: h in s.events ==> h < s.nextHandle
    requires RangeReleased(s, lo, mid, caller, s1) && RangeReleased(s1, mid, hi, caller, s2)
    ensures Appears(s, s2, e)
  {
    if e.process < mid {
      assert PutsOn(s, ReleaseModel(lo, mid, caller), e);
      var h :| Fresh(s, s1, h) && s1.events[h] == e;
      assert h in s2.events;
      assert Fresh(s, s2, h);
    } else {
      SameOff(s, s1, lo, mid, hi, caller, e);
      var h :| Fresh(s1, s2, h) && s2.events[h] == e;
      assert Fresh(s, s2, h);
    }
  }

  lemma RangesJoin(s: State, s1: State, s2: State, lo: nat, mid: nat, hi: nat, caller: nat)
    requires forall h :: h in s.events ==> h < s.nextHandle
    requires lo <= mid <= hi <= |s.procs| && RangeReleased(s, lo, mid, caller, s1) && RangeReleased(s1, mid, hi, caller, s2)
    ensures RangeReleased(s, lo, hi, caller, s2)
  {
    EndedJoin(s, s1, s2, lo, mid, hi, caller);
    TakenJoin(s, s1, s2, lo, mid, hi, caller);
    RetiredJoin(s, s1, s2, lo, mid, hi, caller);
  }

  lemma HandlesStay(s: State, lo: nat, hi: nat, caller: nat, s1: State)
    requires RangeReleased(s, lo, hi, caller, s1) && forall h :: h in s.events ==> h < s.nextHandle
    ensures |s1.procs| == |s.procs| && forall h :: h in s1.events ==> h < s1.nextHandle
  {
    forall h: nat | h in s1.events ensures h < s1.nextHandle { if h !in s.events { assert Fresh(s, s1, h); } }
  }

  lemma {:induction false} RangeIsReleased(s: State, lo: nat, hi: nat, caller: nat)
    requires lo <= hi <= |s.procs| && forall h :: h in s.events ==> h < s.nextHandle
    ensures RangeReleased(s, lo, hi, caller, ReleaseRange(s, lo, hi, caller))
    decreases hi - lo
  {
    hide ReleaseProcess, RangeReleased;
    if lo == hi {
      NothingReleased(s, lo, caller);
    } else {
      var s1 := ReleaseProcess(s, lo, caller);
      OneReleased(s, lo, caller);
      HandlesStay(s, lo, lo + 1, caller, s1);
      RangeIsReleased(s1, lo + 1, hi, caller);
      RangesJoin(s, s1, ReleaseRange(s1, lo + 1, hi, caller), lo, lo + 1, hi, caller);
    }
  }

  lemma NothingReleased(s: State, lo: nat, caller: nat)
    ensures RangeReleased(s, lo, lo, caller, s)
  {
  }

  lemma RangeIsQueue(s: State, lo: nat, hi: nat, caller: nat, s1: State)
    requires RangeReleased(s, lo, hi, caller, s1) && !(lo <= caller < hi)
    ensures QueueChanges(s, ReleaseModel(lo, hi, caller), s1)
  {
    hide RangeEnded;
  }

  /** A caller that is released with the others ends like them. */
  lemma CallerEnds(s: State, lo: nat, hi: nat, caller: nat, s1: State)
    requires RangeReleased(s, lo, hi, caller, s1) && lo <= caller < hi <= |s.procs| && |s1.procs| == |s.procs|
    requires forall h :: h in s.events ==> h < s.nextHandle
    requires s.procs[caller].status == Running && s.procs[caller].fate.InSlot?
    ensures QueueChanges(s, ReleaseModel(lo, hi, caller), EndSwept(s1, caller))
  {
    hide EndSwept, RangeEnded, LosesSignals, RangeTaken, RangeRetired, TakesOff, PutsOn, Appears, Fresh;
    var s2 := EndSwept(s1, caller);
    EndLosesSignals(s1, caller);
    CallerTaken(s, lo, hi, caller, s1, s2);
    CallerRetired(s, lo, hi, caller, s1, s2);
  }

  lemma CallerTaken(s: State, lo: nat, hi: nat, caller: nat, s1: State, s2: State)
    requires RangeTaken(s, lo, hi, caller, s1) && lo <= caller < hi <= |s.procs| && LosesSignals(s1, caller, s2)
    requires s.procs[caller].status == Running && s.procs[caller].fate.InSlot?
    ensures forall h :: h in s.events ==> (h in s2.events <==> !TakesOff(s, ReleaseModel(lo, hi, caller), h))
    ensures forall h :: h in s.events && h in s2.events ==> s2.events[h] == s.events[h]
  {
  }

  lemma CallerRetired(s: State, lo: nat, hi: nat, caller: nat, s1: State, s2: State)
    requires RangeRetired(s, lo, hi, caller, s1) && LosesSignals(s1, caller, s2)
    ensures forall h: nat :: Fresh(s, s2, h) ==> s.nextHandle <= h < s2.nextHandle && PutsOn(s, ReleaseModel(lo, hi, caller), s2.events[h])
    ensures forall e :: PutsOn(s, ReleaseModel(lo, hi, caller), e) ==> Appears(s, s2, e)
    ensures forall h: nat, k: nat :: Fresh(s, s2, h) && Fresh(s, s2, k) && h != k ==> s2.events[h] != s2.events[k]
  {
    hide PutsOn;
    assert forall h: nat :: Fresh(s, s2, h) ==> Fresh(s, s1, h);
    forall e | PutsOn(s, ReleaseModel(lo, hi, caller), e) ensures Appears(s, s2, e) {
      PutIsRetirement(s, lo, hi, caller, e);
      var h :| Fresh(s, s1, h) && s1.events[h] == e;
      assert Fresh(s, s2, h);
    }
  }

  lemma PutIsRetirement(s: State, lo: nat, hi: nat, caller: nat, e: Event)
    ensures PutsOn(s, ReleaseModel(lo, hi, caller), e) ==> e.kind == Retire
  {
  }

  lemma ReleaseQueue(s: State, lo: nat, hi: nat, caller: nat)
    requires Inv(s) && Enabled(s, ReleaseModel(lo, hi, caller))
    ensures QueueChanges(s, ReleaseModel(lo, hi, caller), Release(s, lo, hi, caller, Direct))
  {
    HandlesGivenOut(s);
    RangeIsReleased(s, lo, hi, caller);
    ReleaseKeeps(s, lo, hi, caller);
    var s1 := ReleaseRange(s, lo, hi, caller);
    hide ReleaseRange, QueueChanges, EndSwept;
    if lo <= caller < hi {
      assert ProcessOk(s, caller);
      CallerEnds(s, lo, hi, caller, s1);
    } else {
      RangeIsQueue(s, lo, hi, caller, s1);
    }
  }

  /** What every step does to the event queue. */
  lemma StepQueue(s: State, step: Step)
    requires Inv(s) && Enabled(s, step)
    ensures QueueChanges(s, step, Next(s, step, Direct))
  {
    hide Inv, Fire, StartModel, Finish, Release;
    HandlesGivenOut(s);
    var s' := Next(s, step, Direct);
    match step
    case Dispatch(h) => DispatchQueue(s, h);
    case Spawn(copies) => SpawnQueue(s, copies);
    case Return(p) => ReturnQueue(s, p);
    case ReleaseModel(lo, hi, caller) => ReleaseQueue(s, lo, hi, caller);
    case Interrupt(p) => OneFresh(s, s', Event(Signal, p, s.clock));
    case Grant(p) => OneFresh(s, s', Event(Wakeup, p, s.clock));
    case SetTimer(p, time) => OneFresh(s, s', Event(Timer, p, time));
    case _ =>
  }

  // ---- When a process starts, ends, is kept and is freed ----

  predicate Dispatches(s: State, step: Step, kind: Kind, p: nat) {
    step.Dispatch? && step.h in s.events && s.events[step.h].kind == kind && s.events[step.h].process == p
  }

  predicate Ends(step: Step, p: nat) {
    step == Return(p) || step == Stop(p) || (step.ReleaseModel? && step.lo <= p < step.hi)
  }

  /** The step puts a process in the ring. */
  predicate Retires(s: State, step: Step) {
    step.Dispatch? && step.h in s.events && s.events[step.h].kind == Retire &&
    var q := s.events[step.h].process; q < |s.procs| && s.procs[q].fate.InSlot?
  }

  predicate OnNoList(proc: Process) { proc.holds == 0 && proc.waits == 0 && proc.waiters == 0 && proc.timers == {} }

  /** What a step makes of process p. It starts when its start event is run,
      ends when it returns, is stopped or its model is released, and is then on
      no list; it goes to the ring when its retirement is run, and is freed
      when one is run at a later time. It awaits the timers it has set until
      they fire or it cancels them. */
  ghost predicate Becomes(s: State, step: Step, s': State, p: nat) {
    p < |s.procs| <= |s'.procs| &&
    var a, b := s.procs[p], s'.procs[p];
    && b.status == (if Dispatches(s, step, Start, p) then Running else if a.status == Running && Ends(step, p) then Finished else a.status)
    && (a.status == Running && Ends(step, p) ==> OnNoList(b))
    && b.fate == (if Dispatches(s, step, Retire, p) && a.fate.InSlot? then Kept(s'.clock)
                  else if Retires(s, step) && a.fate.Kept? && a.fate.since < s'.clock then Freed
                  else a.fate)
    && b.timers == (if a.status == Running && Ends(step, p) then {}
                    else if step.SetTimer? && step.p == p then a.timers + {s.nextHandle}
                    else if Dispatches(s, step, Timer, p) || (step.CancelTimer? && step.p == p) then a.timers - {step.h}
                    else a.timers)
  }

  lemma Started(s: State, h: nat)
    requires Inv(s) && h in s.events && s.events[h].kind == Start
    ensures s.events[h].process < |s.procs| && s.procs[s.events[h].process].status == Initialized
  {
    assert EventOk(s, h, NOBODY);
  }

  /** Exactly those in the ring since an earlier time are freed. */
  lemma OlderAreFreed(s: State, p: nat)
    requires RingOk(s) && p < |s.procs| && ProcessOk(s, p)
    ensures FreeBefore(s, Before(s.clock), Direct).procs[p] ==
      if s.procs[p].fate.Kept? && s.procs[p].fate.since < s.clock then FreedProcess(s.procs[p]) else s.procs[p]
  {
    hide FreeBefore;
    FreeBeforeEffect(s, Before(s.clock));
    if s.procs[p].fate.Kept? {
      var i :| 0 <= i < |s.ring| && s.ring[i] == Retired(p, s.procs[p].fate.since);
      assert IsOlder(s.ring[i], Before(s.clock)) <==> s.procs[p].fate.since < s.clock;
    }
  }

  lemma RetiredBecomes(s: State, h: nat, p: nat)
    requires Inv(s) && Enabled(s, Dispatch(h)) && s.events[h].kind == Retire && p < |s.procs|
    ensures Becomes(s, Dispatch(h), Fire(s, h, Direct), p)
  {
    hide FreeBefore, Inv, RingOk;
    var s1 := s.(clock := s.events[h].time, events := s.events - {h});
    DispatchKeeps(s, h);
    InvIsWithin(s1);
    assert EventOk(s, h, NOBODY) by { InvIsWithin(s); }
    OlderAreFreed(s1, p);
  }

  lemma DispatchBecomes(s: State, h: nat, p: nat)
    requires Inv(s) && Enabled(s, Dispatch(h)) && p < |s.procs|
    ensures Becomes(s, Dispatch(h), Fire(s, h, Direct), p)
  {
    hide Inv, RetireProcess;
    if s.events[h].kind == Retire {
      RetiredBecomes(s, h, p);
    } else if s.events[h].kind == Start {
      Started(s, h);
    }
  }

  lemma EndedBecomes(s: State, lo: nat, hi: nat, caller: nat, s1: State, p: nat)
    requires RangeEnded(s, lo, hi, caller, s1) && p < |s.procs| && ProcessOk(s, p) && (lo <= caller < hi ==> Live(s, caller))
    ensures Becomes(s, ReleaseModel(lo, hi, caller), if lo <= caller < hi && caller < |s.procs| then EndSwept(s1, caller) else s1, p)
  {
  }

  lemma ReleaseBecomes(s: State, lo: nat, hi: nat, caller: nat, p: nat)
    requires Inv(s) && Enabled(s, ReleaseModel(lo, hi, caller)) && p < |s.procs|
    ensures Becomes(s, ReleaseModel(lo, hi, caller), Release(s, lo, hi, caller, Direct), p)
  {
    HandlesGivenOut(s);
    RangeIsReleased(s, lo, hi, caller);
    ReleaseKeeps(s, lo, hi, caller);
    assert ProcessOk(s, p) && (caller < |s.procs| ==> ProcessOk(s, caller));
    EndedBecomes(s, lo, hi, caller, ReleaseRange(s, lo, hi, caller), p);
    hide Inv, ReleaseRange, RangeTaken, RangeRetired, Becomes, EndSwept;
  }

  lemma StepBecomes(s: State, step: Step, p: nat)
    requires Inv(s) && Enabled(s, step) && p < |s.procs|
    ensures Becomes(s, step, Next(s, step, Direct), p)
  {
    hide Inv, Fire, StartModel, Finish, Release;
    match step
    case Dispatch(h) => DispatchBecomes(s, h, p);
    case Spawn(copies) =>
      HandlesGivenOut(s);
      StartModelEffect(s, copies);
      assert StartModel(s, copies).procs[p] == StartModel(s, copies).procs[..|s.procs|][p];
    case Return(q) => ReturnBecomes(s, q, p);
    case ReleaseModel(lo, hi, caller) => ReleaseBecomes(s, lo, hi, caller, p);
    case _ =>
  }

  lemma ReturnBecomes(s: State, q: nat, p: nat)
    requires Inv(s) && Live(s, q) && p < |s.procs|
    ensures Becomes(s, Return(q), Finish(s, q, Direct), p)
  {
    FinishKeeps(s, q);
    hide Inv;
  }

  /** Time goes on with the dispatcher alone, and only interrupts are noted. */
  lemma ClockStays(s: State, step: Step)
    requires Inv(s) && Enabled(s, step)
    ensures !step.Dispatch? ==> Next(s, step, Direct).clock == s.clock
    ensures Next(s, step, Direct).signalledAt == if step.Interrupt? then At(s.clock) else s.signalledAt
  {
    HandlesGivenOut(s);
    match step
    case Spawn(copies) => StartModelEffect(s, copies);
    case ReleaseModel(lo, hi, caller) => RangeIsReleased(s, lo, hi, caller);
    case Dispatch(h) =>
      var s1 := s.(clock := s.events[h].time, events := s.events - {h});
      DispatchKeeps(s, h);
      FreeBeforeEffect(s1, Before(s1.clock)) by { InvIsWithin(s1); }
    case _ =>
  }

  // ---- Nobody is forgotten ----

  ghost predicate Pending(s: State, p: nat, kind: Kind) {
    exists h :: h in s.events && s.events[h].process == p && s.events[h].kind == kind
  }

  ghost predicate Awaited(s: State, p: nat)
    requires p < |s.procs|
  {
    forall h :: h in s.procs[p].timers ==> h in s.events && s.events[h].kind == Timer && s.events[h].process == p
  }

  /** A process in its slot that has not run will start or retire; one that
      has ended will retire, unless it was stopped; and its timers are pending. */
  ghost predicate Expected(s: State, p: nat, stopped: bool)
    requires p < |s.procs|
  {
    && (s.procs[p].fate.InSlot? && s.procs[p].status == Initialized ==>
          Pending(s, p, Deferred) || Pending(s, p, Start) || Pending(s, p, Retire))
    && (s.procs[p].fate.InSlot? && s.procs[p].status == Finished && !stopped ==> Pending(s, p, Retire))
    && Awaited(s, p)
  }

  /** An event of these kinds, once pending, is so until it is run or the
      process's model is released. */
  lemma StaysPending(s: State, step: Step, s': State, p: nat, kind: Kind)
    requires QueueChanges(s, step, s') && Enabled(s, step) && !step.ClearQueue? && kind in {Deferred, Start, Retire} && Pending(s, p, kind)
    requires forall q :: 0 <= q < |s.procs| ==> Awaited(s, q)
    ensures Pending(s', p, kind) || Dispatches(s, step, kind, p) || (step.ReleaseModel? && step.lo <= p < step.hi && p < |s.procs| && s.procs[p].fate.InSlot?)
  {
    var h :| h in s.events && s.events[h].process == p && s.events[h].kind == kind;
    if step.CancelTimer? { assert Awaited(s, step.p); }
    assert h in s'.events <==> !TakesOff(s, step, h);
  }

  lemma PutIsPending(s: State, step: Step, s': State, e: Event)
    requires QueueChanges(s, step, s') && PutsOn(s, step, e)
    ensures Pending(s', e.process, e.kind)
  {
    assert Appears(s, s', e);
    var h :| Fresh(s, s', h) && s'.events[h] == e;
  }

  lemma TimersStay(s: State, step: Step, s': State, p: nat)
    requires QueueChanges(s, step, s') && Becomes(s, step, s', p) && Enabled(s, step) && !step.ClearQueue? && !step.SetTimer?
    requires ProcessOk(s, p) && forall q :: 0 <= q < |s.procs| ==> Awaited(s, q)
    ensures Awaited(s', p)
  {
    assert Awaited(s, p);
    if step.CancelTimer? { assert Awaited(s, step.p); }
    forall h | h in s'.procs[p].timers ensures h in s'.events && s'.events[h].kind == Timer && s'.events[h].process == p {
      assert h in s'.events <==> !TakesOff(s, step, h);
    }
  }

  lemma NewTimerStays(s: State, p: nat, time: real, q: nat)
    requires Inv(s) && Enabled(s, SetTimer(p, time)) && q < |s.procs| && Awaited(s, q)
    ensures Awaited(Next(s, SetTimer(p, time), Direct), q)
  {
    HandlesGivenOut(s);
  }

  /** A process there was before the step. */
  lemma StaysExpected(s: State, step: Step, s': State, p: nat, stopped: bool)
    requires QueueChanges(s, step, s') && Becomes(s, step, s', p) && Enabled(s, step) && !step.ClearQueue?
    requires Expected(s, p, stopped) && forall q :: 0 <= q < |s.procs| ==> Awaited(s, q)
    requires Awaited(s', p) && ProcessOk(s, p) && (step.Dispatch? ==> s'.clock == s.events[step.h].time)
    ensures Expected(s', p, stopped || step == Stop(p))
  {
    hide QueueChanges, Awaited, Pending;
    if s'.procs[p].fate.InSlot? && s'.procs[p].status != Running {
      if step == Return(p) {
        PutIsPending(s, step, s', Event(Retire, p, s.clock));
      } else if step.ReleaseModel? && step.lo <= p < step.hi {
        PutIsPending(s, step, s', Event(Retire, p, s.clock));
      } else if s.procs[p].status != Running {
        if Pending(s, p, Retire) { StaysPending(s, step, s', p, Retire); }
        if Pending(s, p, Start) { StaysPending(s, step, s', p, Start); }
        if Pending(s, p, Deferred) {
          StaysPending(s, step, s', p, Deferred);
          if Dispatches(s, step, Deferred, p) { PutIsPending(s, step, s', Event(Start, p, s.events[step.h].time)); }
        }
      }
    }
  }

  lemma NewIsExpected(s: State, copies: nat, p: nat)
    requires Inv(s) && |s.procs| <= p < |s.procs| + copies
    ensures |StartModel(s, copies).procs| == |s.procs| + copies && Expected(StartModel(s, copies), p, false)
  {
    SpawnQueue(s, copies);
    HandlesGivenOut(s);
    StartModelEffect(s, copies);
    hide StartModel, Inv, QueueChanges, Pending;
    PutIsPending(s, Spawn(copies), StartModel(s, copies), Event(Deferred, p, s.clock));
  }

  ghost predicate AllExpected(s: State, stopped: set<nat>) {
    forall p :: 0 <= p < |s.procs| ==> Expected(s, p, p in stopped)
  }

  lemma StepExpected(s: State, step: Step, stopped: set<nat>)
    requires Inv(s) && Enabled(s, step) && !step.ClearQueue? && AllExpected(s, stopped)
    ensures AllExpected(Next(s, step, Direct), stopped + if step.Stop? then {step.p} else {})
  {
    hide Inv, QueueChanges, Becomes, Fire, StartModel, Finish, Release, Enabled, Expected;
    var s' := Next(s, step, Direct);
    StepQueue(s, step);
    forall p | 0 <= p < |s'.procs| ensures Expected(s', p, p in stopped || step == Stop(p)) {
      if p < |s.procs| {
        OldIsExpected(s, step, stopped, p);
      } else {
        OnlySpawnAdds(s, step);
        NewIsExpected(s, step.copies, p);
        MoreStopped(s', p, false, p in stopped);
      }
    }
  }

  lemma OldIsExpected(s: State, step: Step, stopped: set<nat>, p: nat)
    requires Inv(s) && Enabled(s, step) && !step.ClearQueue? && AllExpected(s, stopped) && p < |s.procs|
    ensures p < |Next(s, step, Direct).procs| && Expected(Next(s, step, Direct), p, p in stopped || step == Stop(p))
  {
    var s' := Next(s, step, Direct);
    StepQueue(s, step);
    StepBecomes(s, step, p);
    assert ProcessOk(s, p);
    forall q | 0 <= q < |s.procs| ensures Awaited(s, q) { assert Expected(s, q, q in stopped); }
    if step.Dispatch? { DispatchQueue(s, step.h); }
    hide Inv, QueueChanges, Becomes, Next, Enabled, Awaited, Pending;
    if step.SetTimer? { NewTimerStays(s, step.p, step.time, p); } else { TimersStay(s, step, s', p); }
    OnlySpawnAdds(s, step);
    StaysExpected(s, step, s', p, p in stopped);
  }

  lemma MoreStopped(s: State, p: nat, stopped: bool, more: bool)
    requires p < |s.procs| && Expected(s, p, stopped) && (stopped ==> more)
    ensures Expected(s, p, more)
  {
  }

  lemma OnlySpawnAdds(s: State, step: Step)
    requires Inv(s) && Enabled(s, step)
    ensures |Next(s, step, Direct).procs| == |s.procs| + if step.Spawn? then step.copies else 0
    ensures step.Spawn? ==> Next(s, step, Direct) == StartModel(s, step.copies)
  {
    HandlesGivenOut(s);
    if step.Spawn? { StartModelEffect(s, step.copies); }
  }

  /** The processes that the first n steps stop from outside. */
  function StoppedBy(steps: seq<Step>, n: nat): set<nat>
    requires n <= |steps|
  {
    if n == 0 then {} else StoppedBy(steps, n - 1) + if steps[n - 1].Stop? then {steps[n - 1].p} else {}
  }

  lemma {:induction false} StoppedByIff(steps: seq<Step>, n: nat, p: nat)
    requires n <= |steps|
    ensures p in StoppedBy(steps, n) <==> exists j :: 0 <= j < n && steps[j] == Stop(p)
  {
    if n > 0 { StoppedByIff(steps, n - 1, p); }
  }

  lemma {:induction false} RunExpected(ss: seq<State>, steps: seq<Step>, i: nat)
    requires Run(ss, steps, Direct) && i < |ss| && forall j :: 0 <= j < i ==> !steps[j].ClearQueue?
    ensures AllExpected(ss[i], StoppedBy(steps, i))
  {
    if i > 0 {
      RunExpected(ss, steps, i - 1);
      RunKeeps(ss, steps, i - 1);
      assert Enabled(ss[i - 1], steps[i - 1]) && ss[i] == Next(ss[i - 1], steps[i - 1], Direct);
      StepExpected(ss[i - 1], steps[i - 1], StoppedBy(steps, i - 1));
    }
  }

  /** An event that is to start or retire process p, now. */
  ghost predicate StartsNow(s: State, p: nat, h: nat) {
    h in s.events && StartsIt(s.events[h], p) && s.events[h].time == s.clock
  }

  ghost predicate RetiresNow(s: State, p: nat, h: nat) {
    h in s.events && s.events[h] == Event(Retire, p, s.clock)
  }

  /** In every run in which nobody clears the event queue, a process in its
      slot that has not run has exactly one pending start, at the present time,
      or a pending retirement and no start. */
  lemma EachIsStarted(ss: seq<State>, steps: seq<Step>, i: nat, p: nat)
    requires Run(ss, steps, Direct) && i < |ss| && p < |ss[i].procs| && forall j :: 0 <= j < i ==> !steps[j].ClearQueue?
    requires ss[i].procs[p].fate.InSlot? && ss[i].procs[p].status == Initialized
    ensures (exists h :: StartsNow(ss[i], p, h)) != (exists h :: RetiresNow(ss[i], p, h))
    ensures forall h, k :: StartsNow(ss[i], p, h) && StartsNow(ss[i], p, k) ==> h == k
  {
    var s := ss[i];
    RunKeeps(ss, steps, i);
    RunExpected(ss, steps, i);
    assert Expected(s, p, p in StoppedBy(steps, i));
    forall h | h in s.events && s.events[h].process == p
      ensures s.events[h].kind in {Deferred, Start} ==> StartsNow(s, p, h)
      ensures s.events[h].kind == Retire ==> RetiresNow(s, p, h)
    {
      assert EventOk(s, h, NOBODY);
    }
    forall h, k | h in s.events && k in s.events ensures StartOnce(s, h, k) {}
  }

  /** And one that has ended and is in its slot has a pending retirement, at
      the present time, unless it was stopped from outside. */
  lemma EachIsRetired(ss: seq<State>, steps: seq<Step>, i: nat, p: nat)
    requires Run(ss, steps, Direct) && i < |ss| && p < |ss[i].procs| && forall j :: 0 <= j < i ==> !steps[j].ClearQueue?
    requires ss[i].procs[p].fate.InSlot? && ss[i].procs[p].status == Finished
    ensures (exists j :: 0 <= j < i && steps[j] == Stop(p)) || exists h :: RetiresNow(ss[i], p, h)
  {
    var s := ss[i];
    RunKeeps(ss, steps, i);
    RunExpected(ss, steps, i);
    StoppedByIff(steps, i, p);
    assert Expected(s, p, p in StoppedBy(steps, i));
    if p !in StoppedBy(steps, i) {
      var h :| h in s.events && s.events[h].process == p && s.events[h].kind == Retire;
      assert EventOk(s, h, NOBODY);
      assert RetiresNow(s, p, h);
    }
  }

  /** In every run, what each step makes of each process. */
  lemma RunBecomes(ss: seq<State>, steps: seq<Step>, i: nat, p: nat)
    requires Run(ss, steps, Direct) && i < |steps| && p < |ss[i].procs|
    ensures Becomes(ss[i], steps[i], ss[i + 1], p)
  {
    RunKeeps(ss, steps, i);
    StepBecomes(ss[i], steps[i], p);
  }

  /** And what it makes of the event queue, of the time, and of the time of
      the latest signal. */
  lemma RunQueue(ss: seq<State>, steps: seq<Step>, i: nat)
    requires Run(ss, steps, Direct) && i < |steps|
    ensures QueueChanges(ss[i], steps[i], ss[i + 1])
    ensures ss[i + 1].clock == if steps[i].Dispatch? then ss[i].events[steps[i].h].time else ss[i].clock
    ensures ss[i + 1].signalledAt == if steps[i].Interrupt? then At(ss[i].clock) else ss[i].signalledAt
  {
    RunKeeps(ss, steps, i);
    StepQueue(ss[i], steps[i]);
    if steps[i].Dispatch? { DispatchQueue(ss[i], steps[i].h); }
    ClockStays(ss[i], steps[i]);
  }

  /** A retirement at time t leaves nothing older in the ring: the others there
      of time t stay, in order, and the process retired comes last. */
  lemma RetirementClearsRing(ss: seq<State>, steps: seq<Step>, i: nat)
    requires Run(ss, steps, Direct) && i < |steps| && Retires(ss[i], steps[i])
    ensures var s, s' := ss[i], ss[i + 1]; var e := s.events[steps[i].h];
      && |s'.ring| > 0 && s'.ring[|s'.ring| - 1] == Retired(e.process, e.time)
      && (forall j :: 0 <= j < |s'.ring| ==> s'.ring[j].time == e.time)
      && (exists k :: 0 <= k <= |s.ring| && s'.ring[..|s'.ring| - 1] == s.ring[k..] && forall j :: 0 <= j < k ==> s.ring[j].time < e.time)
  {
    var s := ss[i];
    var e := s.events[steps[i].h];
    var s1 := s.(clock := e.time, events := s.events - {steps[i].h});
    RunKeeps(ss, steps, i);
    DispatchKeeps(s, steps[i].h);
    assert EventOk(s, steps[i].h, NOBODY);
    hide FreeBefore, Inv;
    InvIsWithin(s1);
    FreeBeforeEffect(s1, Before(s1.clock));
    FreeBeforeKeeps(s1, NOBODY);
    var s' := ss[i + 1];
    assert s'.ring[..|s'.ring| - 1] == s1.ring[Expired(s1.ring, Before(s1.clock))..];
  }
}
