/** The bookkeeping of spawned processes that `trial.c` keeps in place: the
    slots of the models, the ring, and when a signal was last scheduled. */
module SpawnedProcesses {
  import opened RetiredRing
  import opened Retirement
  import opened SpawnedLives

  /** Every event has a handle that has been given out. */
  ghost predicate HandlesGiven(events: map<nat, Event>, nextHandle: nat) {
    forall h :: h in events ==> h < nextHandle
  }

  /** The structs from index i on are freed one after the other. */
  lemma FreeFrom(s: State, ps: seq<nat>, i: nat)
    requires i <= |ps|
    ensures i == 0 ==> FreeAll(s, ps[i..], Direct) == FreeAll(s, ps, Direct)
    ensures i == |ps| ==> FreeAll(s, ps[i..], Direct) == s
    ensures i < |ps| ==> FreeAll(s, ps[i..], Direct) == FreeAll(if ps[i] < |s.procs| then Free(s, ps[i], Direct) else s, ps[i + 1..], Direct)
  {
    if i == 0 { assert ps[0..] == ps; }
    if i < |ps| { assert ps[i..][1..] == ps[i + 1..]; }
  }

  class Trial {
    var clock: real
    var events: map<nat, Event>
    var nextHandle: nat
    var procs: seq<Process>
    const ring: Ring
    var signalledAt: Moment

    ghost predicate Valid()
      reads this, ring
    {
      ring.Valid() && HandlesGiven(events, nextHandle)
    }

    ghost function State(): State
      requires Valid()
      reads this, ring, ring.entries
    {
      Retirement.State(clock, events, nextHandle, procs, ring.Contents(), signalledAt)
    }

    constructor ()
      ensures Valid() && fresh(ring) && fresh(ring.entries) && State() == Initial
    {
      clock, events, nextHandle, procs, signalledAt := 0.0, map[], 0, [], Never;
      ring := new Ring();
    }

    method ScheduleNow(kind: Kind, p: nat)
      requires Valid()
      modifies this
      ensures Valid() && State() == Schedule(old(State()), kind, p)
    {
      events := events[nextHandle := Event(kind, p, clock)];
      nextHandle := nextHandle + 1;
    }

    /** cpy_process_interrupt and cpy_process_resume */
    method Interrupt(p: nat)
      requires Valid() && MaySignal(State(), p)
      modifies this
      ensures Valid() && State() == Next(old(State()), Step.Interrupt(p), Direct)
    {
      signalledAt := At(clock);
      ScheduleNow(Signal, p);
    }

    method Cancel(p: nat, kinds: set<Kind>)
      requires Valid()
      modifies this
      ensures Valid() && State() == Sweep(old(State()), p, kinds)
    {
      events := map h | h in events && !(events[h].process == p && events[h].kind in kinds) :: events[h];
    }

    /** The engine ends the process: its lists, its timers and the signals to it go. */
    method EndBySweeping(p: nat)
      requires Valid() && p < |procs|
      modifies this
      ensures Valid() && State() == EndSwept(old(State()), p)
    {
      procs := procs[p := procs[p].(status := Finished, holds := 0, waits := 0, waiters := 0, timers := {})];
      Cancel(p, {Signal, Timer});
    }

    /** exits_without_sweep, and one of the two exits. */
    method EndProcess(p: nat)
      requires Valid() && p < |procs|
      modifies this
      ensures Valid() && State() == End(old(State()), p, Direct)
    {
      var proc := procs[p];
      var direct := proc.holds == 0 && proc.waits == 0 && proc.timers == {} && proc.waiters == 0
                    && (signalledAt == Never || signalledAt.time < clock);
      if direct {
        procs := procs[p := proc.(status := Finished)];
      } else {
        EndBySweeping(p);
      }
    }

    /** run_spawned_process, after the callback. */
    method Return(p: nat)
      requires Valid() && p < |procs|
      modifies this
      ensures Valid() && State() == Finish(old(State()), p, Direct)
    {
      ScheduleNow(Retire, p);
      EndProcess(p);
    }

    method FreeStruct(p: nat, mode: Mode)
      requires Valid() && p < |procs|
      modifies this
      ensures Valid() && State() == Free(old(State()), p, mode)
    {
      if mode == Swept { Cancel(p, EVERY_KIND); }
      procs := procs[p := FreedProcess(procs[p])];
    }

    method FreeThese(freed: seq<nat>)
      requires Valid()
      modifies this
      ensures Valid() && State() == FreeAll(old(State()), freed, Direct)
    {
      hide HandlesGiven, Free, FreeAll;
      ghost var s := State();
      var i := 0;
      FreeFrom(s, freed, 0);
      while i < |freed|
        invariant Valid() && i <= |freed| && FreeAll(State(), freed[i..], Direct) == FreeAll(s, freed, Direct)
      {
        FreeFrom(State(), freed, i);
        if freed[i] < |procs| { FreeStruct(freed[i], Direct); }
        i := i + 1;
      }
      FreeFrom(State(), freed, i);
    }

    /** free_retired_before */
    method FreeRetiredBefore(now: Deadline)
      requires Valid()
      modifies this, ring
      ensures Valid() && ring.entries == old(ring.entries) && State() == FreeBefore(old(State()), now, Direct)
    {
      var freed := ring.FreeBefore(now);
      FreeThese(freed);
    }

    /** retire_spawned_process */
    method RetireSpawned(p: nat)
      requires Valid()
      modifies this, ring, ring.entries
      ensures Valid() && (ring.entries == old(ring.entries) || fresh(ring.entries))
      ensures State() == RetireProcess(old(State()), p, Direct)
    {
      hide FreeBefore;
      if p >= |procs| || procs[p].fate != InSlot || procs[p].status == Running { return; }
      FreeRetiredBefore(Before(clock));
      ring.Keep(Retired(p, clock));
      procs := procs[p := procs[p].(fate := Kept(clock))];
    }

    /** A model is started: its processes come last, none has run, and each has
        one event that starts it now, under a new handle. */
    method Spawn(copies: nat)
      requires Valid()
      modifies this
      ensures Valid() && State() == StartModel(old(State()), copies)
      ensures clock == old(clock) && ring.Contents() == old(ring.Contents()) && signalledAt == old(signalledAt)
      ensures |procs| == |old(procs)| + copies && procs[..|old(procs)|] == old(procs)
      ensures forall p :: |old(procs)| <= p < |procs| ==> procs[p] == Process(Initialized, InSlot, 0, 0, 0, {}, 0)
      ensures nextHandle == old(nextHandle) + copies
      ensures forall h :: h in events <==> h in old(events) || old(nextHandle) <= h < nextHandle
      ensures forall h :: h in old(events) ==> events[h] == old(events)[h]
      ensures forall h :: old(nextHandle) <= h < nextHandle ==> events[h] == Event(Deferred, |old(procs)| + h - old(nextHandle), clock)
    {
      ghost var s := State();
      StartModelEffect(s, copies);
      var i := 0;
      while i < copies
        invariant Valid() && i <= copies && StartModel(State(), copies - i) == StartModel(s, copies)
      {
        procs := procs + [Spawned];
        ScheduleNow(Deferred, |procs| - 1);
        i := i + 1;
      }
    }

    /** cpy_model_release; the caller is |procs| when the dispatcher calls. */
    method ReleaseModel(lo: nat, hi: nat, caller: nat)
      requires Valid() && lo <= hi <= |procs|
      modifies this
      ensures Valid() && State() == Release(old(State()), lo, hi, caller, Direct)
    {
      ghost var s := State();
      var i := lo;
      while i < hi
        invariant Valid() && lo <= i <= hi <= |procs| && |procs| == |s.procs|
        invariant ReleaseRange(State(), i, hi, caller) == ReleaseRange(s, lo, hi, caller)
      {
        ReleaseSlot(i, caller);
        i := i + 1;
      }
      if lo <= caller < hi && procs[caller].fate == InSlot { EndProcess(caller); }
    }

    method ReleaseSlot(p: nat, caller: nat)
      requires Valid() && p < |procs|
      modifies this
      ensures Valid() && State() == ReleaseProcess(old(State()), p, caller)
    {
      if procs[p].fate != InSlot { return; }
      var status := procs[p].status;
      Cancel(p, {Deferred});
      if p != caller {
        match status
        case Initialized => Cancel(p, EVERY_KIND);
        case Running => EndBySweeping(p);
        case Finished =>
      }
      ScheduleNow(Retire, p);
    }

    /** The end of the trial: free_spawned_nodes and release_retired. */
    method EndNormally()
      requires Valid()
      modifies this, ring
      ensures Valid() && State() == EndTrial(old(State()), Direct)
    {
      ghost var s := State();
      var i := 0;
      while i < |procs|
        modifies this
        invariant Valid() && i <= |procs| && FreeSlots(State(), i) == FreeSlots(s, 0)
        decreases |procs| - i
      {
        if procs[i].fate == InSlot {
          Cancel(i, {Deferred});
          if procs[i].status == Running { EndBySweeping(i); }
          FreeStruct(i, Swept);
        }
        i := i + 1;
      }
      FreeRetiredBefore(Forever);
    }

    /** The dispatcher runs an event that is due. */
    method Dispatch(h: nat)
      requires Valid() && h in events
      modifies this, ring, ring.entries
      ensures Valid() && (ring.entries == old(ring.entries) || fresh(ring.entries))
      ensures State() == Fire(old(State()), h, Direct)
    {
      var e := events[h];
      clock := e.time;
      events := events - {h};
      if e.process >= |procs| { return; }
      var proc := procs[e.process];
      match e.kind
      case Deferred => ScheduleNow(Start, e.process);
      case Start => if proc.status == Initialized { procs := procs[e.process := proc.(status := Running)]; }
      case Timer => procs := procs[e.process := proc.(timers := proc.timers - {h})];
      case Retire => RetireSpawned(e.process);
      case Signal =>
      case Wakeup =>
    }
  }
}
