/** The life of spawned processes in `trial.c`, as a state machine over the
    clock, the event queue and the process structs, and why a process may end
    without the engine's sweeps and its struct be freed late. */
module Retirement {
  import opened RetiredRing

  // ---- State ----

  /** `Deferred` starts a process through `deferred_process_start`, `Start` is
      the engine's own start event. `Signal` is an interrupt, resume or preempt,
      which a process exit sweeps for; `Wakeup` is any other wakeup. */
  datatype Kind = Deferred | Start | Signal | Wakeup | Timer | Retire

  datatype Event = Event(kind: Kind, process: nat, time: real)

  datatype Status = Initialized | Running | Finished

  /** Where a struct is: in its model's slot, in the ring since a time, or freed. */
  datatype Fate = InSlot | Kept(since: real) | Freed

  /** `holds`, `waits` and `waiters` are the lengths of the engine's lists;
      `timers` are the events on its list of awaits. */
  datatype Process = Process(status: Status, fate: Fate, holds: nat, waits: nat, waiters: nat, timers: set<nat>, destroyed: nat)

  datatype Moment = Never | At(time: real)

  /** Whether exits and frees sweep the event queue as the engine's own do, or
      skip that where `trial.c` does. */
  datatype Mode = Swept | Direct

  /** Events are named by handles, given out in order. */
  datatype State = State(clock: real, events: map<nat, Event>, nextHandle: nat, procs: seq<Process>,
                         ring: seq<Retired>, signalledAt: Moment)

  // ---- What the code does ----

  function Schedule(s: State, kind: Kind, p: nat): State {
    s.(events := s.events[s.nextHandle := Event(kind, p, s.clock)], nextHandle := s.nextHandle + 1)
  }

  function SetProcess(s: State, p: nat, proc: Process): (s': State)
    requires p < |s.procs|
    ensures |s'.procs| == |s.procs|
  {
    s.(procs := s.procs[p := proc])
  }

  /** Cancel the events of these kinds that name p. */
  function Sweep(s: State, p: nat, kinds: set<Kind>): State {
    s.(events := map h | h in s.events && !(s.events[h].process == p && s.events[h].kind in kinds) :: s.events[h])
  }

  const EVERY_KIND: set<Kind> := {Deferred, Start, Signal, Wakeup, Timer, Retire}

  /** cmb_process_exit and cmb_process_stop: off every list, and the sweeps. */
  function EndSwept(s: State, p: nat): (s': State)
    requires p < |s.procs|
    ensures |s'.procs| == |s.procs|
  {
    Sweep(SetProcess(s, p, s.procs[p].(status := Finished, holds := 0, waits := 0, waiters := 0, timers := {})), p, {Signal, Timer})
  }

  /** cmi_coroutine_exit: the process ends and nothing else happens. */
  function EndDirect(s: State, p: nat): (s': State)
    requires p < |s.procs|
    ensures |s'.procs| == |s.procs|
  {
    SetProcess(s, p, s.procs[p].(status := Finished))
  }

  predicate ExitsWithoutSweep(s: State, p: nat)
    requires p < |s.procs|
  {
    var proc := s.procs[p];
    && proc.holds == 0 && proc.waits == 0 && proc.timers == {} && proc.waiters == 0
    && (match s.signalledAt case Never => true case At(t) => t < s.clock)
  }

  function End(s: State, p: nat, mode: Mode): (s': State)
    requires p < |s.procs|
    ensures |s'.procs| == |s.procs|
  {
    if mode.Direct? && ExitsWithoutSweep(s, p) then EndDirect(s, p) else EndSwept(s, p)
  }

  function FreedProcess(proc: Process): Process { proc.(fate := Freed, destroyed := proc.destroyed + 1) }

  /** cmb_process_destroy, which looks for events that name the struct, and
      free_retired, which does not. */
  function Free(s: State, p: nat, mode: Mode): (s': State)
    requires p < |s.procs|
    ensures |s'.procs| == |s.procs|
  {
    SetProcess(if mode.Direct? then s else Sweep(s, p, EVERY_KIND), p, FreedProcess(s.procs[p]))
  }

  function FreeAll(s: State, ps: seq<nat>, mode: Mode): (s': State)
    ensures |s'.procs| == |s.procs| && s'.clock == s.clock
    decreases |ps|
  {
    if ps == [] then s
    else FreeAll(if ps[0] < |s.procs| then Free(s, ps[0], mode) else s, ps[1..], mode)
  }

  /** free_retired_before */
  function FreeBefore(s: State, now: Deadline, mode: Mode): (s': State)
    ensures |s'.procs| == |s.procs| && s'.clock == s.clock
  {
    var k := Expired(s.ring, now);
    FreeAll(s.(ring := s.ring[k..]), Processes(s.ring[..k]), mode)
  }

  /** retire_spawned_process */
  function RetireProcess(s: State, p: nat, mode: Mode): (s': State)
    ensures |s'.procs| == |s.procs|
  {
    if p >= |s.procs| || !s.procs[p].fate.InSlot? || s.procs[p].status == Running then s
    else
      var s1 := FreeBefore(s, Before(s.clock), mode);
      SetProcess(s1, p, s1.procs[p].(fate := Kept(s.clock))).(ring := s1.ring + [Retired(p, s.clock)])
  }

  const Spawned := Process(Initialized, InSlot, 0, 0, 0, {}, 0)

  /** cpy_model_start, for the copies of all its processes. */
  function StartModel(s: State, copies: nat): State
    decreases copies
  {
    if copies == 0 then s
    else StartModel(Schedule(s.(procs := s.procs + [Spawned]), Deferred, |s.procs|), copies - 1)
  }

  /** run_spawned_process, once the model's function has returned. */
  function Finish(s: State, p: nat, mode: Mode): (s': State)
    requires p < |s.procs|
    ensures |s'.procs| == |s.procs|
  {
    End(Schedule(s, Retire, p), p, mode)
  }

  /** One process of a released model: its start is cancelled, it is stopped
      unless it is the caller, and its retirement is scheduled. */
  function ReleaseProcess(s: State, p: nat, caller: nat): (s': State)
    requires p < |s.procs|
    ensures |s'.procs| == |s.procs|
  {
    if !s.procs[p].fate.InSlot? then s
    else
      var s1 := Sweep(s, p, {Deferred});
      var s2 := if p == caller then s1
                else match s.procs[p].status
                     case Initialized => Sweep(s1, p, EVERY_KIND)
                     case Running => EndSwept(s1, p)
                     case Finished => s1;
      Schedule(s2, Retire, p)
  }

  /** cpy_model_release of the model with the processes lo up to hi; the caller
      ends if it is one of them. |procs| stands for no caller. */
  function ReleaseRange(s: State, lo: nat, hi: nat, caller: nat): (s': State)
    requires lo <= hi <= |s.procs|
    ensures |s'.procs| == |s.procs|
    decreases hi - lo
  {
    if lo == hi then s else ReleaseRange(ReleaseProcess(s, lo, caller), lo + 1, hi, caller)
  }

  function Release(s: State, lo: nat, hi: nat, caller: nat, mode: Mode): (s': State)
    requires lo <= hi <= |s.procs|
    ensures |s'.procs| == |s.procs|
  {
    var s1 := ReleaseRange(s, lo, hi, caller);
    if lo <= caller < hi && s1.procs[caller].fate.InSlot? then End(s1, caller, mode) else s1
  }

  /** free_spawned_nodes at a normal end: the slots from p on. */
  function FreeSlots(s: State, p: nat): (s': State)
    requires p <= |s.procs|
    ensures |s'.procs| == |s.procs|
    decreases |s.procs| - p
  {
    if p == |s.procs| then s
    else if !s.procs[p].fate.InSlot? then FreeSlots(s, p + 1)
    else
      var s1 := Sweep(s, p, {Deferred});
      var s2 := if s1.procs[p].status == Running then EndSwept(s1, p) else s1;
      FreeSlots(Free(s2, p, Swept), p + 1)
  }

  function EndTrial(s: State, mode: Mode): (s': State)
    ensures |s'.procs| == |s.procs|
  {
    FreeBefore(FreeSlots(s, 0), Forever, mode)
  }

  /** The dispatcher takes an event off the queue and runs it. */
  function Fire(s: State, h: nat, mode: Mode): State
    requires h in s.events
  {
    var e := s.events[h];
    var s1 := s.(clock := e.time, events := s.events - {h});
    if e.process >= |s.procs| then s1
    else
      var proc := s.procs[e.process];
      match e.kind
      case Deferred => Schedule(s1, Start, e.process)
      case Start => if proc.status == Initialized then SetProcess(s1, e.process, proc.(status := Running)) else s1
      case Timer => SetProcess(s1, e.process, proc.(timers := proc.timers - {h}))
      case Retire => RetireProcess(s1, e.process, mode)
      case _ => s1
  }

  // ---- Steps ----

  datatype Step =
    | Dispatch(h: nat)
    | Spawn(copies: nat)
    | Interrupt(p: nat)      // or resume
    | Grant(p: nat)          // any wakeup of another kind
    | SetTimer(p: nat, time: real)
    | CancelTimer(p: nat, h: nat)
    | Work(p: nat, holds: nat, waits: nat, waiters: nat)
    | Return(p: nat)
    | Stop(p: nat)
    | ReleaseModel(lo: nat, hi: nat, caller: nat)
    | ClearQueue

  predicate Live(s: State, p: nat) {
    p < |s.procs| && s.procs[p].status == Running
  }

  /** Model code and the engine never signal or wake a process at a time later
      than its retirement. */
  predicate MaySignal(s: State, p: nat) {
    p < |s.procs| && match s.procs[p].fate
                     case InSlot => true
                     case Kept(since) => since == s.clock
                     case Freed => false
  }

  predicate Enabled(s: State, step: Step) {
    match step
    case Dispatch(h) => h in s.events && forall k :: k in s.events ==> s.events[h].time <= s.events[k].time
    case Spawn(_) => true
    case Interrupt(p) => MaySignal(s, p)
    case Grant(p) => MaySignal(s, p)
    case SetTimer(p, time) => Live(s, p) && s.clock <= time
    case CancelTimer(p, h) => Live(s, p) && h in s.procs[p].timers
    case Work(p, _, _, _) => Live(s, p)
    case Return(p) => Live(s, p)
    case Stop(p) => Live(s, p)
    case ReleaseModel(lo, hi, caller) => lo <= hi <= |s.procs| && (caller == |s.procs| || Live(s, caller))
    case ClearQueue => true
  }

  function Next(s: State, step: Step, mode: Mode): State
    requires Enabled(s, step)
  {
    match step
    case Dispatch(h) => Fire(s, h, mode)
    case Spawn(copies) => StartModel(s, copies)
    case Interrupt(p) => Schedule(s.(signalledAt := At(s.clock)), Signal, p)
    case Grant(p) => Schedule(s, Wakeup, p)
    case SetTimer(p, time) =>
      SetProcess(s.(events := s.events[s.nextHandle := Event(Timer, p, time)], nextHandle := s.nextHandle + 1),
                 p, s.procs[p].(timers := s.procs[p].timers + {s.nextHandle}))
    case CancelTimer(p, h) =>
      SetProcess(s.(events := s.events - {h}), p, s.procs[p].(timers := s.procs[p].timers - {h}))
    case Work(p, holds, waits, waiters) =>
      SetProcess(s, p, s.procs[p].(holds := holds, waits := waits, waiters := waiters))
    case Return(p) => Finish(s, p, mode)
    case Stop(p) => EndSwept(s, p)
    case ReleaseModel(lo, hi, caller) => Release(s, lo, hi, caller, mode)
    case ClearQueue => s.(events := map[])
  }

  const Initial := State(0.0, map[], 0, [], [], Never)

  // ---- The invariant ----

  predicate StartsIt(e: Event, p: nat) { e.process == p && (e.kind == Deferred || e.kind == Start) }

  /** No process; otherwise the one that has its retirement scheduled before
      it ends, within one step. */
  const NOBODY: int := -1

  /** Everything but a timer is due now; a timer's process runs and awaits it;
      a signal was noted; what is to start has not started, what is to retire
      has ended; and no event names a struct retired at an earlier time. */
  ghost predicate EventOk(s: State, h: nat, ending: int)
    requires h in s.events
  {
    var e := s.events[h];
    && h < s.nextHandle && e.process < |s.procs| && s.clock <= e.time
    && var proc := s.procs[e.process];
    && (e.kind != Timer ==> e.time == s.clock)
    && (e.kind == Timer ==> proc.status == Running && h in proc.timers)
    && (e.kind == Signal ==> s.signalledAt == At(s.clock))
    && (e.kind == Deferred || e.kind == Start ==> proc.status == Initialized && proc.fate.InSlot?)
    && (e.kind == Retire ==> proc.status != Running || e.process == ending)
    && (match proc.fate case InSlot => true case Kept(since) => since == s.clock case Freed => false)
  }

  /** A process is not started twice, and not started if it is to retire. */
  ghost predicate StartOnce(s: State, h: nat, k: nat)
    requires h in s.events && k in s.events
  {
    h != k && StartsIt(s.events[h], s.events[k].process) ==> s.events[k].kind !in {Deferred, Start, Retire}
  }

  ghost predicate ProcessOk(s: State, p: nat)
    requires p < |s.procs|
  {
    var proc := s.procs[p];
    && (!proc.fate.InSlot? ==> proc.status != Running)
    && (proc.status != Running ==> proc.timers == {})
    && proc.destroyed == (if proc.fate.Freed? then 1 else 0)
    && (proc.fate.Kept? ==> Retired(p, proc.fate.since) in s.ring)
  }

  ghost predicate RingOk(s: State) {
    && InOrder(s.ring)
    && (forall i :: 0 <= i < |s.ring| ==>
          s.ring[i].time <= s.clock && s.ring[i].process < |s.procs| && s.procs[s.ring[i].process].fate == Kept(s.ring[i].time))
    && (forall i, j :: 0 <= i < j < |s.ring| ==> s.ring[i].process != s.ring[j].process)
  }

  ghost predicate Events(s: State, ending: int) { forall h :: h in s.events ==> EventOk(s, h, ending) }
  ghost predicate Starts(s: State) { forall h, k :: h in s.events && k in s.events ==> StartOnce(s, h, k) }
  ghost predicate Procs(s: State) { forall p :: 0 <= p < |s.procs| ==> ProcessOk(s, p) }

  ghost predicate Within(s: State, ending: int) {
    Events(s, ending) && Starts(s) && Procs(s) && RingOk(s) && (s.signalledAt.At? ==> s.signalledAt.time <= s.clock)
  }

  ghost predicate Inv(s: State) { Within(s, NOBODY) }

  // ---- Events come and go ----

  lemma ScheduleKeeps(s: State, kind: Kind, p: nat, ending: int)
    requires Within(s, ending) && p < |s.procs| && kind != Timer
    requires kind == Signal ==> s.signalledAt == At(s.clock)
    requires kind == Deferred || kind == Start ==> s.procs[p].status == Initialized && s.procs[p].fate.InSlot?
    requires kind == Retire ==> s.procs[p].status != Running || p == ending
    requires MaySignal(s, p)
    requires kind in {Deferred, Start, Retire} ==> forall h :: h in s.events ==> !StartsIt(s.events[h], p)
    requires kind in {Deferred, Start} ==> forall h :: h in s.events && s.events[h].process == p ==> s.events[h].kind != Retire
    ensures Within(Schedule(s, kind, p), ending)
  {
    var s' := Schedule(s, kind, p);
    assert forall h :: h in s.events ==> EventOk(s, h, ending);
    forall h | h in s'.events ensures EventOk(s', h, ending) {}
    forall h, k | h in s'.events && k in s'.events ensures StartOnce(s', h, k) {
      if h in s.events && k in s.events { assert StartOnce(s, h, k); }
    }
    forall q | 0 <= q < |s'.procs| ensures ProcessOk(s', q) { assert ProcessOk(s, q); }
  }

  ghost predicate FewerEvents(s: State, s': State) {
    s' == s.(events := s'.events) && forall h :: h in s'.events ==> h in s.events && s'.events[h] == s.events[h]
  }

  lemma FewerEventsKeep(s: State, s': State, ending: int)
    requires Within(s, ending) && FewerEvents(s, s')
    ensures Within(s', ending)
  {
    forall h | h in s'.events ensures EventOk(s', h, ending) { assert EventOk(s, h, ending); }
    forall h, k | h in s'.events && k in s'.events ensures StartOnce(s', h, k) { assert StartOnce(s, h, k); }
    forall q | 0 <= q < |s'.procs| ensures ProcessOk(s', q) { assert ProcessOk(s, q); }
  }

  // ---- Ending ----

  /** What the engine's exit sweeps for, an exit without them has not: for a
      process on no list and no signal at this time, both exits are the same. */
  lemma ExitSkipsNothing(s: State, p: nat, ending: int)
    requires Within(s, ending) && p < |s.procs| && ExitsWithoutSweep(s, p)
    ensures EndSwept(s, p) == EndDirect(s, p)
  {
    var s' := EndSwept(s, p);
    forall h | h in s.events ensures h in s'.events { assert EventOk(s, h, ending); }
    assert s'.events == s.events;
  }

  lemma EndKeeps(s: State, p: nat, ending: int)
    requires Within(s, ending) && Live(s, p)
    ensures Within(EndSwept(s, p), if ending == p then NOBODY else ending) && End(s, p, Direct) == End(s, p, Swept)
    ensures EndSwept(s, p).procs[p].status == Finished && s.procs[p].fate.InSlot?
  {
    var s' := EndSwept(s, p);
    if ExitsWithoutSweep(s, p) { ExitSkipsNothing(s, p, ending); }
    assert ProcessOk(s, p);
    forall h | h in s'.events ensures EventOk(s', h, if ending == p then NOBODY else ending) { assert EventOk(s, h, ending); }
    forall h, k | h in s'.events && k in s'.events ensures StartOnce(s', h, k) { assert StartOnce(s, h, k); }
    forall q | 0 <= q < |s'.procs| ensures ProcessOk(s', q) { assert ProcessOk(s, q); }
  }

  lemma NoStartNames(s: State, p: nat, ending: int)
    requires Within(s, ending) && p < |s.procs| && (s.procs[p].status != Initialized || !s.procs[p].fate.InSlot?)
    ensures forall h :: h in s.events ==> !StartsIt(s.events[h], p)
  {
    forall h | h in s.events ensures !StartsIt(s.events[h], p) { assert EventOk(s, h, ending); }
  }

  lemma EndingAllowed(s: State, p: nat)
    requires Inv(s)
    ensures Within(s, p)
  {
    forall h | h in s.events ensures EventOk(s, h, p) { assert EventOk(s, h, NOBODY); }
  }

  lemma FinishKeeps(s: State, p: nat)
    requires Inv(s) && Live(s, p)
    ensures Inv(Finish(s, p, Direct)) && Finish(s, p, Direct) == Finish(s, p, Swept)
  {
    hide EndSwept;
    assert ProcessOk(s, p);
    NoStartNames(s, p, NOBODY);
    EndingAllowed(s, p);
    ScheduleKeeps(s, Retire, p, p);
    EndKeeps(Schedule(s, Retire, p), p, p);
  }

  // ---- Freeing ----

  lemma {:induction false} FreeAllEffect(s: State, ps: seq<nat>)
    requires forall i, j :: 0 <= i < j < |ps| ==> ps[i] != ps[j]
    requires forall i :: 0 <= i < |ps| ==> ps[i] < |s.procs|
    ensures var s' := FreeAll(s, ps, Direct);
      && s' == s.(procs := s'.procs)
      && forall q :: 0 <= q < |s.procs| ==> s'.procs[q] == if q in ps then FreedProcess(s.procs[q]) else s.procs[q]
    decreases |ps|
  {
    if ps != [] {
      FreeAllEffect(Free(s, ps[0], Direct), ps[1..]);
      assert forall q: nat :: q in ps <==> q == ps[0] || q in ps[1..];
      assert forall i :: 0 <= i < |ps[1..]| ==> ps[1..][i] == ps[i + 1];
    }
  }

  lemma FreeBeforeEffect(s: State, now: Deadline)
    requires RingOk(s)
    ensures var s' := FreeBefore(s, now, Direct); var k := Expired(s.ring, now);
      && s' == s.(procs := s'.procs, ring := s.ring[k..])
      && (forall i :: 0 <= i < |s.ring| ==> (i < k <==> IsOlder(s.ring[i], now)))
      && (forall q :: 0 <= q < |s.procs| ==>
            s'.procs[q] == s.procs[q] || (s'.procs[q] == FreedProcess(s.procs[q]) && s.procs[q].fate.Kept? && IsOlder(Retired(q, s.procs[q].fate.since), now)))
      && (forall i :: 0 <= i < k ==> s'.procs[s.ring[i].process] == FreedProcess(s.procs[s.ring[i].process]))
      && (forall i :: k <= i < |s.ring| ==> s'.procs[s.ring[i].process] == s.procs[s.ring[i].process])
  {
    var k := Expired(s.ring, now);
    var ps := Processes(s.ring[..k]);
    ExpiredAreTheOlder(s.ring, now);
    FreeAllEffect(s.(ring := s.ring[k..]), ps);
    forall i | 0 <= i < k ensures s.ring[i].process in ps { assert ps[i] == s.ring[i].process; }
  }

  /** Freeing the processes retired earlier leaves no event behind that names one. */
  lemma FreeBeforeKeeps(s: State, ending: int)
    requires Within(s, ending)
    ensures var s' := FreeBefore(s, Before(s.clock), Direct);
      && Within(s', ending)
      && (forall i :: 0 <= i < |s'.ring| ==> s'.ring[i].time == s.clock)
      && (forall q :: 0 <= q < |s.procs| && s'.procs[q] != s.procs[q] ==> forall h :: h in s.events ==> s.events[h].process != q)
  {
    hide FreeBefore, Expired;
    var s' := FreeBefore(s, Before(s.clock), Direct);
    FreeBeforeEffect(s, Before(s.clock));
    forall h | h in s.events ensures s'.procs[s.events[h].process] == s.procs[s.events[h].process] {
      assert EventOk(s, h, ending);
    }
    forall h | h in s'.events ensures EventOk(s', h, ending) { assert EventOk(s, h, ending); }
    forall h, k | h in s'.events && k in s'.events ensures StartOnce(s', h, k) { assert StartOnce(s, h, k); }
    FreeBeforeProcs(s, ending);
  }

  lemma FreeBeforeProcs(s: State, ending: int)
    requires Within(s, ending)
    ensures Procs(FreeBefore(s, Before(s.clock), Direct))
  {
    hide FreeBefore, Expired, Events, Starts;
    var s' := FreeBefore(s, Before(s.clock), Direct);
    FreeBeforeEffect(s, Before(s.clock));
    var k := Expired(s.ring, Before(s.clock));
    forall q | 0 <= q < |s'.procs| ensures ProcessOk(s', q) {
      assert ProcessOk(s, q);
      if s'.procs[q].fate.Kept? {
        var i :| 0 <= i < |s.ring| && s.ring[i] == Retired(q, s.procs[q].fate.since);
        assert i >= k;
        assert s'.ring[i - k] == s.ring[i];
      }
    }
  }

  lemma RetireKeeps(s: State, p: nat)
    requires Inv(s) && (p < |s.procs| ==> forall h :: h in s.events ==> !StartsIt(s.events[h], p))
    ensures Inv(RetireProcess(s, p, Direct))
  {
    if p < |s.procs| && s.procs[p].fate.InSlot? && s.procs[p].status != Running {
      hide FreeBefore, Inv;
      assert RingOk(s) by { InvIsWithin(s); }
      FreeBeforeKeeps(s, NOBODY) by { InvIsWithin(s); }
      FreeBeforeEffect(s, Before(s.clock));
      InvIsWithin(FreeBefore(s, Before(s.clock), Direct));
      EnterRing(FreeBefore(s, Before(s.clock), Direct), p);
    }
  }

  /** An ended process goes from its slot to the end of the ring. */
  lemma EnterRing(s: State, p: nat)
    requires Inv(s) && p < |s.procs| && s.procs[p].fate.InSlot? && s.procs[p].status != Running
    requires forall h :: h in s.events ==> !StartsIt(s.events[h], p)
    ensures Inv(SetProcess(s, p, s.procs[p].(fate := Kept(s.clock))).(ring := s.ring + [Retired(p, s.clock)]))
  {
    var s' := SetProcess(s, p, s.procs[p].(fate := Kept(s.clock))).(ring := s.ring + [Retired(p, s.clock)]);
    assert ProcessOk(s, p);
    forall h | h in s'.events ensures EventOk(s', h, NOBODY) { assert EventOk(s, h, NOBODY); }
    forall h, k | h in s'.events && k in s'.events ensures StartOnce(s', h, k) { assert StartOnce(s, h, k); }
    forall q | 0 <= q < |s'.procs| ensures ProcessOk(s', q) {
      assert ProcessOk(s, q);
      if q == p { assert s'.ring[|s.ring|] == Retired(p, s.clock); }
      else if s.procs[q].fate.Kept? { assert Retired(q, s.procs[q].fate.since) in s'.ring; }
    }
  }

  // ---- Starting ----

  lemma SpawnKeeps(s: State)
    requires Inv(s)
    ensures var s' := s.(procs := s.procs + [Spawned]); Inv(s') && forall h :: h in s.events ==> s.events[h].process < |s.procs|
  {
    var s' := s.(procs := s.procs + [Spawned]);
    forall h | h in s'.events ensures EventOk(s', h, NOBODY) && s.events[h].process < |s.procs| { assert EventOk(s, h, NOBODY); }
    forall h, k | h in s'.events && k in s'.events ensures StartOnce(s', h, k) { assert StartOnce(s, h, k); }
    forall q | 0 <= q < |s'.procs| ensures ProcessOk(s', q) { if q < |s.procs| { assert ProcessOk(s, q); } }
  }

  lemma {:induction false} StartModelKeeps(s: State, copies: nat)
    requires Inv(s)
    ensures Inv(StartModel(s, copies))
    decreases copies
  {
    if copies > 0 {
      var s1 := s.(procs := s.procs + [Spawned]);
      SpawnKeeps(s);
      ScheduleKeeps(s1, Deferred, |s.procs|, NOBODY);
      StartModelKeeps(Schedule(s1, Deferred, |s.procs|), copies - 1);
    }
  }

  // ---- Releasing ----

  lemma ReleaseProcessKeeps(s: State, p: nat, caller: nat, ending: int)
    requires Within(s, ending) && p < |s.procs| && (caller == |s.procs| || Live(s, caller))
    requires p == caller ==> ending == p
    requires ending == NOBODY || ending == caller
    ensures var s' := ReleaseProcess(s, p, caller);
      Within(s', ending) && (caller == |s.procs| || (Live(s', caller) && s'.procs[caller] == s.procs[caller]))
  {
    hide Sweep, EndSwept, Schedule;
    if s.procs[p].fate.InSlot? {
      var s1 := Sweep(s, p, {Deferred});
      SweepKeeps(s, p, {Deferred}, ending);
      assert ProcessOk(s, p);
      if p == caller || s.procs[p].status == Finished {
        NoStartNames(s1, p, ending);
        ScheduleKeeps(s1, Retire, p, ending);
        ScheduleChanges(s1, Retire, p);
      } else if s.procs[p].status == Initialized {
        var s2 := Sweep(s1, p, EVERY_KIND);
        SweepKeeps(s1, p, EVERY_KIND, ending);
        ScheduleKeeps(s2, Retire, p, ending);
        ScheduleChanges(s2, Retire, p);
      } else {
        var s2 := EndSwept(s1, p);
        EndKeeps(s1, p, ending);
        EndChanges(s1, p);
        NoStartNames(s2, p, ending);
        ScheduleKeeps(s2, Retire, p, ending);
        ScheduleChanges(s2, Retire, p);
      }
    }
  }

  lemma SweepKeeps(s: State, p: nat, kinds: set<Kind>, ending: int)
    requires Within(s, ending)
    ensures Within(Sweep(s, p, kinds), ending) && Sweep(s, p, kinds) == s.(events := Sweep(s, p, kinds).events)
    ensures forall h :: h in Sweep(s, p, kinds).events ==>
      Sweep(s, p, kinds).events[h].process != p || Sweep(s, p, kinds).events[h].kind !in kinds
  {
    FewerEventsKeep(s, Sweep(s, p, kinds), ending);
  }

  lemma ScheduleChanges(s: State, kind: Kind, p: nat)
    ensures Schedule(s, kind, p) == s.(events := Schedule(s, kind, p).events, nextHandle := s.nextHandle + 1)
  {
  }

  lemma EndChanges(s: State, p: nat)
    requires p < |s.procs|
    ensures forall q :: 0 <= q < |s.procs| && q != p ==> EndSwept(s, p).procs[q] == s.procs[q]
    ensures EndSwept(s, p).clock == s.clock && EndSwept(s, p).procs[p].fate == s.procs[p].fate
  {
  }

  lemma {:induction false} ReleaseRangeKeeps(s: State, lo: nat, hi: nat, caller: nat, ending: int)
    requires Within(s, ending) && lo <= hi <= |s.procs| && (caller == |s.procs| || Live(s, caller))
    requires lo <= caller < hi ==> ending == caller
    requires ending == NOBODY || ending == caller
    ensures var s' := ReleaseRange(s, lo, hi, caller); Within(s', ending) && (caller == |s.procs| || Live(s', caller))
    decreases hi - lo
  {
    if lo < hi {
      hide ReleaseProcess;
      ReleaseProcessKeeps(s, lo, caller, ending);
      ReleaseRangeKeeps(ReleaseProcess(s, lo, caller), lo + 1, hi, caller, ending);
    }
  }

  lemma ReleaseKeeps(s: State, lo: nat, hi: nat, caller: nat)
    requires Inv(s) && lo <= hi <= |s.procs| && (caller == |s.procs| || Live(s, caller))
    ensures Inv(Release(s, lo, hi, caller, Direct)) && Release(s, lo, hi, caller, Direct) == Release(s, lo, hi, caller, Swept)
  {
    hide ReleaseRange, EndSwept;
    var s1 := ReleaseRange(s, lo, hi, caller);
    if lo <= caller < hi {
      EndingAllowed(s, caller);
      ReleaseRangeKeeps(s, lo, hi, caller, caller);
      EndKeeps(s1, caller, caller);
    } else {
      ReleaseRangeKeeps(s, lo, hi, caller, NOBODY);
    }
  }

  // ---- Dispatching ----

  lemma DispatchKeeps(s: State, h: nat)
    requires Inv(s) && Enabled(s, Dispatch(h))
    ensures Inv(s.(clock := s.events[h].time, events := s.events - {h}))
  {
    var e := s.events[h];
    var s1 := s.(clock := e.time, events := s.events - {h});
    assert EventOk(s, h, NOBODY);
    forall k | k in s1.events ensures EventOk(s1, k, NOBODY) {
      assert EventOk(s, k, NOBODY) && ProcessOk(s, s.events[k].process);
    }
    forall k, l | k in s1.events && l in s1.events ensures StartOnce(s1, k, l) { assert StartOnce(s, k, l); }
    forall q | 0 <= q < |s1.procs| ensures ProcessOk(s1, q) { assert ProcessOk(s, q); }
  }

  lemma NothingElseStartsOrEndsIt(s: State, h: nat)
    requires Inv(s) && h in s.events
    ensures s.events[h].kind in {Deferred, Start} ==>
      forall k :: k in s.events && k != h && s.events[k].process == s.events[h].process ==> s.events[k].kind !in {Deferred, Start, Retire}
    ensures s.events[h].kind == Retire ==> forall k :: k in s.events ==> !StartsIt(s.events[k], s.events[h].process)
  {
    forall k | k in s.events && k != h
      ensures s.events[h].kind in {Deferred, Start} && s.events[k].process == s.events[h].process ==> s.events[k].kind !in {Deferred, Start, Retire}
      ensures s.events[h].kind == Retire ==> !StartsIt(s.events[k], s.events[h].process)
    {
      assert StartOnce(s, h, k) && StartOnce(s, k, h);
    }
  }

  lemma FireKeeps(s: State, h: nat)
    requires Inv(s) && Enabled(s, Dispatch(h))
    ensures Inv(Fire(s, h, Direct))
  {
    hide RetireProcess, Schedule;
    var e := s.events[h];
    var s1 := s.(clock := e.time, events := s.events - {h});
    assert EventOk(s, h, NOBODY) && ProcessOk(s, e.process);
    DispatchKeeps(s, h);
    NothingElseStartsOrEndsIt(s, h);
    match e.kind
    case Deferred => ScheduleKeeps(s1, Start, e.process, NOBODY);
    case Start => StartKeeps(s1, e.process);
    case Timer => TimerKeeps(s1, e.process, h);
    case Retire => RetireKeeps(s1, e.process);
    case Signal =>
    case Wakeup =>
  }

  lemma StartKeeps(s: State, p: nat)
    requires Inv(s) && p < |s.procs| && s.procs[p].status == Initialized && s.procs[p].fate.InSlot?
    requires forall k :: k in s.events && s.events[k].process == p ==> s.events[k].kind !in {Deferred, Start, Retire}
    ensures Inv(SetProcess(s, p, s.procs[p].(status := Running)))
  {
    var s' := SetProcess(s, p, s.procs[p].(status := Running));
    forall k | k in s'.events ensures EventOk(s', k, NOBODY) { assert EventOk(s, k, NOBODY); }
    forall k, l | k in s'.events && l in s'.events ensures StartOnce(s', k, l) { assert StartOnce(s, k, l); }
    forall q | 0 <= q < |s'.procs| ensures ProcessOk(s', q) { assert ProcessOk(s, q); }
  }

  lemma TimerKeeps(s: State, p: nat, h: nat)
    requires Inv(s) && p < |s.procs| && h !in s.events
    ensures Inv(SetProcess(s, p, s.procs[p].(timers := s.procs[p].timers - {h})))
  {
    var s' := SetProcess(s, p, s.procs[p].(timers := s.procs[p].timers - {h}));
    forall k | k in s'.events ensures EventOk(s', k, NOBODY) { assert EventOk(s, k, NOBODY); }
    forall k, l | k in s'.events && l in s'.events ensures StartOnce(s', k, l) { assert StartOnce(s, k, l); }
    forall q | 0 <= q < |s'.procs| ensures ProcessOk(s', q) { assert ProcessOk(s, q); }
  }

  lemma SetTimerKeeps(s: State, p: nat, time: real)
    requires Inv(s) && Enabled(s, SetTimer(p, time))
    ensures Inv(Next(s, SetTimer(p, time), Direct))
  {
    var s' := Next(s, SetTimer(p, time), Direct);
    assert ProcessOk(s, p);
    forall k | k in s'.events ensures EventOk(s', k, NOBODY) { if k in s.events { assert EventOk(s, k, NOBODY); } }
    forall k, l | k in s'.events && l in s'.events ensures StartOnce(s', k, l) {
      if k in s.events && l in s.events { assert StartOnce(s, k, l); }
    }
    forall q | 0 <= q < |s'.procs| ensures ProcessOk(s', q) { assert ProcessOk(s, q); }
  }

  lemma WorkKeeps(s: State, p: nat, holds: nat, waits: nat, waiters: nat)
    requires Inv(s) && p < |s.procs|
    ensures Inv(SetProcess(s, p, s.procs[p].(holds := holds, waits := waits, waiters := waiters)))
  {
    var s' := SetProcess(s, p, s.procs[p].(holds := holds, waits := waits, waiters := waiters));
    forall k | k in s'.events ensures EventOk(s', k, NOBODY) { assert EventOk(s, k, NOBODY); }
    forall k, l | k in s'.events && l in s'.events ensures StartOnce(s', k, l) { assert StartOnce(s, k, l); }
    forall q | 0 <= q < |s'.procs| ensures ProcessOk(s', q) { assert ProcessOk(s, q); }
  }

  lemma SignalledKeeps(s: State)
    requires Inv(s)
    ensures Inv(s.(signalledAt := At(s.clock)))
  {
    var s' := s.(signalledAt := At(s.clock));
    forall k | k in s'.events ensures EventOk(s', k, NOBODY) { assert EventOk(s, k, NOBODY); }
    forall k, l | k in s'.events && l in s'.events ensures StartOnce(s', k, l) { assert StartOnce(s, k, l); }
    forall q | 0 <= q < |s'.procs| ensures ProcessOk(s', q) { assert ProcessOk(s, q); }
  }

  // ---- Every run ----

  lemma StepKeeps(s: State, step: Step)
    requires Inv(s) && Enabled(s, step)
    ensures Inv(Next(s, step, Direct))
  {
    hide Inv, Fire, StartModel, Schedule, EndSwept, Finish, Release;
    match step
    case Dispatch(h) => FireKeeps(s, h);
    case Spawn(copies) => StartModelKeeps(s, copies);
    case Interrupt(p) =>
      var s1 := s.(signalledAt := At(s.clock));
      SignalledKeeps(s);
      InvIsWithin(s1);
      ScheduleKeeps(s1, Signal, p, NOBODY);
      InvIsWithin(Schedule(s1, Signal, p));
    case Grant(p) => InvIsWithin(s); ScheduleKeeps(s, Wakeup, p, NOBODY); InvIsWithin(Schedule(s, Wakeup, p));
    case SetTimer(p, time) => SetTimerKeeps(s, p, time);
    case CancelTimer(p, h) =>
      InvIsWithin(s);
      var s1 := s.(events := s.events - {h});
      FewerEventsKeep(s, s1, NOBODY);
      InvIsWithin(s1);
      TimerKeeps(s1, p, h);
    case Work(p, holds, waits, waiters) => WorkKeeps(s, p, holds, waits, waiters);
    case Return(p) => FinishKeeps(s, p);
    case Stop(p) => InvIsWithin(s); EndKeeps(s, p, NOBODY); InvIsWithin(EndSwept(s, p));
    case ReleaseModel(lo, hi, caller) => ReleaseKeeps(s, lo, hi, caller);
    case ClearQueue => InvIsWithin(s); FewerEventsKeep(s, s.(events := map[]), NOBODY); InvIsWithin(s.(events := map[]));
  }

  lemma InvIsWithin(s: State)
    ensures Inv(s) <==> Within(s, NOBODY)
  {
  }

  /** A run in which exits and frees are as `mode` says. */
  ghost predicate Run(ss: seq<State>, steps: seq<Step>, mode: Mode) {
    && |ss| == |steps| + 1 && ss[0] == Initial
    && forall i :: 0 <= i < |steps| ==> Enabled(ss[i], steps[i]) && ss[i + 1] == Next(ss[i], steps[i], mode)
  }

  lemma {:induction false} RunKeeps(ss: seq<State>, steps: seq<Step>, i: nat)
    requires Run(ss, steps, Direct) && i < |ss|
    ensures Inv(ss[i])
  {
    if i > 0 {
      RunKeeps(ss, steps, i - 1);
      assert Enabled(ss[i - 1], steps[i - 1]) && ss[i] == Next(ss[i - 1], steps[i - 1], Direct);
      StepKeeps(ss[i - 1], steps[i - 1]);
    }
  }

  // ---- The sweeps would find nothing ----

  lemma {:induction false} FreeAllSkipsNothing(s: State, ps: seq<nat>)
    requires forall h :: h in s.events ==> s.events[h].process !in ps
    ensures FreeAll(s, ps, Direct) == FreeAll(s, ps, Swept)
    decreases |ps|
  {
    if ps != [] {
      if ps[0] < |s.procs| {
        assert Sweep(s, ps[0], EVERY_KIND).events == s.events;
        assert Sweep(s, ps[0], EVERY_KIND) == s;
        FreeAllSkipsNothing(Free(s, ps[0], Direct), ps[1..]);
      } else {
        FreeAllSkipsNothing(s, ps[1..]);
      }
    }
  }

  lemma FreeBeforeSkipsNothing(s: State)
    requires Inv(s)
    ensures FreeBefore(s, Before(s.clock), Direct) == FreeBefore(s, Before(s.clock), Swept)
  {
    var k := Expired(s.ring, Before(s.clock));
    var ps := Processes(s.ring[..k]);
    ExpiredAreTheOlder(s.ring, Before(s.clock));
    forall q | q in ps ensures q < |s.procs| && s.procs[q].fate.Kept? && s.procs[q].fate.since < s.clock {
      var i :| 0 <= i < k && ps[i] == q;
      assert s.ring[i].process == q;
    }
    forall h | h in s.events ensures s.events[h].process !in ps { assert EventOk(s, h, NOBODY); }
    FreeAllSkipsNothing(s.(ring := s.ring[k..]), ps);
  }

  /** Each step does exactly what it would do with the engine's sweeps. */
  lemma StepSkipsNothing(s: State, step: Step)
    requires Inv(s) && Enabled(s, step)
    ensures Next(s, step, Direct) == Next(s, step, Swept)
  {
    hide EndSwept, FreeBefore, Release, Finish;
    match step
    case Return(p) => FinishKeeps(s, p);
    case ReleaseModel(lo, hi, caller) => ReleaseKeeps(s, lo, hi, caller);
    case Dispatch(h) =>
      DispatchKeeps(s, h);
      FreeBeforeSkipsNothing(s.(clock := s.events[h].time, events := s.events - {h}));
    case _ =>
  }

  /** The optimisation is invisible: the runs without the sweeps are the runs
      with them, state by state. */
  lemma {:induction false} SameRuns(ss: seq<State>, steps: seq<Step>)
    ensures Run(ss, steps, Direct) <==> Run(ss, steps, Swept)
  {
    if Run(ss, steps, Direct) {
      forall i | 0 <= i < |steps| ensures ss[i + 1] == Next(ss[i], steps[i], Swept) {
        RunKeeps(ss, steps, i);
        StepSkipsNothing(ss[i], steps[i]);
      }
    }
    if Run(ss, steps, Swept) { SweptRunIsDirect(ss, steps, |steps|); }
  }

  lemma {:induction false} SweptRunIsDirect(ss: seq<State>, steps: seq<Step>, n: nat)
    requires Run(ss, steps, Swept) && n <= |steps|
    ensures Run(ss[..n + 1], steps[..n], Direct)
    ensures n == |steps| ==> Run(ss, steps, Direct)
  {
    hide Enabled, Next, Inv;
    if n > 0 {
      SweptRunIsDirect(ss, steps, n - 1);
      RunKeeps(ss[..n], steps[..n - 1], n - 1);
      assert Enabled(ss[n - 1], steps[n - 1]) && ss[n] == Next(ss[n - 1], steps[n - 1], Swept);
      StepSkipsNothing(ss[n - 1], steps[n - 1]);
    }
    if n == |steps| { assert ss[..n + 1] == ss && steps[..n] == steps; }
  }

  /** No pending event names a freed struct, an event that names a retired one
      is of the retirement's own time, and the retirement event of a process
      never finds it running. */
  lemma NoEventReachesAFreedStruct(ss: seq<State>, steps: seq<Step>, i: nat, h: nat)
    requires Run(ss, steps, Direct) && i < |ss| && h in ss[i].events
    ensures var s := ss[i]; var e := s.events[h];
      && e.process < |s.procs| && !s.procs[e.process].fate.Freed?
      && (s.procs[e.process].fate.Kept? ==> s.procs[e.process].fate.since == s.clock == e.time)
      && (e.kind == Retire ==> s.procs[e.process].status != Running)
  {
    RunKeeps(ss, steps, i);
    assert EventOk(ss[i], h, NOBODY) && ProcessOk(ss[i], ss[i].events[h].process);
  }

  /** Each spawned process is in exactly one place: its slot, one ring entry,
      or freed; and it is destroyed when it is freed and not before. */
  lemma OnePlace(ss: seq<State>, steps: seq<Step>, i: nat, p: nat)
    requires Run(ss, steps, Direct) && i < |ss| && p < |ss[i].procs|
    ensures var s := ss[i];
      && ((exists j :: 0 <= j < |s.ring| && s.ring[j].process == p) <==> s.procs[p].fate.Kept?)
      && (forall j, k :: 0 <= j < |s.ring| && 0 <= k < |s.ring| && s.ring[j].process == p == s.ring[k].process ==> j == k)
      && s.procs[p].destroyed == (if s.procs[p].fate.Freed? then 1 else 0)
  {
    RunKeeps(ss, steps, i);
    var s := ss[i];
    assert ProcessOk(s, p);
    if s.procs[p].fate.Kept? {
      var j :| 0 <= j < |s.ring| && s.ring[j] == Retired(p, s.procs[p].fate.since);
      assert s.ring[j].process == p;
    }
  }

  // ---- The end of the trial ----

  lemma {:induction false} FreeSlotsKeeps(s: State, p: nat)
    requires Inv(s) && p <= |s.procs|
    requires forall q :: 0 <= q < p ==> !s.procs[q].fate.InSlot?
    ensures var s' := FreeSlots(s, p); Inv(s') && forall q :: 0 <= q < |s'.procs| ==> !s'.procs[q].fate.InSlot?
    decreases |s.procs| - p
  {
    if p < |s.procs| {
      if !s.procs[p].fate.InSlot? {
        FreeSlotsKeeps(s, p + 1);
      } else {
        hide EndSwept, Sweep, Free;
        var s1 := Sweep(s, p, {Deferred});
        SweepKeeps(s, p, {Deferred}, NOBODY);
        var s2 := if s1.procs[p].status == Running then EndSwept(s1, p) else s1;
        if s1.procs[p].status == Running { EndKeeps(s1, p, NOBODY); EndChanges(s1, p); }
        FreeSlotKeeps(s2, p);
        FreeSlotsKeeps(Free(s2, p, Swept), p + 1);
      }
    }
  }

  lemma FreeSlotKeeps(s: State, p: nat)
    requires Inv(s) && p < |s.procs| && s.procs[p].fate.InSlot? && s.procs[p].status != Running
    ensures var s' := Free(s, p, Swept); Inv(s') && s'.procs == s.procs[p := FreedProcess(s.procs[p])]
  {
    var s1 := Sweep(s, p, EVERY_KIND);
    SweepKeeps(s, p, EVERY_KIND, NOBODY);
    var s' := Free(s, p, Swept);
    forall k | k in s'.events ensures EventOk(s', k, NOBODY) { assert EventOk(s1, k, NOBODY); }
    forall k, l | k in s'.events && l in s'.events ensures StartOnce(s', k, l) { assert StartOnce(s1, k, l); }
    forall q | 0 <= q < |s'.procs| ensures ProcessOk(s', q) { assert ProcessOk(s1, q); }
  }

  /** However often releases and normal exits schedule its retirement, at the
      end of the trial every process spawned has been destroyed exactly once. */
  lemma DestroyedOnce(ss: seq<State>, steps: seq<Step>, p: nat)
    requires Run(ss, steps, Direct) && p < |ss[|steps|].procs|
    ensures var s' := EndTrial(ss[|steps|], Direct); s'.procs[p].fate.Freed? && s'.procs[p].destroyed == 1 && s'.ring == []
  {
    var s := ss[|steps|];
    RunKeeps(ss, steps, |steps|);
    FreeSlotsKeeps(s, 0);
    var s1 := FreeSlots(s, 0);
    assert ProcessOk(s1, p);
    FreeBeforeEffect(s1, Forever);
    if s1.procs[p].fate.Kept? {
      var i :| 0 <= i < |s1.ring| && s1.ring[i] == Retired(p, s1.procs[p].fate.since);
      assert s1.ring[i].process == p;
    }
    AllExpire(s1.ring);
  }
}
