/** What holds in every run of the resource state machine. */
module ResourceTheorems {
  import opened HashHeap
  import opened WaitKeys
  import opened ResourceModel
  import opened ResourceInvariant
  import opened ResourceSteps
  import opened ResourceRuns

  // ---- One step ----

  /** The process a step runs; |procs| for a step that runs none. */
  function Actor(w: World, s: Step): nat {
    match s
    case Acquire(p, _, _, _, _) => p
    case AcquireAny(p, _, _) => p
    case ReleaseUnits(p, _, _) => p
    case Deliver(e) => e.pid
    case Timer(p, _) => p
    case StopProcess(p) => p
    case _ => |w.procs|
  }

  /** The signal a step resumes p's wait with. */
  function SignalOf(s: Step): Signal {
    match s
    case Deliver(Notice(_, sig)) => sig
    case Timer(_, sig) => sig
    case _ => Success
  }

  ghost predicate Resumes(w: World, s: Step, p: nat) {
    && p < |w.procs| && w.procs[p].frame.Waiting?
    && match s
       case Deliver(e) => e.pid == p && (e.Grant? ==> GrantIsLive(w, e))
       case Timer(q, _) => q == p
       case _ => false
  }

  /** A resuming step is a Resume of the same state, with fewer events. */
  lemma ResumingStep(w: World, s: Step, p: nat) returns (events: multiset<Wakeup>, cancelled: bool)
    requires Inv(w) && Enabled(w, s) && Resumes(w, s, p)
    ensures KeepsOthersEvents(w, events, p) && FrameOk(w, p)
    ensures Exec(w, s) == Resume(w.(events := events), p, SignalOf(s), cancelled)
    ensures MayResume(w, p, SignalOf(s))
    ensures cancelled <==> s.Deliver? && s.event.Notice?
  {
    assert WaitOk(w, p);
    if s.Deliver? {
      events, cancelled := w.events - multiset{s.event}, s.event.Notice?;
    } else {
      events, cancelled := w.events, false;
      assert w.(events := events) == w;
    }
  }

  lemma OthersAreBystanders(w: World, w': World, p: nat)
    requires OthersStandBy(w, w', |w.procs|)
    ensures OthersStandBy(w, w', p)
  {
  }

  lemma EventStepKeeps(w: World, s: Step)
    requires Inv(w) && Enabled(w, s)
    requires s.Interrupt? || s.Tick? || (s.Deliver? && !Resumes(w, s, s.event.pid))
    ensures Inv(Next(w, s)) && OthersStandBy(w, Next(w, s), |w.procs|)
    ensures Next(w, s).pools == w.pools && Next(w, s).procs == w.procs
  {
    var w' := Next(w, s);
    assert w' == w.(events := w'.events, now := w'.now);
    EventsKeep(w, w'.events, w'.now);
  }

  /** Every step keeps the invariant, and leaves every other process's call alone. */
  lemma StepKeeps(w: World, s: Step)
    requires Inv(w) && Enabled(w, s)
    ensures Inv(Next(w, s)) && OthersStandBy(w, Next(w, s), Actor(w, s))
  {
    hide Inv, OthersStandBy, StartAcquire, StartAcquireAny, Release, SetCapacity, SetPriority, Resume, Stop, ResumeTakeOk, AnyOk, AttemptOk;
    match s
    case Acquire(p, r, amount, preempt, rq) => StartAcquireKeeps(w, p, r, amount, preempt, rq);
    case AcquireAny(p, members, rq) => StartAcquireAnyKeeps(w, p, members, rq);
    case ReleaseUnits(p, r, amount) => ReleaseKeeps(w, p, r, amount);
    case ChangeCapacity(caller, r, value, preempting) => SetCapacityKeeps(w, caller, r, value, preempting);
    case ChangePriority(p, priority) => SetPriorityKeeps(w, p, priority);
    case StopProcess(p) => StopKeeps(w, p);
    case Interrupt(_, _) => EventStepKeeps(w, s);
    case Tick(_) => EventStepKeeps(w, s);
    case Timer(p, _) => ResumeStepKeeps(w, s, p);
    case Deliver(e) =>
      if Resumes(w, s, e.pid) { ResumeStepKeeps(w, s, e.pid); }
      else { EventStepKeeps(w, s); OthersAreBystanders(w, Next(w, s), e.pid); }
  }

  lemma StartAcquireAnyKeeps(w: World, p: nat, members: seq<nat>, rq: Request)
    requires Inv(w) && CanCall(w, p) && MembersOk(w, members) && w.requestSeq < SEQ_MASK
    ensures var (w', out) := StartAcquireAny(w, p, members, rq);
      && Inv(w') && OthersStandBy(w, w', p)
      && (if members == [] then out == Abandoned && w' == w
          else AnyOk(w, w', out, p, members, rq, Unplaced) && !out.Returned?)
  {
    if members == [] {
      NothingYet(w, p);
    } else {
      Unsettled(w, p, members);
      AttemptAnyKeeps(w, p, members, rq, Unplaced);
    }
  }

  lemma ResumeStepKeeps(w: World, s: Step, p: nat)
    requires Inv(w) && Enabled(w, s) && Resumes(w, s, p)
    ensures Inv(Next(w, s)) && OthersStandBy(w, Next(w, s), p) && FrameOk(w, p)
    ensures var f := w.procs[p].frame; var (w', out) := Exec(w, s);
      if f.call.Take? then ResumeTakeOk(w, w', out, p, SignalOf(s))
      else AnyOk(w, w', out, p, f.members, f.rq, f.place) && (out.Returned? ==> out.sig == SignalOf(s))
  {
    hide Resume, Inv, Exec;
    var events, cancelled := ResumingStep(w, s, p);
    if w.procs[p].frame.call.Take? {
      ResumeTakeKeeps(w, p, SignalOf(s), cancelled, events);
    } else {
      ResumeAnyKeeps(w, p, SignalOf(s), cancelled, events);
    }
  }

  lemma ReturnsSignal(w: World, s: Step, p: nat)
    requires Inv(w) && Enabled(w, s) && Resumes(w, s, p) && w.procs[p].frame.call.TakeAny? && SignalOf(s) != Success
    ensures Exec(w, s).1 == Returned(SignalOf(s))
  {
    hide Awaken, SettleTags, SignalEach;
    var _, _ := ResumingStep(w, s, p);
  }

  // ---- Runs ----

  ghost predicate Run(ws: seq<World>, steps: seq<Step>) {
    && |ws| == |steps| + 1 && Initial(ws[0])
    && forall i :: 0 <= i < |steps| ==> Enabled(ws[i], steps[i]) && ws[i + 1] == Next(ws[i], steps[i])
  }

  lemma RunStep(ws: seq<World>, steps: seq<Step>, i: nat)
    requires Run(ws, steps) && i + 1 < |ws|
    ensures |ws| == |steps| + 1 && Enabled(ws[i], steps[i]) && ws[i + 1] == Next(ws[i], steps[i])
  {
  }

  lemma InitialKeeps(w: World)
    requires Initial(w)
    ensures Inv(w)
  {
  }

  /** The invariant holds in every reachable state. */
  lemma {:induction false} RunKeeps(ws: seq<World>, steps: seq<Step>, i: nat)
    requires Run(ws, steps) && i < |ws|
    ensures Inv(ws[i])
  {
    if i == 0 {
      InitialKeeps(ws[0]);
    } else {
      RunKeeps(ws, steps, i - 1);
      assert Enabled(ws[i - 1], steps[i - 1]) && ws[i] == Next(ws[i - 1], steps[i - 1]);
      StepKeeps(ws[i - 1], steps[i - 1]);
    }
  }

  /** Unit conservation: in every reachable state the units in use are the
      units held, each holding is positive and its process's only one, in_use
      is within the largest capacity so far, and outside a call a process
      carries a pool's tag exactly when it holds units there. */
  lemma Conservation(ws: seq<World>, steps: seq<Step>, i: nat, r: nat, p: nat)
    requires Run(ws, steps) && i < |ws| && r < |ws[i].pools| && p < |ws[i].procs|
    ensures var w := ws[i];
      && w.pools[r].inUse == Total(w.pools[r].holders) && 0 <= w.pools[r].inUse <= w.pools[r].maxCapacity
      && DistinctKeys(w.pools[r].holders)
      && (Hold(w, r, p).Some? ==> Held(w, r, p) > 0)
      && (w.procs[p].frame.Idle? ==> (r in w.procs[p].tags <==> Held(w, r, p) > 0))
  {
    RunKeeps(ws, steps, i);
    assert PoolOk(ws[i].pools[r], |ws[i].procs|);
    assert TagOk(ws[i], p, r, Slack(ws[i], p, 0, []));
  }

  // ---- acquire and preempt are all or nothing ----

  /** p is in its acquire or preempt call of n units of r, begun with `entry`. */
  ghost predicate InTake(w: World, p: nat, r: nat, n: nat, entry: Option<Holding>, rq: Request) {
    && p < |w.procs| && w.procs[p].frame.Waiting?
    && var f := w.procs[p].frame;
       f.members == [r] && f.rq == rq && f.call.Take? && f.call.requested == n && f.call.entry == entry
  }

  /** What the call leaves when it returns `sig` in state w', if it began with
      `entry`: everything it asked for; or what it began with, to the letter;
      or, thrown out, nothing here or what it had so far. */
  ghost predicate TakeReturns(w': World, sig: Signal, p: nat, r: nat, n: nat, entry: Option<Holding>, rq: Request)
    requires p < |w'.procs|
  {
    match sig
    case Success =>
      && Hold(w', r, p).Some? && Held(w', r, p) == AmountOf(entry) + n
      && Hold(w', r, p).value.rank == RequestRank(rq, w'.procs[p]) && Hold(w', r, p).value.item.fixed == rq.fixed
      && (entry.Some? ==> Hold(w', r, p).value.time == entry.value.time)
    case Preempted =>
      Held(w', r, p) == 0 || AmountOf(entry) <= Held(w', r, p) < AmountOf(entry) + n
    case _ => Hold(w', r, p) == entry
  }

  lemma TakeKept(w: World, p: nat, r: nat, n: nat, entry: Option<Holding>, rq: Request)
    requires Inv(w) && InTake(w, p, r, n, entry, rq)
    ensures Held(w, r, p) == 0 || AmountOf(entry) <= Held(w, r, p) < AmountOf(entry) + n
  {
    assert WaitOk(w, p);
  }

  lemma ResumedTake(w: World, s: Step, p: nat, r: nat, n: nat, entry: Option<Holding>, rq: Request)
    requires Inv(w) && Enabled(w, s) && Resumes(w, s, p) && InTake(w, p, r, n, entry, rq)
    ensures var (w', out) := Exec(w, s);
      InTake(w', p, r, n, entry, rq)
      || (p < |w'.procs| && w'.procs[p].frame.Idle? && out.Returned? && TakeReturns(w', out.sig, p, r, n, entry, rq))
  {
    hide Inv, Exec, Enabled, OthersStandBy;
    ResumeStepKeeps(w, s, p);
    var (w', out) := Exec(w, s);
    SameLength(w, w', p);
    if SignalOf(s) == Preempted { TakeKept(w, p, r, n, entry, rq); }
    TakeBounds(w, p);
  }

  lemma SameLength(w: World, w': World, p: nat)
    requires OthersStandBy(w, w', p)
    ensures |w'.pools| == |w.pools| && |w'.procs| == |w.procs|
  {
  }

  lemma TakeBounds(w: World, p: nat)
    requires Inv(w) && p < |w.procs| && w.procs[p].frame.Waiting? && w.procs[p].frame.call.Take?
    ensures 1 <= w.procs[p].frame.call.remaining <= w.procs[p].frame.call.requested
    ensures AmountOf(w.procs[p].frame.call.entry) >= 0
  {
    assert WaitOk(w, p);
  }

  /** While p waits, only a step that resumes or stops p changes its call. */
  lemma TakeStep(w: World, s: Step, p: nat, r: nat, n: nat, entry: Option<Holding>, rq: Request)
    requires Inv(w) && Enabled(w, s) && InTake(w, p, r, n, entry, rq)
    ensures var (w', out) := Exec(w, s);
      InTake(w', p, r, n, entry, rq)
      || (s == StopProcess(p) && p < |w'.procs| && !w'.procs[p].alive)
      || (Resumes(w, s, p) && p < |w'.procs| && w'.procs[p].frame.Idle? && out.Returned?
          && TakeReturns(w', out.sig, p, r, n, entry, rq))
  {
    if Resumes(w, s, p) {
      ResumedTake(w, s, p, r, n, entry, rq);
    } else if s == StopProcess(p) {
      StopKeeps(w, p);
    } else if Actor(w, s) == p {
      EventStepKeeps(w, s);
    } else {
      StepKeeps(w, s);
      assert Bystander(w, Next(w, s), p);
    }
  }

  lemma StartedTake(w: World, p: nat, r: nat, n: nat, preempt: bool, rq: Request)
    requires Inv(w) && Enabled(w, Acquire(p, r, n, preempt, rq)) && 0 < n <= INT64_MAX
    ensures var (w', out) := Exec(w, Acquire(p, r, n, preempt, rq));
      InTake(w', p, r, n, Hold(w, r, p), rq)
      || (p < |w'.procs| && w'.procs[p].frame.Idle? && out == Returned(Success) && TakeReturns(w', Success, p, r, n, Hold(w, r, p), rq))
  {
    hide Inv, StartAcquire, OthersStandBy;
    StartAcquireKeeps(w, p, r, n, preempt, rq);
    var w' := StartAcquire(w, p, r, n, preempt, rq).0;
    SameLength(w, w', p);
    PoolIsOk(w, r);
  }

  lemma StopIsIdle(w: World, p: nat)
    requires Inv(w) && Enabled(w, StopProcess(p))
    ensures p < |Next(w, StopProcess(p)).procs| && Next(w, StopProcess(p)).procs[p].frame.Idle?
  {
    StopKeeps(w, p);
  }

  /** From the step that begins p's call to any later state p still waits in,
      p is in that one call. */
  lemma {:induction false} StaysInTake(ws: seq<World>, steps: seq<Step>, i: nat, j: nat, p: nat, r: nat, n: nat, preempt: bool, rq: Request)
    requires Run(ws, steps) && i < j < |ws| && steps[i] == Acquire(p, r, n, preempt, rq) && 0 < n <= INT64_MAX
    requires p < |ws[i].procs| && forall m :: i < m <= j ==> p < |ws[m].procs| && ws[m].procs[p].frame.Waiting?
    ensures InTake(ws[j], p, r, n, Hold(ws[i], r, p), rq)
  {
    hide Run, Inv, Enabled, Exec, InTake, Hold;
    RunStep(ws, steps, j - 1);
    RunKeeps(ws, steps, j - 1);
    if j == i + 1 {
      StartedTake(ws[i], p, r, n, preempt, rq);
    } else {
      StaysInTake(ws, steps, i, j - 1, p, r, n, preempt, rq);
      TakeStep(ws[j - 1], steps[j - 1], p, r, n, Hold(ws[i], r, p), rq);
      if steps[j - 1] == StopProcess(p) { StopIsIdle(ws[j - 1], p); }
    }
  }

  /** p is thrown out of r itself, somewhere between states i and j. */
  ghost predicate ThrownOutHere(ws: seq<World>, i: nat, j: nat, p: nat, r: nat)
    requires j < |ws|
  {
    exists m :: i < m < j && LosesHolding(ws[m], ws[m + 1], p, r)
  }

  ghost predicate LosesHolding(w: World, w': World, p: nat, r: nat) {
    Hold(w, r, p).Some? && Hold(w', r, p).None?
  }

  /** The claim of a waiting call: whole in its holding, or lost with it. */
  ghost predicate ClaimIs(w: World, p: nat, r: nat, lost: bool)
    requires p < |w.procs| && w.procs[p].frame.Waiting? && w.procs[p].frame.call.Take?
  {
    var f := w.procs[p].frame;
    if lost then f.status.Evicted? && Hold(w, r, p).None? && AmountAtEntry(f.call) + f.call.requested != f.call.remaining
    else StakeOk(w, r, p, f.rq, f.call)
  }

  lemma ClaimStep(w: World, s: Step, p: nat, r: nat, n: nat, entry: Option<Holding>, rq: Request, lost: bool)
    requires Inv(w) && Enabled(w, s) && InTake(w, p, r, n, entry, rq) && ClaimIs(w, p, r, lost)
    requires InTake(Next(w, s), p, r, n, entry, rq)
    ensures ClaimIs(Next(w, s), p, r, lost || LosesHolding(w, Next(w, s), p, r))
  {
    var w' := Next(w, s);
    StepKeeps(w, s);
    InCallHolds(w, p, r);
    InCallHolds(w', p, r);
    hide Inv, Enabled, Next;
    if Resumes(w, s, p) {
      ResumeStepKeeps(w, s, p);
    } else if Actor(w, s) == p {
      if s == StopProcess(p) { StopKeeps(w, p); } else { EventStepKeeps(w, s); }
    } else {
      assert Bystander(w, w', p);
    }
  }

  /** What the invariant says of a waiting call's holding. */
  lemma InCallHolds(w: World, p: nat, r: nat)
    requires Inv(w) && p < |w.procs| && w.procs[p].frame.Waiting? && w.procs[p].frame.call.Take? && w.procs[p].frame.members == [r]
    ensures var f := w.procs[p].frame; StakeOk(w, r, p, f.rq, f.call) || (f.status.Evicted? && Hold(w, r, p).None?)
    ensures Hold(w, r, p).Some? ==> Held(w, r, p) > 0
    ensures 1 <= w.procs[p].frame.call.remaining <= w.procs[p].frame.call.requested && AmountAtEntry(w.procs[p].frame.call) >= 0
  {
    assert WaitOk(w, p);
    assert PoolOk(w.pools[r], |w.procs|);
  }

  lemma {:induction false} ClaimSoFar(ws: seq<World>, steps: seq<Step>, i: nat, j: nat, p: nat, r: nat, n: nat, preempt: bool, rq: Request)
    requires Run(ws, steps) && i < j < |ws| && steps[i] == Acquire(p, r, n, preempt, rq) && 0 < n <= INT64_MAX
    requires p < |ws[i].procs| && forall m :: i < m <= j ==> p < |ws[m].procs| && ws[m].procs[p].frame.Waiting?
    ensures InTake(ws[j], p, r, n, Hold(ws[i], r, p), rq) && ClaimIs(ws[j], p, r, ThrownOutHere(ws, i, j, p, r))
  {
    hide Run, Inv, Enabled, Next, InTake, ClaimIs, ThrownOutHere, LosesHolding, Hold;
    RunStep(ws, steps, j - 1);
    RunKeeps(ws, steps, j - 1);
    StaysInTake(ws, steps, i, j, p, r, n, preempt, rq);
    if j == i + 1 {
      RunKeeps(ws, steps, j);
      ClaimFirst(ws[i], p, r, n, preempt, rq);
      NotYetThrownOut(ws, i, p, r);
    } else {
      ClaimSoFar(ws, steps, i, j - 1, p, r, n, preempt, rq);
      ClaimStep(ws[j - 1], steps[j - 1], p, r, n, Hold(ws[i], r, p), rq, ThrownOutHere(ws, i, j - 1, p, r));
      ThrownOutNext(ws, i, j - 1, p, r);
    }
  }

  lemma ClaimFirst(w: World, p: nat, r: nat, n: nat, preempt: bool, rq: Request)
    requires Inv(w) && Enabled(w, Acquire(p, r, n, preempt, rq)) && 0 < n <= INT64_MAX
    requires InTake(Next(w, Acquire(p, r, n, preempt, rq)), p, r, n, Hold(w, r, p), rq)
    ensures ClaimIs(Next(w, Acquire(p, r, n, preempt, rq)), p, r, false)
  {
    hide Inv, StartAcquire;
    StartAcquireKeeps(w, p, r, n, preempt, rq);
    InCallHolds(Next(w, Acquire(p, r, n, preempt, rq)), p, r);
  }

  lemma NotYetThrownOut(ws: seq<World>, i: nat, p: nat, r: nat)
    requires i + 1 < |ws|
    ensures !ThrownOutHere(ws, i, i + 1, p, r)
  {
  }

  lemma ThrownOutNext(ws: seq<World>, i: nat, j: nat, p: nat, r: nat)
    requires i < j && j + 1 < |ws|
    ensures ThrownOutHere(ws, i, j + 1, p, r) <==> ThrownOutHere(ws, i, j, p, r) || LosesHolding(ws[j], ws[j + 1], p, r)
  {
    if LosesHolding(ws[j], ws[j + 1], p, r) { assert i < j < j + 1; }
    if m :| i < m < j && LosesHolding(ws[m], ws[m + 1], p, r) { assert i < m < j + 1; }
  }

  /** All or nothing: p begins a call for n units at step i, waits in every
      state in between, whatever the others do, and is back at step j. Then
      either p was stopped, or the call returned at step j with a signal that
      says exactly what p now holds. After a preemption that is nothing if p
      was thrown out here, and otherwise what it began with and has taken. */
  lemma AllOrNothing(ws: seq<World>, steps: seq<Step>, i: nat, j: nat, p: nat, r: nat, n: nat, preempt: bool, rq: Request)
    requires Run(ws, steps) && i <= j < |steps| && steps[i] == Acquire(p, r, n, preempt, rq) && 0 < n <= INT64_MAX
    requires p < |ws[i].procs| && forall m :: i < m <= j ==> p < |ws[m].procs| && ws[m].procs[p].frame.Waiting?
    requires p < |ws[j + 1].procs| && ws[j + 1].procs[p].frame.Idle?
    ensures steps[j] == StopProcess(p)
      || (Exec(ws[j], steps[j]).1.Returned?
          && TakeReturns(ws[j + 1], Exec(ws[j], steps[j]).1.sig, p, r, n, Hold(ws[i], r, p), rq))
    ensures Exec(ws[j], steps[j]).1 == Returned(Preempted) ==>
      && i < j && ws[j].procs[p].frame.call.Take? && 1 <= ws[j].procs[p].frame.call.remaining <= n
      && Held(ws[j + 1], r, p) == if ThrownOutHere(ws, i, j, p, r) then 0
                                  else Held(ws[i], r, p) + n - ws[j].procs[p].frame.call.remaining
  {
    RunStep(ws, steps, j);
    RunKeeps(ws, steps, j);
    if i == j {
      StartedTake(ws[i], p, r, n, preempt, rq);
    } else {
      ClaimSoFar(ws, steps, i, j, p, r, n, preempt, rq);
      EndOfTake(ws[j], steps[j], p, r, n, Hold(ws[i], r, p), rq, ThrownOutHere(ws, i, j, p, r));
    }
  }

  lemma EndOfTake(w: World, s: Step, p: nat, r: nat, n: nat, entry: Option<Holding>, rq: Request, lost: bool)
    requires Inv(w) && Enabled(w, s) && InTake(w, p, r, n, entry, rq) && ClaimIs(w, p, r, lost)
    requires p < |Next(w, s).procs| && Next(w, s).procs[p].frame.Idle?
    ensures var (w', out) := Exec(w, s);
      && (s == StopProcess(p) || (out.Returned? && TakeReturns(w', out.sig, p, r, n, entry, rq)))
      && 1 <= w.procs[p].frame.call.remaining <= n
      && (out == Returned(Preempted) ==>
            Held(w', r, p) == if lost then 0 else AmountOf(entry) + n - w.procs[p].frame.call.remaining)
  {
    hide Inv, Enabled, OthersStandBy, Exec;
    TakeStep(w, s, p, r, n, entry, rq);
    InCallHolds(w, p, r);
    if Resumes(w, s, p) { ResumeStepKeeps(w, s, p); }
    else { StopIsDone(w, s); }
  }

  lemma StopIsDone(w: World, s: Step)
    requires Enabled(w, s)
    ensures s.StopProcess? ==> Exec(w, s).1 == Done
  {
  }

  // ---- acquire_any is atomic across its members ----

  ghost predicate InAny(w: World, p: nat, members: seq<nat>, rq: Request) {
    && p < |w.procs| && w.procs[p].frame.Waiting?
    && w.procs[p].frame.members == members && w.procs[p].frame.rq == rq && w.procs[p].frame.call.TakeAny?
  }

  ghost predicate InNoQueue(w: World, p: nat) {
    forall r: nat, k: nat :: Entry(w, r, k).Some? ==> Entry(w, r, k).value.item != p
  }

  lemma IdleInNoQueue(w: World, p: nat)
    requires Inv(w) && p < |w.procs| && w.procs[p].frame.Idle?
    ensures InNoQueue(w, p)
  {
    forall r: nat, k: nat | Entry(w, r, k).Some? ensures Entry(w, r, k).value.item != p { assert EntryOk(w, r, k); }
  }

  /** What the step that ends an acquire_any call did: one unit of the member
      it returns, by its first listing, or nothing at all; and no entry is left. */
  ghost predicate AnyReturns(w: World, w': World, out: Outcome, p: nat, members: seq<nat>) {
    && InNoQueue(w', p)
    && match out
       case Index(k) =>
         && k < |members| && k == FirstListing(members, members[k])
         && Held(w', members[k], p) == Held(w, members[k], p) + 1
         && (forall s: nat :: s != members[k] ==> Hold(w', s, p) == Hold(w, s, p))
       case Returned(sig) => sig != Success && forall s: nat :: Hold(w', s, p) == Hold(w, s, p)
       case _ => false
  }

  ghost predicate KeptOrLost(w: World, w': World, p: nat) {
    forall s: nat :: Held(w', s, p) == Held(w, s, p) || Held(w', s, p) == 0
  }

  lemma AnyStep(w: World, s: Step, p: nat, members: seq<nat>, rq: Request)
    requires Inv(w) && Enabled(w, s) && InAny(w, p, members, rq)
    ensures var (w', out) := Exec(w, s);
      (InAny(w', p, members, rq) && KeptOrLost(w, w', p))
      || (s == StopProcess(p) && p < |w'.procs| && !w'.procs[p].alive)
      || (p < |w'.procs| && w'.procs[p].frame.Idle? && AnyReturns(w, w', out, p, members))
  {
    if Resumes(w, s, p) {
      AnyResumed(w, s, p, members, rq);
    } else if s == StopProcess(p) {
      StopKeeps(w, p);
    } else if Actor(w, s) == p {
      EventStepKeeps(w, s);
      forall r: nat ensures Hold(Next(w, s), r, p) == Hold(w, r, p) {}
    } else {
      StepKeeps(w, s);
      assert Bystander(w, Next(w, s), p);
    }
  }

  lemma AnyResumed(w: World, s: Step, p: nat, members: seq<nat>, rq: Request)
    requires Inv(w) && Enabled(w, s) && InAny(w, p, members, rq) && Resumes(w, s, p)
    ensures var (w', out) := Exec(w, s);
      (InAny(w', p, members, rq) && KeptOrLost(w, w', p))
      || (p < |w'.procs| && w'.procs[p].frame.Idle? && AnyReturns(w, w', out, p, members))
  {
    hide Inv, Exec, Enabled, Resumes, OthersStandBy, Hold;
    ResumeStepKeeps(w, s, p);
    var w' := Exec(w, s).0;
    SameLength(w, w', p);
    if w'.procs[p].frame.Idle? { IdleInNoQueue(w', p); }
  }

  lemma StartedAny(w: World, p: nat, members: seq<nat>, rq: Request)
    requires Inv(w) && Enabled(w, AcquireAny(p, members, rq)) && members != []
    ensures var (w', out) := Exec(w, AcquireAny(p, members, rq));
      (InAny(w', p, members, rq) && KeptOrLost(w, w', p))
      || (p < |w'.procs| && w'.procs[p].frame.Idle? && AnyReturns(w, w', out, p, members))
  {
    StartAcquireAnyKeeps(w, p, members, rq);
    hide Inv, StartAcquireAny;
    var w' := StartAcquireAny(w, p, members, rq).0;
    if p < |w'.procs| && w'.procs[p].frame.Idle? { IdleInNoQueue(w', p); }
  }

  lemma {:induction false} StaysInAny(ws: seq<World>, steps: seq<Step>, i: nat, j: nat, p: nat, members: seq<nat>, rq: Request)
    requires Run(ws, steps) && i < j < |ws| && steps[i] == AcquireAny(p, members, rq) && members != []
    requires p < |ws[i].procs| && forall m :: i < m <= j ==> p < |ws[m].procs| && ws[m].procs[p].frame.Waiting?
    ensures InAny(ws[j], p, members, rq) && KeptOrLost(ws[i], ws[j], p)
  {
    assert Enabled(ws[j - 1], steps[j - 1]) && ws[j] == Next(ws[j - 1], steps[j - 1]);
    RunKeeps(ws, steps, j - 1);
    if j == i + 1 {
      StartedAny(ws[i], p, members, rq);
    } else {
      StaysInAny(ws, steps, i, j - 1, p, members, rq);
      AnyStep(ws[j - 1], steps[j - 1], p, members, rq);
      if steps[j - 1] == StopProcess(p) { StopKeeps(ws[j - 1], p); }
    }
  }

  /** One unit or nothing: p begins acquire_any at step i and is back at step j.
      Its waiting never added a unit anywhere; the last step took exactly one
      unit of the member it names, or took none; and no queue holds it. */
  lemma OneOrNothing(ws: seq<World>, steps: seq<Step>, i: nat, j: nat, p: nat, members: seq<nat>, rq: Request)
    requires Run(ws, steps) && i <= j < |steps| && steps[i] == AcquireAny(p, members, rq) && members != []
    requires p < |ws[i].procs| && forall m :: i < m <= j ==> p < |ws[m].procs| && ws[m].procs[p].frame.Waiting?
    requires p < |ws[j + 1].procs| && ws[j + 1].procs[p].frame.Idle?
    ensures KeptOrLost(ws[i], ws[j], p)
    ensures steps[j] == StopProcess(p) || AnyReturns(ws[j], ws[j + 1], Exec(ws[j], steps[j]).1, p, members)
  {
    assert Enabled(ws[j], steps[j]) && ws[j + 1] == Next(ws[j], steps[j]);
    RunKeeps(ws, steps, j);
    if i == j {
      StartedAny(ws[i], p, members, rq);
    } else {
      StaysInAny(ws, steps, i, j, p, members, rq);
      AnyStep(ws[j], steps[j], p, members, rq);
    }
  }

  // ---- A request keeps its place ----

  /** In every reachable queue, between two requests of equal rank the one that
      first waited earlier is ahead, however often either has waited since. */
  lemma QueueOrder(ws: seq<World>, steps: seq<Step>, i: nat, r: nat, a: nat, b: nat)
    requires Run(ws, steps) && i < |ws| && r < |ws[i].pools| && a < b < |ws[i].pools[r].queue|
    ensures var w := ws[i]; var x, y := w.pools[r].queue[a], w.pools[r].queue[b];
      && x.item < |w.procs| && y.item < |w.procs| && x.item != y.item
      && w.procs[x.item].frame.Waiting? && w.procs[y.item].frame.Waiting?
      && var rankX, rankY := RankWhileWaiting(w.procs[x.item]), RankWhileWaiting(w.procs[y.item]);
         rankX > rankY
         || (rankX == rankY && w.procs[x.item].frame.place.number < w.procs[y.item].frame.place.number)
  {
    RunKeeps(ws, steps, i);
    var w := ws[i];
    assert PoolOk(w.pools[r], |w.procs|);
    var x, y := w.pools[r].queue[a], w.pools[r].queue[b];
    FindAt(w.pools[r].queue, a);
    FindAt(w.pools[r].queue, b);
    assert EntryOk(w, r, x.key) && EntryOk(w, r, y.key);
    assert Precedes(x, y, WaiterFirst);
    assert PlacesOk(w, x.item, y.item) && PlacesOk(w, y.item, x.item) && WaitOk(w, x.item) && WaitOk(w, y.item);
    KeyOrder(w.procs[x.item].frame.place, w.procs[y.item].frame.place);
  }

  /** Whatever happens between two states of one wait or one call, the request
      number and entry time of its place are those of its first wait. */
  lemma PlaceStep(w: World, s: Step, p: nat)
    requires Inv(w) && Enabled(w, s) && p < |w.procs| && w.procs[p].frame.Waiting?
    ensures p < |Next(w, s).procs|
    ensures Next(w, s).procs[p].frame.Waiting? ==>
      Next(w, s).procs[p].frame.place.number == w.procs[p].frame.place.number
      && Next(w, s).procs[p].frame.place.time == w.procs[p].frame.place.time
  {
    StepKeeps(w, s);
    if Resumes(w, s, p) {
      ResumeStepKeeps(w, s, p);
      assert WaitOk(w, p);
    } else if s == StopProcess(p) {
      StopKeeps(w, p);
    } else if Actor(w, s) == p {
      EventStepKeeps(w, s);
    } else {
      assert Bystander(w, Next(w, s), p);
    }
  }

  ghost predicate WaitsIn(w: World, p: nat) {
    p < |w.procs| && w.procs[p].frame.Waiting?
  }

  ghost predicate SamePlace(a: World, b: World, p: nat) {
    && WaitsIn(a, p) && WaitsIn(b, p)
    && b.procs[p].frame.place.number == a.procs[p].frame.place.number
    && b.procs[p].frame.place.time == a.procs[p].frame.place.time
  }

  lemma PlaceOverStep(ws: seq<World>, steps: seq<Step>, i: nat, j: nat, p: nat)
    requires Run(ws, steps) && i < |ws| && j + 1 < |ws| && SamePlace(ws[i], ws[j], p) && WaitsIn(ws[j + 1], p)
    ensures SamePlace(ws[i], ws[j + 1], p)
  {
    hide Run, Inv;
    RunStep(ws, steps, j);
    RunKeeps(ws, steps, j);
    PlaceStep(ws[j], steps[j], p);
  }

  lemma {:induction false} KeepsItsPlace(ws: seq<World>, steps: seq<Step>, i: nat, j: nat, p: nat)
    requires Run(ws, steps) && i <= j < |ws| && forall m :: i <= m <= j ==> WaitsIn(ws[m], p)
    ensures SamePlace(ws[i], ws[j], p)
  {
    hide Run, WaitsIn, SamePlace;
    if i < j {
      KeepsItsPlace(ws, steps, i, j - 1, p);
      PlaceOverStep(ws, steps, i, j - 1, p);
    } else {
      ItsOwnPlace(ws[i], p);
    }
  }

  lemma ItsOwnPlace(w: World, p: nat)
    requires WaitsIn(w, p)
    ensures SamePlace(w, w, p)
  {
  }
}
