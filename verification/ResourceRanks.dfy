/** Rank-less requests and holdings follow the priority of their process, and
    the one kind of step after which a holding does not. */
module ResourceRanks {
  import opened HashHeap
  import opened WaitKeys
  import opened ResourceModel
  import opened ResourceInvariant
  import opened ResourceSteps
  import opened ResourceRuns
  import opened ResourceTheorems

  /** The step rolls back a call of p that began with a holding that followed
      the priority, at a rank that the priority has left since. */
  ghost predicate RestoresStaleRank(w: World, s: Step, p: nat) {
    && Resumes(w, s, p) && w.procs[p].frame.call.Take? && SignalOf(s) != Success && SignalOf(s) != Preempted
    && var entry := w.procs[p].frame.call.entry;
       entry.Some? && !entry.value.item.fixed && entry.value.rank != w.procs[p].priority
  }

  ghost predicate FollowsOrFixed(h: Option<Holding>, proc: Proc) {
    h.Some? && !h.value.item.fixed ==> h.value.rank == proc.priority
  }

  /** Only the holding in r has changed. */
  lemma TracksButOne(w: World, w': World, p: nat, r: nat)
    requires p < |w.procs| == |w'.procs| && Tracks(w, p) && w'.procs[p].priority == w.procs[p].priority
    requires forall s: nat :: s != r ==> Hold(w', s, p) == Hold(w, s, p)
    ensures Tracks(w', p) <==> FollowsOrFixed(Hold(w', r, p), w'.procs[p])
  {
  }

  lemma AttemptTracks(w: World, w': World, out: Outcome, p: nat, r: nat, rq: Request, place: Place, call: Call)
    requires p < |w.procs| == |w'.procs| && r < |w.pools| == |w'.pools| && call.Take?
    requires Tracks(w, p) && AttemptOk(w, w', out, p, r, rq, place, call) && Inv(w')
    ensures Tracks(w', p)
  {
    assert WaitOk(w', p);
    TracksButOne(w, w', p, r);
  }

  lemma AnyTracks(w: World, w': World, out: Outcome, p: nat, members: seq<nat>, rq: Request, place: Place)
    requires p < |w.procs| == |w'.procs| && |w'.pools| == |w.pools| && MembersOk(w, members)
    requires Tracks(w, p) && AnyOk(w, w', out, p, members, rq, place)
    ensures Tracks(w', p)
  {
    if out.Index? { TracksButOne(w, w', p, members[out.i]); }
  }

  lemma ResumeTracks(w: World, s: Step, p: nat)
    requires Inv(w) && Enabled(w, s) && Resumes(w, s, p) && Tracks(w, p)
    ensures p < |Next(w, s).procs| && (Tracks(Next(w, s), p) <==> !RestoresStaleRank(w, s, p))
  {
    hide Inv, Exec, Tracks, Enabled, AttemptOk, AnyOk, OthersStandBy;
    var f := w.procs[p].frame;
    var (w', out) := Exec(w, s);
    ResumeStepKeeps(w, s, p);
    SameLength(w, w', p);
    if f.call.TakeAny? {
      AnyTracks(w, w', out, p, f.members, f.rq, f.place);
    } else if SignalOf(s) == Success {
      AttemptTracks(w, w', out, p, f.members[0], f.rq, f.place, f.call);
    } else {
      TracksButOne(w, w', p, f.members[0]);
      if SignalOf(s) == Preempted { HeldTracks(w, p, f.members[0]); }
    }
  }

  lemma HeldTracks(w: World, p: nat, r: nat)
    requires p < |w.procs| && Tracks(w, p)
    ensures FollowsOrFixed(Hold(w, r, p), w.procs[p])
  {
  }

  /** Holdings that follow the priority keep doing so through every step, the
      process's own or another's, exactly unless the step restores a stale rank. */
  lemma TracksStep(w: World, s: Step, p: nat)
    requires Inv(w) && Enabled(w, s) && p < |w.procs| && Tracks(w, p)
    ensures p < |Next(w, s).procs| && (Tracks(Next(w, s), p) <==> !RestoresStaleRank(w, s, p))
  {
    hide Inv, Tracks, AttemptOk, AnyOk, StartAcquire, StartAcquireAny, Release, Stop, Resume, SetCapacity, SetPriority, DeliverEvent;
    if Resumes(w, s, p) {
      ResumeTracks(w, s, p);
    } else if Actor(w, s) != p {
      StepKeeps(w, s);
      assert Bystander(w, Next(w, s), p);
    } else {
      var (w', out) := Exec(w, s);
      match s
      case Acquire(_, r, amount, preempt, rq) =>
        StartAcquireKeeps(w, p, r, amount, preempt, rq);
        if 0 < amount <= INT64_MAX {
          AttemptTracks(w, w', out, p, r, rq, Unplaced, Take(amount, amount, preempt, Hold(w, r, p)));
        }
      case AcquireAny(_, members, rq) =>
        StartAcquireAnyKeeps(w, p, members, rq);
        if members != [] { AnyTracks(w, w', out, p, members, rq, Unplaced); }
      case ReleaseUnits(_, r, amount) =>
        ReleaseKeeps(w, p, r, amount);
        if out.Done? {
          TracksButOne(w, w', p, r);
          HeldTracks(w, p, r);
        }
      case StopProcess(_) =>
        StopKeeps(w, p);
        NothingTracks(w', p);
      case Deliver(_) =>
        EventStepKeeps(w, s);
        SamePools(w, w');
        TracksButOne(w, w', p, 0);
        HeldTracks(w, p, 0);
      case _ =>
    }
  }

  lemma NothingTracks(w: World, p: nat)
    requires p < |w.procs| && forall s: nat :: Hold(w, s, p).None?
    ensures Tracks(w, p)
  {
  }

  /** In every run without such a step of p, the holdings of p without an
      explicit rank are at its priority; and in every run at all so is its
      waiting request, whose queue entries are at its own rank if it has one. */
  lemma {:induction false} RanksFollowPriority(ws: seq<World>, steps: seq<Step>, i: nat, p: nat)
    requires Run(ws, steps) && i < |ws| && p < |ws[i].procs|
    ensures (forall j :: 0 <= j < i ==> !RestoresStaleRank(ws[j], steps[j], p)) ==> Tracks(ws[i], p)
    ensures forall r: nat, k: nat :: Entry(ws[i], r, k).Some? && Entry(ws[i], r, k).value.item == p ==>
              ws[i].procs[p].frame.Waiting? && Entry(ws[i], r, k).value.rank == RankWhileWaiting(ws[i].procs[p])
  {
    RunKeeps(ws, steps, i);
    forall r: nat, k: nat | Entry(ws[i], r, k).Some? && Entry(ws[i], r, k).value.item == p
      ensures ws[i].procs[p].frame.Waiting? && Entry(ws[i], r, k).value.rank == RankWhileWaiting(ws[i].procs[p])
    {
      assert EntryOk(ws[i], r, k);
    }
    if i == 0 {
      NothingTracks(ws[0], p);
    } else {
      hide Inv, Enabled, Next, Tracks, RestoresStaleRank;
      assert Enabled(ws[i - 1], steps[i - 1]) && ws[i] == Next(ws[i - 1], steps[i - 1]);
      RunKeeps(ws, steps, i - 1);
      StepKeeps(ws[i - 1], steps[i - 1]);
      SameLength(ws[i - 1], ws[i], Actor(ws[i - 1], steps[i - 1]));
      RanksFollowPriority(ws, steps, i - 1, p);
      if forall j :: 0 <= j < i ==> !RestoresStaleRank(ws[j], steps[j], p) {
        TracksStep(ws[i - 1], steps[i - 1], p);
      }
    }
  }
}
