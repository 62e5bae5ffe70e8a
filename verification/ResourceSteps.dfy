/** Every step keeps the invariant; what each call ends with; and what the
    other processes may notice. */
module ResourceSteps {
  import opened HashHeap
  import opened WaitKeys
  import opened ResourceModel
  import opened ResourceInvariant

  // ---- Bystanders ----

  /** The holdings of q that follow its priority rank at that priority. */
  ghost predicate Tracks(w: World, q: nat)
    requires q < |w.procs|
  {
    forall s: nat :: Hold(w, s, q).Some? && !Hold(w, s, q).value.item.fixed ==> Hold(w, s, q).value.rank == w.procs[q].priority
  }

  /** What a step may do to a process that is not taking it: its call stays as
      it is, at most granted or thrown out, it gains no unit, and holdings that
      follow its priority go on doing so. */
  ghost predicate Bystander(w: World, w': World, q: nat)
    requires q < |w.procs| == |w'.procs|
  {
    var a, b := w.procs[q], w'.procs[q];
    && b.alive == a.alive
    && b.frame == (if a.frame.Waiting? && b.frame.Waiting? then a.frame.(status := b.frame.status) else a.frame)
    && (a.frame.Waiting? && a.frame.status.Evicted? ==> b.frame.status.Evicted?)
    && (forall s: nat :: Held(w', s, q) == Held(w, s, q) || Held(w', s, q) == 0)
    && (Tracks(w, q) ==> Tracks(w', q))
  }

  ghost predicate OthersStandBy(w: World, w': World, p: nat) {
    && |w'.pools| == |w.pools| && |w'.procs| == |w.procs|
    && forall q :: 0 <= q < |w.procs| && q != p ==> Bystander(w, w', q)
  }

  lemma StandByTrans(a: World, b: World, c: World, p: nat)
    requires OthersStandBy(a, b, p) && OthersStandBy(b, c, p)
    ensures OthersStandBy(a, c, p)
  {
    hide Tracks;
    forall q | 0 <= q < |a.procs| && q != p ensures Bystander(a, c, q) {
      assert Bystander(a, b, q) && Bystander(b, c, q);
    }
  }

  lemma HoldingStandBy(w: World, w': World, r: nat, p: nat)
    requires OnlyHolding(w, w', r, p)
    ensures OthersStandBy(w, w', p)
  {
  }

  lemma SignalStandBy(w: World, w': World, r: nat, p: nat)
    requires SignalEffect(w, w', r)
    ensures OthersStandBy(w, w', p)
  {
  }

  lemma EvictStandBy(w: World, w': World, r: nat, vs: seq<nat>, p: nat)
    requires EvictAllEffect(w, w', r, vs)
    ensures OthersStandBy(w, w', p)
  {
  }

  // ---- Taking units ----

  /** The holding after the call has taken n more units. */
  function Gain(w: World, r: nat, p: nat, n: int, rq: Request): Option<Holding>
    requires p < |w.procs|
  {
    match Hold(w, r, p)
    case Some(t) => Some(t.(item := t.item.(amount := t.item.amount + n)))
    case None => if n == 0 then None else Some(Tag(p, RequestRank(rq, w.procs[p]), w.now, Stake(n, rq.fixed)))
  }

  /** A claim that is `n` units further on. */
  lemma StakeGains(w: World, w': World, r: nat, p: nat, rq: Request, call: Call, n: int)
    requires p < |w.procs| == |w'.procs| && call.Take? && StakeOk(w, r, p, rq, call)
    requires 0 <= n <= call.remaining && w'.procs[p].priority == w.procs[p].priority
    requires Hold(w', r, p) == Gain(w, r, p, n, rq)
    requires call.remaining <= call.requested && AmountAtEntry(call) >= 0 && (call.entry.Some? ==> AmountAtEntry(call) > 0)
    ensures StakeOk(w', r, p, rq, call.(remaining := call.remaining - n))
  {
  }

  lemma RankOfStake(w: World, r: nat, p: nat, rq: Request, call: Call)
    requires p < |w.procs| && call.Take? && StakeOk(w, r, p, rq, call)
    ensures Hold(w, r, p).Some? ==> Hold(w, r, p).value.rank == RequestRank(rq, w.procs[p])
  {
  }

  /** While it runs, the process has its priority, its frame and its life. */
  ghost predicate SameRunner(w: World, w': World, p: nat) {
    && p < |w.procs| && |w'.procs| == |w.procs| && w'.now == w.now && w'.requestSeq == w.requestSeq
    && w'.procs[p] == w.procs[p].(tags := w'.procs[p].tags)
  }

  /** The claim that VictimCount serves: the front holders, all strictly
      below the rank, and as few as cover the need. */
  lemma {:induction false} VictimsAreMinimal(h: Holders, rank: int, need: int)
    ensures var k := VictimCount(h, rank, need);
      && (forall i :: 0 <= i < k ==> h[i].rank < rank)
      && (forall j :: 0 <= j < k ==> Total(h[..j]) < need)
      && (k == |h| || h[k].rank >= rank || Total(h[..k]) >= need)
  {
    var k := VictimCount(h, rank, need);
    if k > 0 {
      VictimsAreMinimal(h[1..], rank, need - h[0].item.amount);
      forall j | 0 < j <= |h| ensures Total(h[..j]) == h[0].item.amount + Total(h[1..][..j - 1]) {
        assert h[..j][1..] == h[1..][..j - 1];
      }
      forall j | 0 <= j < k ensures Total(h[..j]) < need && h[j].rank < rank {
        if j > 0 { assert h[j] == h[1..][j - 1]; }
      }
    }
  }

  lemma {:induction false} TotalSplit(h: Holders, k: nat)
    requires k <= |h|
    ensures Total(h) == Total(h[..k]) + Total(h[k..])
  {
    if k > 0 {
      TotalSplit(h[1..], k - 1);
      assert h[..k][1..] == h[1..][..k - 1] && h[1..][k - 1..] == h[k..];
    }
  }

  /** The holders thrown out for a claim: a prefix of the holder order, each
      strictly below the request's rank, and never the caller. */
  lemma VictimsLeave(w: World, p: nat, r: nat, need: int, rank: int, slack: seq<nat>)
    requires Running(w, p, slack) && p < |w.procs| && r < |w.pools|
    requires Hold(w, r, p).Some? ==> Hold(w, r, p).value.rank >= rank
    ensures var h := w.pools[r].holders; var vs := Keys(h[..VictimCount(h, rank, need)]); var w1 := EvictAll(w, r, vs);
      && Running(w1, p, slack) && EvictAllEffect(w, w1, r, vs) && p !in vs
      && w1.pools[r].inUse == w.pools[r].inUse - Total(h[..VictimCount(h, rank, need)])
      && w1.pools[r].inUse <= w.pools[r].inUse
  {
    var h := w.pools[r].holders;
    var k := VictimCount(h, rank, need);
    var vs := Keys(h[..k]);
    assert PoolOk(w.pools[r], |w.procs|);
    VictimsAreMinimal(h, rank, need);
    KeysOfPrefix(w, r, h, k);
    EvictAllKeeps(w, r, vs, p, slack);
    forall i | 0 <= i < |vs| ensures vs[i] != p {
      assert Hold(w, r, h[i].key) == Some(h[i]);
    }
  }

  lemma PreemptKeeps(w: World, p: nat, r: nat, rem: nat, rq: Request, slack: seq<nat>)
    requires Running(w, p, slack) && p < |w.procs| && r < |w.pools| && w.procs[p].alive && w.procs[p].frame.Idle?
    requires Room(w.pools[r]) == 0 && rem > 0
    requires Hold(w, r, p).Some? ==> Hold(w, r, p).value.rank >= RequestRank(rq, w.procs[p])
    ensures var (w', got) := PreemptFor(w, p, r, rem, rq);
      && Running(w', p, slack) && OthersStandBy(w, w', p) && SameRunner(w, w', p)
      && Hold(w', r, p) == Gain(w, r, p, got, rq)
      && (forall s: nat :: s != r ==> Hold(w', s, p) == Hold(w, s, p))
      && (got < rem ==> Room(w'.pools[r]) == 0)
  {
    hide EvictAll, TakeUnits, VictimCount;
    var pool := w.pools[r];
    var need := rem + pool.inUse - pool.capacity;
    var rank := RequestRank(rq, w.procs[p]);
    var vs := Keys(pool.holders[..VictimCount(pool.holders, rank, need)]);
    VictimsLeave(w, p, r, need, rank, slack);
    var w1 := EvictAll(w, r, vs);
    EvictStandBy(w, w1, r, vs, p);
    TakeUpTo(w, w1, p, r, rem, rq, slack);
  }

  /** The caller's share of the room its victims left. */
  lemma TakeUpTo(w: World, w1: World, p: nat, r: nat, rem: nat, rq: Request, slack: seq<nat>)
    requires Running(w1, p, slack) && p < |w.procs| && r < |w.pools| && w.procs[p].alive && w.procs[p].frame.Idle?
    requires OthersStandBy(w, w1, p) && w1.procs[p] == w.procs[p] && w1.now == w.now && w1.requestSeq == w.requestSeq
    requires forall s: nat :: Hold(w1, s, p) == Hold(w, s, p)
    ensures var got := Min(Room(w1.pools[r]), rem); var w' := if got > 0 then TakeUnits(w1, r, p, got, rq) else w1;
      && Running(w', p, slack) && OthersStandBy(w, w', p) && SameRunner(w, w', p)
      && Hold(w', r, p) == Gain(w, r, p, got, rq)
      && (forall s: nat :: s != r ==> Hold(w', s, p) == Hold(w, s, p))
      && (got < rem ==> Room(w'.pools[r]) == 0)
  {
    var got := Min(Room(w1.pools[r]), rem);
    if got > 0 {
      var w' := TakeUnits(w1, r, p, got, rq);
      TakeKeeps(w1, r, p, got, rq, slack);
      HoldingStandBy(w1, w', r, p);
      StandByTrans(w, w1, w', p);
    }
  }

  // ---- acquire and preempt ----

  /** One pass of the loop: either the whole claim is held, or the process
      waits again, at its first place, with no room left and the claim so far
      in its holding. */
  ghost predicate AttemptOk(w: World, w': World, out: Outcome, p: nat, r: nat, rq: Request, place: Place, call: Call)
    requires p < |w.procs| == |w'.procs| && r < |w.pools| == |w'.pools| && call.Take?
  {
    && OthersStandBy(w, w', p)
    && (forall s: nat :: s != r ==> Hold(w', s, p) == Hold(w, s, p))
    && w'.procs[p].alive && w'.procs[p].priority == w.procs[p].priority
    && ((&& out == Returned(Success) && w'.procs[p].frame.Idle?
         && StakeOk(w', r, p, rq, call.(remaining := 0)))
        || (&& out == Suspended && w'.procs[p].frame.Waiting? && Room(w'.pools[r]) == 0
            && var f := w'.procs[p].frame;
               && f.members == [r] && f.rq == rq && f.status.Queued? && f.call.Take?
               && f.call == call.(remaining := f.call.remaining) && 1 <= f.call.remaining <= call.remaining
               && (place.number != 0 ==> f.place.number == place.number && f.place.time == place.time)))
  }

  ghost predicate ClaimOk(w: World, p: nat, r: nat, rq: Request, call: Call) {
    && p < |w.procs| && call.Take? && 1 <= call.remaining <= call.requested && StakeOk(w, r, p, rq, call)
    && (call.entry.Some? ==> call.entry.value.key == p && call.entry.value.item.amount > 0)
  }

  lemma FinishAttempt(w: World, w2: World, p: nat, r: nat, rq: Request, place: Place, call: Call, rem: nat)
    requires Running(w2, p, [r]) && r < |w.pools| && ClaimOk(w, p, r, rq, call)
    requires OthersStandBy(w, w2, p) && SameRunner(w, w2, p) && w.procs[p].alive && w.procs[p].frame.Idle?
    requires forall s: nat :: s != r ==> Hold(w2, s, p) == Hold(w, s, p)
    requires rem <= call.remaining && StakeOk(w2, r, p, rq, call.(remaining := rem))
    requires PlaceFree(w2, p, place) && w2.requestSeq < SEQ_MASK
    requires rem > 0 ==> Room(w2.pools[r]) == 0
    ensures var (w', out) := if rem == 0 then (SignalGuard(w2, r), Returned(Success))
                             else (Suspend(w2, p, [r], rq, place, call.(remaining := rem)), Suspended);
      Inv(w') && AttemptOk(w, w', out, p, r, rq, place, call)
  {
    if rem == 0 {
      var w' := SignalGuard(w2, r);
      SignalKeeps(w2, r, p, [r]);
      assert w'.procs[p] == w2.procs[p];
      Settled(w', p, [r]);
      SignalStandBy(w2, w', r, p);
      StandByTrans(w, w2, w', p);
    } else {
      var w' := Suspend(w2, p, [r], rq, place, call.(remaining := rem));
      SuspendKeeps(w2, p, [r], rq, place, call.(remaining := rem));
      SuspendStandBy(w2, w', p, w'.procs[p].frame.place, w'.procs[p].frame);
      StandByTrans(w, w2, w', p);
      assert w'.pools[r] == w2.pools[r].(queue := w'.pools[r].queue);
    }
  }

  lemma SuspendStandBy(w: World, w': World, p: nat, pl: Place, frame: Frame)
    requires SuspendEffect(w, w', p, pl, frame)
    ensures OthersStandBy(w, w', p)
  {
  }

  lemma AttemptKeeps(w: World, p: nat, r: nat, rq: Request, place: Place, call: Call)
    requires Running(w, p, [r]) && r < |w.pools| && ClaimOk(w, p, r, rq, call)
    requires w.procs[p].alive && w.procs[p].frame.Idle?
    requires PlaceFree(w, p, place) && w.requestSeq < SEQ_MASK
    ensures var (w', out) := Attempt(w, p, r, rq, place, call);
      Inv(w') && AttemptOk(w, w', out, p, r, rq, place, call)
  {
    hide PreemptFor, TakeUnits, Suspend, SignalGuard, Running, AttemptOk, PlaceFree, OthersStandBy, StakeOk, Hold;
    var available := Room(w.pools[r]);
    var first := Min(available, call.remaining);
    var w1 := if first > 0 then TakeUnits(w, r, p, first, rq) else w;
    TakeUpTo(w, w, p, r, call.remaining, rq, [r]) by { NothingYet(w, p); }
    StakeGains(w, w1, r, p, rq, call, first);
    NewPlaceFree(w, w1, p, place);
    if available >= call.remaining {
      FinishAttempt(w, w1, p, r, rq, place, call, 0);
    } else if !call.preempt {
      FinishAttempt(w, w1, p, r, rq, place, call, call.remaining - first);
    } else {
      var rem := call.remaining - first;
      var (w2, got) := PreemptFor(w1, p, r, rem, rq);
      PreemptKeeps(w1, p, r, rem, rq, [r]);
      StakeGains(w1, w2, r, p, rq, call.(remaining := rem), got);
      StandByTrans(w, w1, w2, p);
      NewPlaceFree(w, w2, p, place);
      FinishAttempt(w, w2, p, r, rq, place, call, rem - got);
    }
  }

  lemma NothingYet(w: World, p: nat)
    ensures OthersStandBy(w, w, p)
  {
  }

  lemma NewPlaceFree(w: World, w1: World, p: nat, place: Place)
    requires PlaceFree(w, p, place) && OthersStandBy(w, w1, p)
    requires w1.now == w.now && w1.requestSeq == w.requestSeq
    ensures PlaceFree(w1, p, place)
  {
    forall q | 0 <= q < |w.procs| && q != p && w1.procs[q].frame.Waiting?
      ensures w.procs[q].frame.Waiting? && w1.procs[q].frame.place == w.procs[q].frame.place
    {
      assert Bystander(w, w1, q);
    }
  }

  lemma StartAcquireKeeps(w: World, p: nat, r: nat, amount: nat, preempt: bool, rq: Request)
    requires Inv(w) && CanCall(w, p) && r < |w.pools| && w.requestSeq < SEQ_MASK
    ensures var (w', out) := StartAcquire(w, p, r, amount, preempt, rq);
      && Inv(w') && OthersStandBy(w, w', p)
      && (if 0 < amount < 0x8000_0000_0000_0000
          then AttemptOk(w, w', out, p, r, rq, Unplaced, Take(amount, amount, preempt, Hold(w, r, p)))
          else w' == w && out == Abandoned)
  {
    if 0 < amount <= INT64_MAX {
      hide Attempt, SetRank;
      var rank := RequestRank(rq, w.procs[p]);
      var w1 := SetRank(w, r, p, rank, rq.fixed);
      var call := Take(amount, amount, preempt, Hold(w, r, p));
      Unsettled(w, p, [r]);
      assert PoolOk(w.pools[r], |w.procs|);
      SetRankKeeps(w, r, p, rank, rq.fixed, [r]);
      HoldingStandBy(w, w1, r, p);
      AttemptKeeps(w1, p, r, rq, Unplaced, call);
      StandByTrans(w, w1, Attempt(w1, p, r, rq, Unplaced, call).0, p);
    } else {
      NothingYet(w, p);
    }
  }

  // ---- Resuming ----

  /** The events still pending when a process resumes: those of the others. */
  ghost predicate KeepsOthersEvents(w: World, events: multiset<Wakeup>, p: nat) {
    forall e :: e in w.events && e.pid != p ==> e in events
  }

  lemma DropEvents(w: World, p: nat, slack: seq<nat>, events: multiset<Wakeup>)
    requires Running(w, p, slack) && p < |w.procs| && w.procs[p].frame.Idle?
    requires KeepsOthersEvents(w, events, p)
    ensures Running(w.(events := events), p, slack)
  {
    var w' := w.(events := events);
    SamePools(w, w');
    forall s: nat, k: nat ensures EntryOk(w', s, k) { assert EntryOk(w, s, k); }
    forall q | 0 <= q < |w.procs| ensures WaitOk(w', q) { assert WaitOk(w, q); }
    forall q, z | 0 <= q < |w.procs| && 0 <= z < |w.procs| ensures PlacesOk(w', q, z) { assert PlacesOk(w, q, z); }
    forall q, s: nat | 0 <= q < |w.procs| ensures TagOk(w', q, s, Slack(w', q, p, slack)) {
      assert TagOk(w, q, s, Slack(w, q, p, slack));
    }
  }

  /** The state in which a resumed call runs on. */
  ghost predicate Awake(w: World, w0: World, p: nat)
    requires p < |w.procs| && w.procs[p].frame.Waiting?
  {
    var f := w.procs[p].frame;
    && Running(w0, p, f.members) && OthersStandBy(w, w0, p)
    && w0.procs[p] == w.procs[p].(frame := Idle) && w.procs[p].alive
    && w0.now == w.now && w0.requestSeq == w.requestSeq
    && (forall s: nat, z: nat :: Hold(w0, s, z) == Hold(w, s, z))
    && (forall s :: 0 <= s < |w.pools| ==> w0.pools[s] == w.pools[s].(queue := w0.pools[s].queue))
    && PlaceFree(w0, p, f.place) && f.place.number != 0
    && |f.members| > 0 && MembersOk(w, f.members) && CallOk(w, p, f)
  }

  lemma AwakeKeeps(w: World, p: nat, events: multiset<Wakeup>)
    requires Inv(w) && p < |w.procs| && w.procs[p].frame.Waiting? && KeepsOthersEvents(w, events, p)
    ensures Awake(w, Awaken(w.(events := events), p), p)
  {
    var w1 := Awaken(w, p);
    var w0 := Awaken(w.(events := events), p);
    var f := w.procs[p].frame;
    AwakenKeeps(w, p);
    assert WaitOk(w, p);
    DropEvents(w1, p, f.members, events);
    assert w0 == w1.(events := events);
    forall q | 0 <= q < |w.procs| && q != p ensures Bystander(w, w0, q) {
      assert w0.procs[q] == w.procs[q];
      forall s: nat ensures Hold(w0, s, q) == Hold(w, s, q) { assert Hold(w1, s, q) == Hold(w, s, q); }
    }
    forall q | 0 <= q < |w.procs| && q != p && w0.procs[q].frame.Waiting?
      ensures var g := w0.procs[q].frame.place;
        && g.number != f.place.number
        && (g.number < f.place.number ==> g.time <= f.place.time)
        && (f.place.number < g.number ==> f.place.time <= g.time)
    {
      assert PlacesOk(w, p, q) && PlacesOk(w, q, p) && w0.procs[q] == w.procs[q];
    }
    forall s: nat, z: nat ensures Hold(w0, s, z) == Hold(w, s, z) { assert Hold(w1, s, z) == Hold(w, s, z); }
  }

  /** The call is over and the process has what it had at `w`, but for pool r. */
  ghost predicate CallEnds(w: World, w': World, p: nat, r: nat, h: Option<Holding>)
  {
    && p < |w.procs| && OthersStandBy(w, w', p)
    && w'.procs[p].frame.Idle? && w'.procs[p].alive == w.procs[p].alive && w'.procs[p].priority == w.procs[p].priority
    && Hold(w', r, p) == h
    && (forall s: nat :: s != r ==> Hold(w', s, p) == Hold(w, s, p))
  }

  /** There is a holding to go back to the start with, or no need of one. */
  ghost predicate CanRollBack(w: World, p: nat, r: nat, rq: Request, call: Call) {
    p < |w.procs| && call.Take? && (ClaimOk(w, p, r, rq, call) || (call.entry.None? && Hold(w, r, p).None?))
  }

  /** An interrupted call: the holding is the very one the call began with. */
  lemma RollbackKeeps(w: World, p: nat, r: nat, rq: Request, call: Call)
    requires Running(w, p, [r]) && r < |w.pools| && CanRollBack(w, p, r, rq, call) && w.procs[p].frame.Idle?
    ensures var w' := Rollback(w, p, r, call.entry); Inv(w') && CallEnds(w, w', p, r, call.entry)
  {
    hide SignalGuard, SetRank, GiveBack, Running, OthersStandBy, SettleTag;
    var held := Held(w, r, p);
    var w1 := GiveBack(w, r, p, held - AmountOf(call.entry));
    PoolIsOkIn(w, r, p, [r]);
    GiveBackKeeps(w, r, p, held - AmountOf(call.entry), [r]);
    HoldingStandBy(w, w1, r, p);
    match call.entry
    case Some(t) =>
      var w2 := SetRank(w1, r, p, t.rank, t.item.fixed);
      var w3 := SignalGuard(w2, r);
      SetRankKeeps(w1, r, p, t.rank, t.item.fixed, [r]);
      HoldingStandBy(w1, w2, r, p);
      SignalKeeps(w2, r, p, [r]);
      SignalStandBy(w2, w3, r, p);
      StandByTrans(w, w1, w2, p);
      StandByTrans(w, w2, w3, p);
      SettleOne(w, w3, p, r, call.entry);
    case None =>
      SettleOne(w, w1, p, r, None);
  }

  /** Settling the tag of a finished call on one pool. */
  lemma SettleOne(w: World, w1: World, p: nat, r: nat, h: Option<Holding>)
    requires CallEnds(w, w1, p, r, h) && Running(w1, p, [r])
    ensures Inv(SettleTag(w1, p, r)) && CallEnds(w, SettleTag(w1, p, r), p, r, h)
  {
    var w' := SettleTag(w1, p, r);
    SettleTagKeeps(w1, p, r, [r]);
    forall s: nat, q: nat ensures Hold(w', s, q) == Hold(w1, s, q) {}
    Settled(w', p, [r]);
    forall q | 0 <= q < |w.procs| && q != p ensures Bystander(w1, w', q) {
      forall s: nat ensures Hold(w', s, q) == Hold(w1, s, q) {}
    }
    StandByTrans(w, w1, w', p);
  }

  /** What a resumed acquire or preempt does with each signal. */
  ghost predicate ResumeTakeOk(w: World, w': World, out: Outcome, p: nat, sig: Signal)
    requires p < |w.procs| == |w'.procs| && |w.pools| == |w'.pools|
    requires w.procs[p].frame.Waiting? && w.procs[p].frame.call.Take? && |w.procs[p].frame.members| == 1
    requires w.procs[p].frame.members[0] < |w.pools|
  {
    var f := w.procs[p].frame;
    var r := f.members[0];
    if sig == Success then AttemptOk(w, w', out, p, r, f.rq, f.place, f.call)
    else if sig == Preempted then out == Returned(sig) && CallEnds(w, w', p, r, Hold(w, r, p))
    else out == Returned(sig) && CallEnds(w, w', p, r, f.call.entry)
  }

  lemma ResumeTakeKeeps(w: World, p: nat, sig: Signal, cancelled: bool, events: multiset<Wakeup>)
    requires Inv(w) && w.requestSeq < SEQ_MASK && p < |w.procs| && w.procs[p].frame.Waiting? && w.procs[p].frame.call.Take?
    requires KeepsOthersEvents(w, events, p) && FrameOk(w, p)
    requires MayResume(w, p, sig)
    ensures var (w', out) := Resume(w.(events := events), p, sig, cancelled);
      Inv(w') && ResumeTakeOk(w, w', out, p, sig)
  {
    hide SignalGuard, Attempt, Rollback, Awaken, SettleTag;
    var f := w.procs[p].frame;
    var r := f.members[0];
    var wv := w.(events := events);
    var w0 := Awaken(wv, p);
    AwakeKeeps(w, p, events);
    assert f.members == [r];
    var queued := !cancelled && Entry(wv, r, f.key).Some?;
    var w1 := if !queued && sig != Success && sig != Cancelled then SignalGuard(w0, r) else w0;
    PassOn(w, w0, w1, p, r);
    if sig == Success {
      AttemptKeeps(w1, p, r, f.rq, f.place, f.call);
      StandByTrans(w, w1, Attempt(w1, p, r, f.rq, f.place, f.call).0, p);
    } else if sig == Preempted {
      SettleOne(w, w1, p, r, Hold(w, r, p));
    } else {
      RollbackKeeps(w1, p, r, f.rq, f.call);
      StandByTrans(w, w1, Rollback(w1, p, r, f.call.entry), p);
    }
  }

  /** The wait's epilogue, whether or not it signals. */
  lemma PassOn(w: World, w0: World, w1: World, p: nat, r: nat)
    requires p < |w.procs| && w.procs[p].frame.Waiting? && Awake(w, w0, p) && w.procs[p].frame.members == [r]
    requires r < |w0.pools| && (w1 == w0 || w1 == SignalGuard(w0, r))
    ensures Running(w1, p, [r]) && OthersStandBy(w, w1, p) && w1.procs[p] == w0.procs[p]
    ensures w1.now == w.now && w1.requestSeq == w.requestSeq && PlaceFree(w1, p, w.procs[p].frame.place)
    ensures forall s: nat, z: nat :: Hold(w1, s, z) == Hold(w, s, z)
    ensures w.procs[p].frame.call.Take? ==>
      if StakeLost(w, p) then Hold(w1, r, p).None? else ClaimOk(w1, p, r, w.procs[p].frame.rq, w.procs[p].frame.call)
  {
    if w1 != w0 {
      SignalKeeps(w0, r, p, [r]);
      SignalStandBy(w0, w1, r, p);
      StandByTrans(w, w0, w1, p);
      NewPlaceFree(w0, w1, p, w.procs[p].frame.place) by { SignalStandBy(w0, w1, r, p); }
    }
  }

  // ---- acquire_any ----

  /** The holding of h's process with one unit more, ranked as the request. */
  ghost predicate OneMore(h: Option<Holding>, h': Option<Holding>, rq: Request, proc: Proc) {
    && h'.Some? && h'.value.item == Stake(AmountOf(h) + 1, rq.fixed) && h'.value.rank == RequestRank(rq, proc)
    && (h.Some? ==> h'.value.time == h.value.time)
  }

  /** What a pass of acquire_any, or the end of one, leaves: one unit more of
      the member it names by its first listing; or the call waits in every
      member, none of which has room; or nothing changed in its holdings. */
  ghost predicate AnyOk(w: World, w': World, out: Outcome, p: nat, members: seq<nat>, rq: Request, place: Place)
    requires p < |w.procs| == |w'.procs| && |w'.pools| == |w.pools| && MembersOk(w, members)
  {
    && OthersStandBy(w, w', p) && w'.procs[p].alive && w'.procs[p].priority == w.procs[p].priority
    && (match out
        case Index(i) =>
          && i < |members| && i == FirstListing(members, members[i]) && w'.procs[p].frame.Idle?
          && OneMore(Hold(w, members[i], p), Hold(w', members[i], p), rq, w.procs[p])
          && (forall s: nat :: s != members[i] ==> Hold(w', s, p) == Hold(w, s, p))
        case Suspended =>
          && w'.procs[p].frame.Waiting?
          && (forall i :: 0 <= i < |members| ==> Room(w'.pools[members[i]]) == 0)
          && (forall s: nat :: Hold(w', s, p) == Hold(w, s, p))
          && (var f := w'.procs[p].frame;
              && f.members == members && f.rq == rq && f.status.Queued? && f.call.TakeAny?
              && (place.number != 0 ==> f.place.number == place.number && f.place.time == place.time))
        case Returned(sig) =>
          && sig != Success && w'.procs[p].frame.Idle? && (forall s: nat :: Hold(w', s, p) == Hold(w, s, p))
        case _ => false)
  }

  lemma FirstListingIs(members: seq<nat>, i: nat)
    requires i < |members| && forall j :: 0 <= j < i ==> members[j] != members[i]
    ensures FirstListing(members, members[i]) == i
  {
  }

  lemma SameFirstWithRoom(w: World, w0: World, members: seq<nat>)
    requires MembersOk(w, members) && |w0.pools| == |w.pools|
    requires forall s :: 0 <= s < |w.pools| ==> Room(w0.pools[s]) == Room(w.pools[s])
    ensures FirstWithRoom(w0, members) == FirstWithRoom(w, members)
  {
  }

  lemma SettleStandBy(w: World, w': World, p: nat)
    requires p < |w.procs| == |w'.procs| && w' == w.(procs := w'.procs)
    requires w'.procs == w.procs[p := w.procs[p].(tags := w'.procs[p].tags)]
    ensures OthersStandBy(w, w', p)
    ensures forall s: nat, z: nat :: Hold(w', s, z) == Hold(w, s, z)
  {
    forall s: nat, z: nat ensures Hold(w', s, z) == Hold(w, s, z) {}
  }

  /** One unit of r joins the caller's holding there, and the rest is passed on. */
  lemma TakeOneUnit(w: World, p: nat, r: nat, rq: Request, slack: seq<nat>)
    requires Running(w, p, slack) && p < |w.procs| && w.procs[p].alive && w.procs[p].frame.Idle?
    requires r < |w.pools| && Room(w.pools[r]) > 0
    ensures var w' := SignalGuard(TakeUnits(SetRank(w, r, p, RequestRank(rq, w.procs[p]), rq.fixed), r, p, 1, rq), r);
      && Running(w', p, slack) && OthersStandBy(w, w', p) && SameRunner(w, w', p)
      && OneMore(Hold(w, r, p), Hold(w', r, p), rq, w.procs[p]) && (forall s: nat :: s != r ==> Hold(w', s, p) == Hold(w, s, p))
  {
    hide SetRank, TakeUnits, SignalGuard;
    var rank := RequestRank(rq, w.procs[p]);
    var w1 := SetRank(w, r, p, rank, rq.fixed);
    var w2 := TakeUnits(w1, r, p, 1, rq);
    var w3 := SignalGuard(w2, r);
    SetRankKeeps(w, r, p, rank, rq.fixed, slack);
    HoldingStandBy(w, w1, r, p);
    TakeKeeps(w1, r, p, 1, rq, slack);
    HoldingStandBy(w1, w2, r, p);
    SignalKeeps(w2, r, p, slack);
    SignalStandBy(w2, w3, r, p);
    StandByTrans(w, w1, w2, p);
    StandByTrans(w, w2, w3, p);
  }

  lemma TakeOneKeeps(w: World, p: nat, members: seq<nat>, i: nat, rq: Request, place: Place)
    requires Running(w, p, members) && p < |w.procs| && w.procs[p].alive && w.procs[p].frame.Idle?
    requires i < |members| && MembersOk(w, members) && Room(w.pools[members[i]]) > 0 && i == FirstListing(members, members[i])
    ensures var w' := TakeOne(w, p, members, i, rq); Inv(w') && AnyOk(w, w', Index(i), p, members, rq, place)
  {
    hide SetRank, TakeUnits, SignalGuard, SettleTags, Running;
    var w3 := SignalGuard(TakeUnits(SetRank(w, members[i], p, RequestRank(rq, w.procs[p]), rq.fixed), members[i], p, 1, rq), members[i]);
    var w4 := SettleTags(w3, p, members);
    TakeOneUnit(w, p, members[i], rq, members);
    SettleTagsKeeps(w3, p, members, members);
    SettleStandBy(w3, w4, p);
    Settled(w4, p, members);
    StandByTrans(w, w3, w4, p);
  }

  lemma AttemptAnyKeeps(w: World, p: nat, members: seq<nat>, rq: Request, place: Place)
    requires Running(w, p, members) && p < |w.procs| && w.procs[p].alive && w.procs[p].frame.Idle?
    requires |members| > 0 && MembersOk(w, members) && PlaceFree(w, p, place) && w.requestSeq < SEQ_MASK
    ensures var (w', out) := AttemptAny(w, p, members, rq, place);
      Inv(w') && AnyOk(w, w', out, p, members, rq, place) && !out.Returned?
  {
    hide TakeOne;
    var i := FirstWithRoom(w, members);
    if i < |members| {
      FirstListingIs(members, i);
      TakeOneKeeps(w, p, members, i, rq, place);
    } else {
      var w' := Suspend(w, p, members, rq, place, TakeAny);
      SuspendKeeps(w, p, members, rq, place, TakeAny);
      SuspendStandBy(w, w', p, w'.procs[p].frame.place, w'.procs[p].frame);
      forall j | 0 <= j < |members| ensures Room(w'.pools[members[j]]) == 0 {
        assert w'.pools[members[j]] == w.pools[members[j]].(queue := w'.pools[members[j]].queue);
      }
    }
  }

  /** A signal from a call of p, as far as p and the holdings go. */
  lemma SignalLeaves(w: World, r: nat, p: nat, slack: seq<nat>)
    requires Running(w, p, slack) && r < |w.pools| && p < |w.procs| && w.procs[p].frame.Idle?
    ensures var w' := SignalGuard(w, r);
      && Running(w', p, slack) && OthersStandBy(w, w', p) && w'.procs[p] == w.procs[p]
      && (forall s: nat, z: nat :: Hold(w', s, z) == Hold(w, s, z))
  {
    hide SignalGuard, Running;
    SignalKeeps(w, r, p, slack);
    SignalStandBy(w, SignalGuard(w, r), r, p);
  }

  lemma {:induction false} SignalEachKeeps(w: World, members: seq<nat>, i: nat, p: nat, slack: seq<nat>)
    requires Running(w, p, slack) && i <= |members| && MembersOk(w, members) && p < |w.procs| && w.procs[p].frame.Idle?
    ensures var w' := SignalEach(w, members, i);
      && Running(w', p, slack) && OthersStandBy(w, w', p) && w'.procs[p] == w.procs[p]
      && (forall s: nat, z: nat :: Hold(w', s, z) == Hold(w, s, z))
    decreases |members| - i
  {
    hide SignalGuard, Running, OthersStandBy, Hold, SignalEach;
    if i == |members| {
      NothingYet(w, p);
      SignalEachEnds(w, members);
    } else if members[i] in members[..i] {
      SignalEachTurn(w, members, i);
      SignalEachKeeps(w, members, i + 1, p, slack);
    } else {
      var w1 := SignalGuard(w, members[i]);
      SignalEachTurn(w, members, i);
      SignalLeaves(w, members[i], p, slack);
      SignalEachKeeps(w1, members, i + 1, p, slack);
      StandByTrans(w, w1, SignalEach(w1, members, i + 1), p);
    }
  }

  lemma SignalEachEnds(w: World, members: seq<nat>)
    requires MembersOk(w, members)
    ensures SignalEach(w, members, |members|) == w
  {
  }

  lemma SignalEachTurn(w: World, members: seq<nat>, i: nat)
    requires i < |members| && MembersOk(w, members)
    ensures var w1 := if members[i] in members[..i] then w else SignalGuard(w, members[i]);
      MembersOk(w1, members) && SignalEach(w, members, i) == SignalEach(w1, members, i + 1)
    ensures members[i] < |w.pools|
  {
  }

  lemma ResumeAnyKeeps(w: World, p: nat, sig: Signal, cancelled: bool, events: multiset<Wakeup>)
    requires Inv(w) && w.requestSeq < SEQ_MASK && p < |w.procs| && w.procs[p].frame.Waiting? && w.procs[p].frame.call.TakeAny?
    requires KeepsOthersEvents(w, events, p) && FrameOk(w, p)
    ensures var (w', out) := Resume(w.(events := events), p, sig, cancelled);
      Inv(w') && AnyOk(w, w', out, p, w.procs[p].frame.members, w.procs[p].frame.rq, w.procs[p].frame.place)
      && (out.Returned? ==> out.sig == sig)
  {
    hide SignalGuard, TakeOne, AttemptAny, Awaken, SettleTags, SignalEach;
    var f := w.procs[p].frame;
    var w0 := Awaken(w.(events := events), p);
    AwakeKeeps(w, p, events);
    assert WaitOk(w, p);
    if sig == Success {
      if f.status.Granted? && f.status.winner < |f.members| && Room(w0.pools[f.members[f.status.winner]]) > 0 {
        TakeOneKeeps(w0, p, f.members, f.status.winner, f.rq, f.place);
        StandByTrans(w, w0, TakeOne(w0, p, f.members, f.status.winner, f.rq), p);
      } else {
        AttemptAnyKeeps(w0, p, f.members, f.rq, f.place);
        StandByTrans(w, w0, AttemptAny(w0, p, f.members, f.rq, f.place).0, p);
      }
    } else {
      var w1 := if sig == Cancelled then w0 else SignalEach(w0, f.members, 0);
      SignalEachKeeps(w0, f.members, 0, p, f.members);
      NothingYet(w0, p);
      StandByTrans(w, w0, w1, p);
      var w2 := SettleTags(w1, p, f.members);
      SettleTagsKeeps(w1, p, f.members, f.members);
      SettleStandBy(w1, w2, p);
      Settled(w2, p, f.members);
      StandByTrans(w, w1, w2, p);
    }
  }
}
