/** No grant is lost: while a pool has room and a queue, somebody is on the way
    to take from it or to signal it again. Also how in_use may move. */
module ResourceGrants {
  import opened HashHeap
  import opened WaitKeys
  import opened ResourceModel
  import opened ResourceInvariant
  import opened ResourceSteps
  import opened ResourceRuns

  /** A process that will look at pool r again without being signalled: it has
      a grant of r it has not used, or it was thrown out while it waited at r,
      so that its epilogue signals r. */
  ghost predicate Token(w: World, q: nat, r: nat) {
    q < |w.procs| && w.procs[q].frame.Waiting? &&
    var f := w.procs[q].frame;
    match f.status
    case Queued => false
    case Granted(i) => i < |f.members| && f.members[i] == r
    case Evicted => r in f.members
  }

  ghost predicate Heeded(w: World, r: nat) {
    r < |w.pools| ==>
      Room(w.pools[r]) == 0 || w.pools[r].queue == [] || exists q :: Token(w, q, r)
  }

  /** How a change within a step treats the pools: in_use rises no further than
      the capacity, and a heeded pool outside `except` stays heeded. */
  ghost predicate Flow(w: World, w': World, except: set<nat>) {
    && |w'.pools| == |w.pools|
    && (forall s :: 0 <= s < |w.pools| ==>
          && w'.pools[s].capacity == w.pools[s].capacity && w'.pools[s].maxCapacity == w.pools[s].maxCapacity
          && (w'.pools[s].inUse <= w.pools[s].inUse || w'.pools[s].inUse <= w'.pools[s].capacity))
    && (forall s: nat :: s !in except && Heeded(w, s) ==> Heeded(w', s))
  }

  lemma FlowTrans(a: World, b: World, c: World, x: set<nat>, y: set<nat>)
    requires Flow(a, b, x) && Flow(b, c, y)
    ensures Flow(a, c, x + y)
  {
  }

  lemma FlowChain(a: World, b: World, c: World)
    requires Flow(a, b, {}) && Flow(b, c, {})
    ensures Flow(a, c, {})
  {
  }

  /** An exception is lifted by heeding the pool in the end. */
  lemma FlowHeals(a: World, b: World, x: set<nat>, y: set<nat>)
    requires Flow(a, b, x) && forall s :: s in x && s !in y ==> Heeded(b, s)
    ensures Flow(a, b, y)
  {
  }

  lemma SameTokens(w: World, w': World)
    requires |w'.procs| == |w.procs| && forall q :: 0 <= q < |w.procs| ==> w'.procs[q].frame == w.procs[q].frame
    ensures forall q: nat, s: nat :: Token(w', q, s) == Token(w, q, s)
  {
  }

  /** Taking units, or re-ranking a holding. */
  lemma HoldingFlow(w: World, w': World, r: nat, p: nat)
    requires OnlyHolding(w, w', r, p) && r < |w.pools|
    requires w'.pools[r] == w.pools[r].(inUse := w'.pools[r].inUse, holders := w'.pools[r].holders)
    requires w.pools[r].inUse <= w'.pools[r].inUse && (w'.pools[r].inUse == w.pools[r].inUse || w'.pools[r].inUse <= w.pools[r].capacity)
    ensures Flow(w, w', {})
  {
    SameTokens(w, w');
    forall s: nat | Heeded(w, s) ensures Heeded(w', s) {
      if s < |w.pools| && w.pools[s].queue != [] && Room(w'.pools[s]) > 0 {
        var q :| Token(w, q, s);
        assert Token(w', q, s);
      }
    }
  }

  /** Giving units back leaves only that pool in doubt. */
  lemma GiveBackFlow(w: World, w': World, r: nat, p: nat)
    requires OnlyHolding(w, w', r, p) && r < |w.pools|
    requires w'.pools[r] == w.pools[r].(inUse := w'.pools[r].inUse, holders := w'.pools[r].holders)
    requires w'.pools[r].inUse <= w.pools[r].inUse
    ensures Flow(w, w', {r})
  {
    SameTokens(w, w');
    forall s: nat | s != r && Heeded(w, s) ensures Heeded(w', s) {
      if s < |w.pools| && w.pools[s].queue != [] && Room(w'.pools[s]) > 0 {
        var q :| Token(w, q, s);
        assert Token(w', q, s);
      }
    }
  }

  lemma EntriesShrink(w: World, w': World, s: nat)
    requires s < |w.pools| == |w'.pools| && DistinctKeys(w'.pools[s].queue)
    requires forall k: nat :: Entry(w', s, k).Some? ==> Entry(w, s, k).Some?
    ensures w'.pools[s].queue != [] ==> w.pools[s].queue != []
  {
    if w'.pools[s].queue != [] {
      FrontIsFound(w'.pools[s].queue);
      assert Entry(w', s, w'.pools[s].queue[0].key).Some?;
    }
  }

  /** A signal heeds its pool and keeps the others heeded. */
  lemma SignalFlow(w: World, r: nat, p: nat, slack: seq<nat>)
    requires Running(w, p, slack) && r < |w.pools|
    ensures Flow(w, SignalGuard(w, r), {}) && Heeded(SignalGuard(w, r), r)
  {
    var w' := SignalGuard(w, r);
    SignalKeeps(w, r, p, slack);
    hide Running;
    var pool := w.pools[r];
    if pool.queue != [] && Room(pool) > 0 {
      FrontIsFound(pool.queue);
      var q := pool.queue[0].item;
      assert Token(w', q, r) by { FrontGranted(w, r, p, slack); }
    }
    forall s: nat | Heeded(w, s) ensures Heeded(w', s) {
      if s < |w.pools| && w'.pools[s].queue != [] && Room(w'.pools[s]) > 0 {
        assert DistinctKeys(w'.pools[s].queue) by { PoolIsOkIn(w', s, p, slack); }
        EntriesShrink(w, w', s);
        var q :| Token(w, q, s);
        assert Token(w', q, s);
      }
    }
  }

  lemma FrontGranted(w: World, r: nat, p: nat, slack: seq<nat>)
    requires Running(w, p, slack) && r < |w.pools| && w.pools[r].queue != [] && Room(w.pools[r]) > 0
    ensures Token(SignalGuard(w, r), w.pools[r].queue[0].item, r)
  {
    FrontIsFound(w.pools[r].queue);
    assert EntryOk(w, r, w.pools[r].queue[0].key);
    GrantKeeps(w, r, w.pools[r].queue[0].item, p, slack);
  }

  lemma EvictFlow(w: World, w': World, r: nat, vs: seq<nat>, p: nat, slack: seq<nat>)
    requires EvictAllEffect(w, w', r, vs) && Running(w', p, slack) && Waits(w) && w'.pools[r].inUse <= w.pools[r].inUse
    ensures Flow(w, w', {r})
  {
    forall s: nat | s != r && Heeded(w, s) ensures Heeded(w', s) {
      if s < |w.pools| && w'.pools[s].queue != [] && Room(w'.pools[s]) > 0 {
        assert PoolOk(w'.pools[s], |w'.procs|);
        EntriesShrink(w, w', s);
        var q :| Token(w, q, s);
        assert WaitOk(w, q);
        assert Token(w', q, s);
      }
    }
  }

  lemma SuspendFlow(w: World, p: nat, members: seq<nat>, rq: Request, place: Place, call: Call)
    requires p < |w.procs| && MembersOk(w, members) && w.procs[p].frame.Idle?
    requires forall i :: 0 <= i < |members| ==> Room(w.pools[members[i]]) == 0
    ensures Flow(w, Suspend(w, p, members, rq, place, call), {})
  {
    var w' := Suspend(w, p, members, rq, place, call);
    forall s: nat | Heeded(w, s) ensures Heeded(w', s) {
      if s < |w.pools| && Room(w.pools[s]) > 0 && w'.pools[s].queue != [] {
        assert w'.pools[s] == w.pools[s];
        var q :| Token(w, q, s);
        assert Token(w', q, s);
      }
    }
  }

  /** Settling tags touches no pool and no frame. */
  lemma SettleFlow(w: World, w': World, p: nat)
    requires p < |w.procs| == |w'.procs| && w'.pools == w.pools
    requires w'.procs == w.procs[p := w.procs[p].(tags := w'.procs[p].tags)]
    ensures Flow(w, w', {}) && forall s: nat :: Heeded(w', s) == Heeded(w, s)
  {
    SameTokens(w, w');
    forall s: nat ensures Heeded(w', s) == Heeded(w, s) {
      if exists q :: Token(w, q, s) { var q :| Token(w, q, s); assert Token(w', q, s); }
      if exists q :: Token(w', q, s) { var q :| Token(w', q, s); assert Token(w, q, s); }
    }
  }

  /** The pools in doubt when p leaves its queues: those it was a token for. */
  ghost function TokensOf(w: World, p: nat): set<nat> {
    set s | 0 <= s < |w.pools| && Token(w, p, s)
  }

  lemma AwakeFlow(w: World, p: nat, events: multiset<Wakeup>)
    requires Inv(w) && p < |w.procs| && w.procs[p].frame.Waiting? && KeepsOthersEvents(w, events, p)
    ensures Flow(w, Awaken(w.(events := events), p), TokensOf(w, p))
  {
    var w0 := Awaken(w.(events := events), p);
    AwakeKeeps(w, p, events);
    AwakeShrinks(w, p, events);
    forall s: nat | s !in TokensOf(w, p) && Heeded(w, s) ensures Heeded(w0, s) {
      if s < |w.pools| && w0.pools[s].queue != [] && Room(w0.pools[s]) > 0 {
        var q :| Token(w, q, s);
        assert q != p;
        assert Token(w0, q, s);
      }
    }
  }

  /** What remains queued is what the others queued; the others keep their frames. */
  lemma AwakeShrinks(w: World, p: nat, events: multiset<Wakeup>)
    requires Inv(w) && p < |w.procs| && w.procs[p].frame.Waiting?
    ensures var w0 := Awaken(w.(events := events), p);
      && (forall q :: 0 <= q < |w.procs| && q != p ==> w0.procs[q] == w.procs[q])
      && (forall s :: 0 <= s < |w.pools| && w0.pools[s].queue != [] ==> w.pools[s].queue != [])
      && (forall s :: 0 <= s < |w.pools| ==>
            (w0.pools[s].queue != [] <==> exists k: nat :: Entry(w, s, k).Some? && Entry(w, s, k).value.item != p))
  {
    var f := w.procs[p].frame;
    var wv := w.(events := events);
    var w0 := Awaken(wv, p);
    SamePools(w, wv);
    WithdrawEffect(wv, f.members, f.key);
    SamePools(Withdraw(wv, f.members, f.key), w0);
    forall s | 0 <= s < |w.pools|
      ensures w0.pools[s].queue != [] <==> exists k: nat :: Entry(w, s, k).Some? && Entry(w, s, k).value.item != p
      ensures w0.pools[s].queue != [] ==> w.pools[s].queue != []
    {
      RemainingQueue(w, w0, p, s);
    }
  }

  lemma RemainingQueue(w: World, w0: World, p: nat, s: nat)
    requires Inv(w) && p < |w.procs| && w.procs[p].frame.Waiting? && s < |w.pools| == |w0.pools|
    requires PoolOk(w0.pools[s], |w.procs|)
    requires forall k: nat :: Entry(w0, s, k) ==
               (if k == w.procs[p].frame.key && s in w.procs[p].frame.members then None else Entry(w, s, k))
    ensures w0.pools[s].queue != [] <==> exists k: nat :: Entry(w, s, k).Some? && Entry(w, s, k).value.item != p
    ensures w0.pools[s].queue != [] ==> w.pools[s].queue != []
  {
    if w0.pools[s].queue != [] {
      FrontIsFound(w0.pools[s].queue);
      var k := w0.pools[s].queue[0].key;
      assert Entry(w0, s, k).Some?;
      assert Entry(w, s, k).Some? && EntryOk(w, s, k);
    }
    if k: nat :| Entry(w, s, k).Some? && Entry(w, s, k).value.item != p {
      assert EntryOk(w, s, k);
      KeysDiffer(w, Entry(w, s, k).value.item, p);
      assert Entry(w0, s, k).Some?;
    }
  }

  // ---- Calls ----

  lemma TakeFlow(w: World, r: nat, p: nat, n: int, rq: Request, slack: seq<nat>)
    requires Running(w, p, slack) && p < |w.procs| && r < |w.pools| && w.procs[p].alive && w.procs[p].frame.Idle?
    requires 0 <= n <= Room(w.pools[r])
    ensures Flow(w, if n > 0 then TakeUnits(w, r, p, n, rq) else w, {})
  {
    if n > 0 {
      TakeKeeps(w, r, p, n, rq, slack);
      HoldingFlow(w, TakeUnits(w, r, p, n, rq), r, p);
    }
  }

  lemma PreemptFlow(w: World, p: nat, r: nat, rem: nat, rq: Request, slack: seq<nat>)
    requires Running(w, p, slack) && p < |w.procs| && r < |w.pools| && w.procs[p].alive && w.procs[p].frame.Idle?
    requires Room(w.pools[r]) == 0 && rem > 0
    requires Hold(w, r, p).Some? ==> Hold(w, r, p).value.rank >= RequestRank(rq, w.procs[p])
    ensures Flow(w, PreemptFor(w, p, r, rem, rq).0, {r})
  {
    hide EvictAll, TakeUnits, VictimCount;
    var pool := w.pools[r];
    var need := rem + pool.inUse - pool.capacity;
    var rank := RequestRank(rq, w.procs[p]);
    var vs := Keys(pool.holders[..VictimCount(pool.holders, rank, need)]);
    VictimsLeave(w, p, r, need, rank, slack);
    var w1 := EvictAll(w, r, vs);
    EvictFlow(w, w1, r, vs, p, slack);
    var got := Min(Room(w1.pools[r]), rem);
    TakeFlow(w1, r, p, got, rq, slack);
    FlowTrans(w, w1, PreemptFor(w, p, r, rem, rq).0, {r}, {});
  }

  /** An attempt ends with a signal, or with no room left: its pool is heeded. */
  lemma FinishFlow(w: World, w2: World, p: nat, r: nat, rq: Request, place: Place, call: Call, rem: nat, slack: seq<nat>)
    requires Running(w2, p, slack) && r < |w.pools| && p < |w2.procs| && w2.procs[p].frame.Idle?
    requires Flow(w, w2, {r})
    requires rem > 0 ==> Room(w2.pools[r]) == 0
    ensures var w' := if rem == 0 then SignalGuard(w2, r) else Suspend(w2, p, [r], rq, place, call);
      Flow(w, w', {}) && Heeded(w', r)
  {
    hide Running;
    var w' := if rem == 0 then SignalGuard(w2, r) else Suspend(w2, p, [r], rq, place, call);
    if rem == 0 {
      SignalFlow(w2, r, p, slack);
    } else {
      SuspendFlow(w2, p, [r], rq, place, call);
      assert w'.pools[r] == w2.pools[r].(queue := w'.pools[r].queue);
    }
    FlowTrans(w, w2, w', {r}, {});
    FlowHeals(w, w', {r} + {}, {});
  }

  lemma AttemptFlow(w: World, p: nat, r: nat, rq: Request, place: Place, call: Call)
    requires Running(w, p, [r]) && r < |w.pools| && ClaimOk(w, p, r, rq, call)
    requires w.procs[p].alive && w.procs[p].frame.Idle?
    ensures var w' := Attempt(w, p, r, rq, place, call).0; Flow(w, w', {}) && Heeded(w', r)
  {
    hide PreemptFor, TakeUnits, Suspend, SignalGuard, Running, StakeOk, Flow, Heeded, OthersStandBy;
    var available := Room(w.pools[r]);
    var first := Min(available, call.remaining);
    var w1 := if first > 0 then TakeUnits(w, r, p, first, rq) else w;
    TakeUpTo(w, w, p, r, call.remaining, rq, [r]) by { NothingYet(w, p); }
    TakeFlow(w, r, p, first, rq, [r]);
    StakeGains(w, w1, r, p, rq, call, first);
    FlowHeals(w, w1, {}, {r});
    if available >= call.remaining {
      FinishFlow(w, w1, p, r, rq, place, call, 0, [r]);
    } else if !call.preempt {
      FinishFlow(w, w1, p, r, rq, place, call.(remaining := call.remaining - first), call.remaining - first, [r]);
    } else {
      var rem := call.remaining - first;
      var (w2, got) := PreemptFor(w1, p, r, rem, rq);
      RankOfStake(w1, r, p, rq, call.(remaining := rem));
      PreemptKeeps(w1, p, r, rem, rq, [r]);
      PreemptFlow(w1, p, r, rem, rq, [r]);
      FlowTrans(w, w1, w2, {r}, {r});
      FlowHeals(w, w2, {r} + {r}, {r});
      FinishFlow(w, w2, p, r, rq, place, call.(remaining := rem - got), rem - got, [r]);
    }
  }

  lemma StartAcquireFlow(w: World, p: nat, r: nat, amount: nat, preempt: bool, rq: Request)
    requires Inv(w) && CanCall(w, p) && r < |w.pools|
    ensures Flow(w, StartAcquire(w, p, r, amount, preempt, rq).0, {})
  {
    if 0 < amount <= INT64_MAX {
      hide Attempt, SetRank;
      var rank := RequestRank(rq, w.procs[p]);
      var w1 := SetRank(w, r, p, rank, rq.fixed);
      var call := Take(amount, amount, preempt, Hold(w, r, p));
      Unsettled(w, p, [r]);
      PoolIsOk(w, r);
      SetRankKeeps(w, r, p, rank, rq.fixed, [r]);
      HoldingFlow(w, w1, r, p);
      AttemptFlow(w1, p, r, rq, Unplaced, call);
      FlowTrans(w, w1, Attempt(w1, p, r, rq, Unplaced, call).0, {}, {});
    }
  }

  /** The rollback of a call that began with a holding signals; that of a call
      that began with none does not. */
  lemma RollbackFlow(w: World, p: nat, r: nat, rq: Request, call: Call)
    requires Running(w, p, [r]) && r < |w.pools| && CanRollBack(w, p, r, rq, call) && w.procs[p].frame.Idle?
    ensures Flow(w, Rollback(w, p, r, call.entry), {r})
    ensures call.entry.Some? ==> Heeded(Rollback(w, p, r, call.entry), r)
  {
    hide SignalGuard, SetRank, GiveBack, SettleTag, Running, Heeded, Flow;
    var n := Held(w, r, p) - AmountOf(call.entry);
    var w1 := GiveBack(w, r, p, n);
    PoolIsOkIn(w, r, p, [r]);
    GiveBackKeeps(w, r, p, n, [r]);
    GiveBackFlow(w, w1, r, p);
    match call.entry
    case Some(t) => RestoreFlow(w, w1, p, r, t);
    case None =>
      SettleTagKeeps(w1, p, r, [r]);
      SettleTagFlow(w1, p, r);
      FlowTrans(w, w1, SettleTag(w1, p, r), {r}, {});
      assert {r} + {} == {r};
  }

  lemma SettleTagFlow(w: World, p: nat, r: nat)
    requires p < |w.procs|
    ensures Flow(w, SettleTag(w, p, r), {}) && (Heeded(w, r) ==> Heeded(SettleTag(w, p, r), r))
  {
    SettleFlow(w, SettleTag(w, p, r), p);
  }

  /** The rank and flag go back, and the surplus is passed on. */
  lemma RestoreFlow(w: World, w1: World, p: nat, r: nat, t: Holding)
    requires Flow(w, w1, {r}) && Running(w1, p, [r]) && p < |w1.procs| && r < |w1.pools| && w1.procs[p].frame.Idle?
    ensures var w' := SettleTag(SignalGuard(SetRank(w1, r, p, t.rank, t.item.fixed), r), p, r);
      Flow(w, w', {r}) && Heeded(w', r)
  {
    hide SignalGuard, SetRank, SettleTag, Running, Heeded, Flow;
    var w2 := SetRank(w1, r, p, t.rank, t.item.fixed);
    var w3 := SignalGuard(w2, r);
    SetRankKeeps(w1, r, p, t.rank, t.item.fixed, [r]);
    HoldingFlow(w1, w2, r, p);
    SignalFlow(w2, r, p, [r]);
    SettleTagFlow(w3, p, r);
    FlowTrans(w, w1, w2, {r}, {});
    FlowTrans(w, w2, w3, {r} + {}, {});
    FlowTrans(w, w3, SettleTag(w3, p, r), {r} + {} + {}, {});
    assert {r} + {} + {} + {} == {r};
  }

  lemma TakeOneFlow(w: World, p: nat, members: seq<nat>, i: nat, rq: Request)
    requires Running(w, p, members) && p < |w.procs| && w.procs[p].alive && w.procs[p].frame.Idle?
    requires i < |members| && MembersOk(w, members) && Room(w.pools[members[i]]) > 0
    ensures Flow(w, TakeOne(w, p, members, i, rq), {}) && Heeded(TakeOne(w, p, members, i, rq), members[i])
  {
    hide SetRank, TakeUnits, SignalGuard, SettleTags;
    var r := members[i];
    var w1 := SetRank(w, r, p, RequestRank(rq, w.procs[p]), rq.fixed);
    var w2 := TakeUnits(w1, r, p, 1, rq);
    var w3 := SignalGuard(w2, r);
    SetRankKeeps(w, r, p, RequestRank(rq, w.procs[p]), rq.fixed, members);
    HoldingFlow(w, w1, r, p);
    TakeKeeps(w1, r, p, 1, rq, members);
    TakeFlow(w1, r, p, 1, rq, members);
    SignalKeeps(w2, r, p, members);
    SignalFlow(w2, r, p, members);
    SettleTagsKeeps(w3, p, members, members);
    SettleFlow(w3, SettleTags(w3, p, members), p);
    FlowTrans(w, w1, w2, {}, {});
    FlowTrans(w, w2, w3, {} + {}, {});
    FlowTrans(w, w3, SettleTags(w3, p, members), {} + {} + {}, {});
  }

  lemma AttemptAnyFlow(w: World, p: nat, members: seq<nat>, rq: Request, place: Place)
    requires Running(w, p, members) && p < |w.procs| && w.procs[p].alive && w.procs[p].frame.Idle? && MembersOk(w, members)
    ensures Flow(w, AttemptAny(w, p, members, rq, place).0, {})
  {
    hide TakeOne, Suspend;
    var i := FirstWithRoom(w, members);
    if i < |members| {
      TakeOneFlow(w, p, members, i, rq);
    } else {
      SuspendFlow(w, p, members, rq, place, TakeAny);
    }
  }

  lemma {:induction false} SignalEachFlow(w: World, members: seq<nat>, i: nat, p: nat, slack: seq<nat>)
    requires Running(w, p, slack) && i <= |members| && MembersOk(w, members) && p < |w.procs| && w.procs[p].frame.Idle?
    requires forall j :: 0 <= j < i ==> Heeded(w, members[j])
    ensures Flow(w, SignalEach(w, members, i), {})
    ensures forall j :: 0 <= j < |members| ==> Heeded(SignalEach(w, members, i), members[j])
    decreases |members| - i
  {
    hide SignalGuard, Heeded, Running, OthersStandBy, Hold, SignalEach, Flow;
    if i == |members| {
      FlowRefl(w);
      SignalEachEnds(w, members);
    } else if members[i] in members[..i] {
      SignalEachTurn(w, members, i);
      SignalEachFlow(w, members, i + 1, p, slack);
    } else {
      var w1 := SignalGuard(w, members[i]);
      SignalEachTurn(w, members, i);
      SignalLeaves(w, members[i], p, slack);
      SignalFlow(w, members[i], p, slack);
      FlowHeeds(w, w1, members, i);
      SignalEachFlow(w1, members, i + 1, p, slack);
      FlowChain(w, w1, SignalEach(w1, members, i + 1));
    }
  }

  lemma FlowHeeds(w: World, w1: World, members: seq<nat>, i: nat)
    requires Flow(w, w1, {}) && i <= |members| && forall j :: 0 <= j < i ==> Heeded(w, members[j])
    ensures forall j :: 0 <= j < i ==> Heeded(w1, members[j])
  {
  }

  lemma FlowRefl(w: World)
    ensures Flow(w, w, {})
  {
  }

  // ---- Resuming, and exactly when a grant is lost ----

  ghost predicate OthersQueued(w: World, p: nat, r: nat) {
    exists k: nat :: Entry(w, r, k).Some? && Entry(w, r, k).value.item != p
  }

  ghost predicate OtherToken(w: World, p: nat, r: nat) {
    exists q :: q != p && Token(w, q, r)
  }

  /** q is the one whom a signal of m wakes, once one unit of m is taken. */
  ghost predicate NextInLine(w: World, m: nat, q: nat) {
    m < |w.pools| && Room(w.pools[m]) > 1 && w.pools[m].queue != [] && w.pools[m].queue[0].item == q
  }

  /** An acquire_any that was thrown out of its queues takes a unit of another
      member than r, and somebody queues at r whom that does not wake. */
  ghost predicate PassesBy(w: World, p: nat, r: nat)
    requires p < |w.procs| && w.procs[p].frame.Waiting?
  {
    var members := w.procs[p].frame.members;
    r in members && MembersOk(w, members) &&
    var i := FirstWithRoom(w, members);
    i < |members| && members[i] != r
    && exists k: nat :: Entry(w, r, k).Some? && !NextInLine(w, members[i], Entry(w, r, k).value.item)
  }

  /** The resumptions after which room at r goes unnoticed. The call began with
      nothing, is interrupted, and gives its units back in silence; or an
      acquire_any is cancelled while its grant is pending; or one that was
      thrown out is resumed with success and takes a unit elsewhere. All this
      matters only if others queue and none of them has a grant. */
  ghost predicate LosesOnResume(w: World, p: nat, sig: Signal, cancelled: bool, r: nat) {
    && p < |w.procs| && w.procs[p].frame.Waiting? && |w.procs[p].frame.members| > 0 && r < |w.pools|
    && OthersQueued(w, p, r) && !OtherToken(w, p, r)
    && var f := w.procs[p].frame;
       match f.call
       case Take(_, _, _, entry) =>
         && r == f.members[0] && sig != Success && sig != Preempted && entry.None?
         && w.pools[r].inUse - Held(w, r, p) < w.pools[r].capacity
         && !(sig != Cancelled && (cancelled || !f.status.Queued?) && Room(w.pools[r]) > 0)
       case TakeAny =>
         && Room(w.pools[r]) > 0
         && (sig == Cancelled || (sig == Success && f.status.Evicted? && PassesBy(w, p, r)))
  }

  lemma QueuedHasEntry(w: World, p: nat)
    requires Inv(w) && p < |w.procs| && w.procs[p].frame.Waiting?
    ensures forall r :: r in w.procs[p].frame.members ==>
      (Entry(w, r, w.procs[p].frame.key).Some? <==> w.procs[p].frame.status.Queued?)
  {
    var f := w.procs[p].frame;
    assert WaitOk(w, p);
    forall r | r in f.members ensures Entry(w, r, f.key).Some? <==> f.status.Queued? {
      assert EntryOk(w, r, f.key);
      if Entry(w, r, f.key).Some? && Entry(w, r, f.key).value.item != p {
        KeysDiffer(w, Entry(w, r, f.key).value.item, p);
      }
    }
  }

  /** Awake, a pool is heeded if nobody else queues, or somebody else is a token. */
  lemma AwakeHeeded(w: World, p: nat, events: multiset<Wakeup>, s: nat)
    requires Inv(w) && p < |w.procs| && w.procs[p].frame.Waiting? && KeepsOthersEvents(w, events, p) && s < |w.pools|
    ensures var w0 := Awaken(w.(events := events), p);
      && (w0.pools[s].queue == [] <==> !OthersQueued(w, p, s))
      && ((exists q :: Token(w0, q, s)) <==> OtherToken(w, p, s))
      && w0.procs[p].frame.Idle? && Room(w0.pools[s]) == Room(w.pools[s])
  {
    hide Inv, KeepsOthersEvents;
    var w0 := Awaken(w.(events := events), p);
    AwakeShrinks(w, p, events);
    AwakeKeeps(w, p, events);
    if q :| Token(w0, q, s) {
      assert q != p && Token(w, q, s);
    }
    if q :| q != p && Token(w, q, s) {
      assert Token(w0, q, s);
    }
  }

  lemma ResumeTakeFlow(w: World, p: nat, sig: Signal, cancelled: bool, events: multiset<Wakeup>)
    requires Inv(w) && p < |w.procs| && w.procs[p].frame.Waiting? && w.procs[p].frame.call.Take?
    requires KeepsOthersEvents(w, events, p) && FrameOk(w, p)
    requires MayResume(w, p, sig)
    ensures var w' := Resume(w.(events := events), p, sig, cancelled).0; var r := w.procs[p].frame.members[0];
      && Flow(w, w', {r})
      && (Heeded(w, r) ==> (Heeded(w', r) <==> !LosesOnResume(w, p, sig, cancelled, r)))
  {
    hide SignalGuard, Attempt, Rollback, Awaken, SettleTag, Heeded, LosesOnResume, KeepsOthersEvents;
    var f := w.procs[p].frame;
    var r := f.members[0];
    var wv := w.(events := events);
    var w0 := Awaken(wv, p);
    AwakeKeeps(w, p, events);
    AwakeFlow(w, p, events);
    assert f.members == [r];
    var queued := !cancelled && Entry(wv, r, f.key).Some?;
    assert queued == (!cancelled && f.status.Queued?) by { QueuedHasEntry(w, p); SamePools(w, wv); }
    TokenPools(w, p);
    FlowHeals(w, w0, TokensOf(w, p), {r});
    var signals := !queued && sig != Success && sig != Cancelled;
    var w1 := if signals then SignalGuard(w0, r) else w0;
    PassOn(w, w0, w1, p, r);
    if signals { SignalFlow(w0, r, p, [r]); } else { FlowRefl(w0); }
    FlowTrans(w, w0, w1, {r}, {});
    assert {r} + {} == {r};
    if sig == Success {
      AttemptFlow(w1, p, r, f.rq, f.place, f.call);
      FlowTrans(w, w1, Attempt(w1, p, r, f.rq, f.place, f.call).0, {r}, {});
      LosesCases(w, p, sig, cancelled, r);
    } else if sig == Preempted {
      SettleTagKeeps(w1, p, r, [r]);
      SettleFlow(w1, SettleTag(w1, p, r), p);
      FlowTrans(w, w1, SettleTag(w1, p, r), {r}, {});
      LosesCases(w, p, sig, cancelled, r);
      if queued && Heeded(w, r) { QueuedStaysHeeded(w, p, events, r); }
    } else {
      RollbackFlow(w1, p, r, f.rq, f.call);
      FlowTrans(w, w1, Rollback(w1, p, r, f.call.entry), {r}, {r});
      if f.call.entry.Some? {
        LosesCases(w, p, sig, cancelled, r);
      } else {
        SilentRollback(w, p, sig, cancelled, events, w1);
      }
    }
  }

  lemma TokenPools(w: World, p: nat)
    requires Inv(w) && p < |w.procs| && w.procs[p].frame.Waiting?
    ensures forall s :: s in TokensOf(w, p) ==> s in w.procs[p].frame.members
    ensures w.procs[p].frame.status.Queued? ==> TokensOf(w, p) == {}
  {
    assert WaitOk(w, p);
  }

  lemma LosesCases(w: World, p: nat, sig: Signal, cancelled: bool, r: nat)
    requires p < |w.procs| && w.procs[p].frame.Waiting? && w.procs[p].frame.call.Take?
    requires sig == Success || sig == Preempted || w.procs[p].frame.call.entry.Some?
    ensures !LosesOnResume(w, p, sig, cancelled, r)
  {
  }

  lemma QueuedStaysHeeded(w: World, p: nat, events: multiset<Wakeup>, r: nat)
    requires Inv(w) && p < |w.procs| && w.procs[p].frame.Waiting? && w.procs[p].frame.status.Queued?
    requires KeepsOthersEvents(w, events, p) && Heeded(w, r)
    ensures Heeded(Awaken(w.(events := events), p), r)
  {
    AwakeFlow(w, p, events);
    TokenPools(w, p);
  }

  /** Without a signal of its own, a rollback to nothing only makes room. */
  lemma QuietGiveBack(w1: World, p: nat, r: nat)
    requires Running(w1, p, [r]) && p < |w1.procs| && r < |w1.pools| && w1.procs[p].frame.Idle?
    ensures var w' := Rollback(w1, p, r, None);
      && w'.pools[r].inUse == w1.pools[r].inUse - Held(w1, r, p) && w'.pools[r].capacity == w1.pools[r].capacity
      && w'.pools[r].queue == w1.pools[r].queue
      && (forall q: nat, s: nat :: Token(w', q, s) == Token(w1, q, s))
  {
    hide GiveBack, SettleTag;
    var w2 := GiveBack(w1, r, p, Held(w1, r, p));
    PoolIsOkIn(w1, r, p, [r]);
    GiveBackKeeps(w1, r, p, Held(w1, r, p), [r]);
    SameTokens(w1, w2);
    SettleTagKeeps(w2, p, r, [r]);
    SameTokens(w2, SettleTag(w2, p, r));
  }

  /** The quiet rollback: nothing held at the start, so no signal at the end. */
  lemma SilentRollback(w: World, p: nat, sig: Signal, cancelled: bool, events: multiset<Wakeup>, w1: World)
    requires Inv(w) && p < |w.procs| && w.procs[p].frame.Waiting? && w.procs[p].frame.call.Take? && |w.procs[p].frame.members| == 1
    requires KeepsOthersEvents(w, events, p) && w.procs[p].frame.call.entry.None? && sig != Success && sig != Preempted
    requires w.procs[p].frame.members[0] < |w.pools|
    requires var r := w.procs[p].frame.members[0]; var w0 := Awaken(w.(events := events), p);
      && (w1 == if sig != Cancelled && (cancelled || !w.procs[p].frame.status.Queued?) then SignalGuard(w0, r) else w0)
      && Running(w0, p, [r]) && w0.pools[r].inUse == w.pools[r].inUse && w0.pools[r].capacity == w.pools[r].capacity
      && Running(w1, p, [r]) && w1.procs[p].frame.Idle? && Hold(w1, r, p) == Hold(w, r, p)
    ensures var r := w.procs[p].frame.members[0];
      Heeded(Rollback(w1, p, r, None), r) <==> !LosesOnResume(w, p, sig, cancelled, r)
  {
    hide Awaken, Rollback, Running, Inv, KeepsOthersEvents, Hold;
    var r := w.procs[p].frame.members[0];
    var w0 := Awaken(w.(events := events), p);
    var signals := sig != Cancelled && (cancelled || !w.procs[p].frame.status.Queued?);
    var w' := Rollback(w1, p, r, None);
    AwakeHeeded(w, p, events, r);
    QuietGiveBack(w1, p, r);
    if signals && Room(w.pools[r]) > 0 && w0.pools[r].queue != [] {
      FrontGranted(w0, r, p, [r]);
      assert Token(w', w0.pools[r].queue[0].item, r);
    } else {
      assert w1 == w0;
      BothWays(w0, w', r);
    }
  }

  lemma BothWays(a: World, b: World, r: nat)
    requires forall q: nat, s: nat :: Token(b, q, s) == Token(a, q, s)
    ensures (exists q :: Token(b, q, r)) <==> (exists q :: Token(a, q, r))
  {
    if q :| Token(b, q, r) { assert Token(a, q, r); }
    if q :| Token(a, q, r) { assert Token(b, q, r); }
  }

  lemma QueueHasEntry(w: World, p: nat, slack: seq<nat>, s: nat)
    requires Running(w, p, slack) && s < |w.pools|
    ensures w.pools[s].queue != [] <==> exists k: nat :: Entry(w, s, k).Some?
  {
    PoolIsOkIn(w, s, p, slack);
    if w.pools[s].queue != [] {
      FrontIsFound(w.pools[s].queue);
      assert Entry(w, s, w.pools[s].queue[0].key).Some?;
    }
  }

  /** q is the one whom a signal of m wakes. */
  ghost predicate IsWoken(w: World, m: nat, q: nat) {
    m < |w.pools| && Room(w.pools[m]) > 0 && w.pools[m].queue != [] && w.pools[m].queue[0].item == q
  }

  /** A signal of m takes one waiter at most off the queue of another pool, and
      makes no token there. */
  lemma SignalElsewhere(w: World, m: nat, p: nat, slack: seq<nat>, s: nat)
    requires Running(w, p, slack) && m < |w.pools| && s < |w.pools| && s != m
    ensures var w' := SignalGuard(w, m);
      && (forall z: nat :: Token(w', z, s) <==> Token(w, z, s))
      && (w'.pools[s].queue != [] <==> exists k: nat :: Entry(w, s, k).Some? && !IsWoken(w, m, Entry(w, s, k).value.item))
  {
    var w' := SignalGuard(w, m);
    var pool := w.pools[m];
    QueueHasEntry(w, p, slack, s);
    if pool.queue != [] && Room(pool) > 0 {
      FrontIsFound(pool.queue);
      assert EntryOk(w, m, pool.queue[0].key);
      var q := pool.queue[0].item;
      GrantKeeps(w, m, q, p, slack);
      QueueHasEntry(w', p, slack, s);
      forall k: nat ensures Entry(w', s, k).Some? <==> Entry(w, s, k).Some? && Entry(w, s, k).value.item != q {
        assert EntryOk(w, s, k);
        if Entry(w, s, k).Some? && Entry(w, s, k).value.item != q { KeysDiffer(w, Entry(w, s, k).value.item, q); }
      }
      hide Running;
      if k: nat :| Entry(w', s, k).Some? { assert Entry(w, s, k).Some? && Entry(w, s, k).value.item != q; }
    }
  }

  /** Taking one unit of member i, as far as another pool goes. */
  lemma TakeOneElsewhere(w: World, p: nat, members: seq<nat>, i: nat, rq: Request, s: nat)
    requires Running(w, p, members) && p < |w.procs| && w.procs[p].alive && w.procs[p].frame.Idle?
    requires i < |members| && MembersOk(w, members) && Room(w.pools[members[i]]) > 0 && s < |w.pools| && s != members[i]
    ensures var w' := TakeOne(w, p, members, i, rq);
      && Room(w'.pools[s]) == Room(w.pools[s])
      && (forall z: nat :: Token(w', z, s) <==> Token(w, z, s))
      && (w'.pools[s].queue != [] <==>
            exists k: nat :: Entry(w, s, k).Some? && !NextInLine(w, members[i], Entry(w, s, k).value.item))
  {
    hide SetRank, TakeUnits, SignalGuard, SettleTags, Running;
    var m := members[i];
    var w1 := SetRank(w, m, p, RequestRank(rq, w.procs[p]), rq.fixed);
    var w2 := TakeUnits(w1, m, p, 1, rq);
    var w3 := SignalGuard(w2, m);
    SetRankKeeps(w, m, p, RequestRank(rq, w.procs[p]), rq.fixed, members);
    TakeKeeps(w1, m, p, 1, rq, members);
    SameTokens(w, w2);
    SignalKeeps(w2, m, p, members);
    SignalElsewhere(w2, m, p, members, s);
    assert Room(w2.pools[m]) > 0 && w2.pools[m].queue != [] <==> Room(w.pools[m]) > 1 && w.pools[m].queue != [];
    forall k: nat ensures Entry(w2, s, k) == Entry(w, s, k) {}
    SettleTagsKeeps(w3, p, members, members);
    SameTokens(w3, SettleTags(w3, p, members));
  }

  /** A call that is granted or thrown out is in no queue, so leaving changes none. */
  lemma UnqueuedAwakens(w: World, p: nat, events: multiset<Wakeup>)
    requires Inv(w) && p < |w.procs| && w.procs[p].frame.Waiting? && !w.procs[p].frame.status.Queued?
    ensures Awaken(w.(events := events), p).pools == w.pools
    ensures forall s: nat, k: nat :: Entry(w, s, k).Some? ==> Entry(w, s, k).value.item != p
  {
    var f := w.procs[p].frame;
    var w0 := Awaken(w.(events := events), p);
    QueuedHasEntry(w, p);
    assert WaitOk(w, p);
    forall s | 0 <= s < |w.pools| ensures w0.pools[s] == w.pools[s] {
      if s in f.members {
        assert Entry(w, s, f.key).None?;
        DeleteMembers(w.pools[s].queue, f.key);
      }
    }
    forall s: nat, k: nat | Entry(w, s, k).Some? ensures Entry(w, s, k).value.item != p { assert EntryOk(w, s, k); }
  }

  /** An acquire_any that was thrown out of its queues runs on after all. */
  lemma EvictedAnyFlow(w: World, p: nat, events: multiset<Wakeup>)
    requires Inv(w) && p < |w.procs| && w.procs[p].frame.Waiting? && w.procs[p].frame.call.TakeAny?
    requires KeepsOthersEvents(w, events, p) && FrameOk(w, p) && w.procs[p].frame.status.Evicted?
    ensures var f := w.procs[p].frame; var w' := AttemptAny(Awaken(w.(events := events), p), p, f.members, f.rq, f.place).0;
      && Flow(w, w', TokensOf(w, p))
      && forall s: nat :: s < |w.pools| && Heeded(w, s) ==> (Heeded(w', s) <==> !LosesOnResume(w, p, Success, false, s))
  {
    hide TakeOne, Awaken, Heeded, KeepsOthersEvents, Suspend, LosesOnResume;
    var f := w.procs[p].frame;
    var w0 := Awaken(w.(events := events), p);
    var w' := AttemptAny(w0, p, f.members, f.rq, f.place).0;
    var x := TokensOf(w, p);
    AwakeKeeps(w, p, events);
    AwakeFlow(w, p, events);
    UnqueuedAwakens(w, p, events);
    AttemptAnyFlow(w0, p, f.members, f.rq, f.place);
    FlowTrans(w, w0, w', x, {});
    assert x + {} == x;
    SameFirstWithRoom(w, w0, f.members);
    forall s: nat | s < |w.pools| && Heeded(w, s)
      ensures Heeded(w', s) <==> !LosesOnResume(w, p, Success, false, s)
    {
      EvictedAnyPool(w, p, events, s);
    }
  }

  lemma EvictedAnyPool(w: World, p: nat, events: multiset<Wakeup>, s: nat)
    requires Inv(w) && p < |w.procs| && w.procs[p].frame.Waiting? && w.procs[p].frame.call.TakeAny?
    requires KeepsOthersEvents(w, events, p) && FrameOk(w, p) && w.procs[p].frame.status.Evicted?
    requires s < |w.pools| && Heeded(w, s)
    ensures var f := w.procs[p].frame; var w' := AttemptAny(Awaken(w.(events := events), p), p, f.members, f.rq, f.place).0;
      Heeded(w', s) <==> !LosesOnResume(w, p, Success, false, s)
  {
    hide TakeOne, Awaken, KeepsOthersEvents, Suspend, Running, Inv;
    var f := w.procs[p].frame;
    var w0 := Awaken(w.(events := events), p);
    AwakeKeeps(w, p, events);
    AwakeFlow(w, p, events);
    AwakeHeeded(w, p, events, s);
    UnqueuedAwakens(w, p, events);
    SameFirstWithRoom(w, w0, f.members);
    AttemptAnyFlow(w0, p, f.members, f.rq, f.place);
    var i := FirstWithRoom(w, f.members);
    if i == |f.members| {
      if s in f.members { NoRoomHeeded(w0, s); }
    } else if s == f.members[i] {
      TakeOneFlow(w0, p, f.members, i, f.rq);
    } else {
      TakeOneElsewhere(w0, p, f.members, i, f.rq, s);
      SamePools(w, w0);
    }
  }

  lemma ResumeAnyFlow(w: World, p: nat, sig: Signal, cancelled: bool, events: multiset<Wakeup>)
    requires Inv(w) && p < |w.procs| && w.procs[p].frame.Waiting? && w.procs[p].frame.call.TakeAny?
    requires KeepsOthersEvents(w, events, p) && FrameOk(w, p)
    requires MayResume(w, p, sig)
    ensures var w' := Resume(w.(events := events), p, sig, cancelled).0;
      && Flow(w, w', if sig == Cancelled || (sig == Success && w.procs[p].frame.status.Evicted?) then TokensOf(w, p) else {})
      && forall s: nat :: s < |w.pools| && Heeded(w, s) ==> (Heeded(w', s) <==> !LosesOnResume(w, p, sig, cancelled, s))
  {
    hide SignalGuard, TakeOne, AttemptAny, Awaken, SettleTags, SignalEach, Heeded, KeepsOthersEvents;
    var f := w.procs[p].frame;
    var w0 := Awaken(w.(events := events), p);
    AwakeKeeps(w, p, events);
    AwakeFlow(w, p, events);
    TokenPools(w, p);
    var x := TokensOf(w, p);
    if sig == Success {
      if f.status.Granted? && f.status.winner < |f.members| && Room(w0.pools[f.members[f.status.winner]]) > 0 {
        var w' := TakeOne(w0, p, f.members, f.status.winner, f.rq);
        TakeOneFlow(w0, p, f.members, f.status.winner, f.rq);
        FlowTrans(w, w0, w', x, {});
        GrantedTokens(w, p);
        FlowHeals(w, w', x + {}, {});
      } else if f.status.Evicted? {
        EvictedAnyFlow(w, p, events);
        forall s: nat | s < |w.pools|
          ensures LosesOnResume(w, p, Success, cancelled, s) <==> LosesOnResume(w, p, Success, false, s) {}
      } else {
        var w' := AttemptAny(w0, p, f.members, f.rq, f.place).0;
        AttemptAnyFlow(w0, p, f.members, f.rq, f.place);
        forall s | s in x ensures Heeded(w0, s) {
          GrantedTokens(w, p);
          NoRoomHeeded(w0, s);
        }
        FlowHeals(w, w0, x, {});
        FlowTrans(w, w0, w', {}, {});
        FlowHeals(w, w', {} + {}, {});
      }
    } else if sig != Cancelled {
      var w1 := SignalEach(w0, f.members, 0);
      SignalEachKeeps(w0, f.members, 0, p, f.members);
      SignalEachFlow(w0, f.members, 0, p, f.members);
      FlowTrans(w, w0, w1, x, {});
      forall s | s in x ensures Heeded(w1, s) {
        var j :| 0 <= j < |f.members| && f.members[j] == s;
      }
      FlowHeals(w, w1, x + {}, {});
      SettleTagsKeeps(w1, p, f.members, f.members);
      SettleFlow(w1, SettleTags(w1, p, f.members), p);
      FlowTrans(w, w1, SettleTags(w1, p, f.members), {}, {});
      FlowHeals(w, SettleTags(w1, p, f.members), {} + {}, {});
    } else {
      SettleTagsKeeps(w0, p, f.members, f.members);
      SettleFlow(w0, SettleTags(w0, p, f.members), p);
      FlowTrans(w, w0, SettleTags(w0, p, f.members), x, {});
      assert x + {} == x;
      forall s: nat | s < |w.pools| && Heeded(w, s)
        ensures Heeded(SettleTags(w0, p, f.members), s) <==> !LosesOnResume(w, p, sig, cancelled, s)
      {
        AwakeHeeded(w, p, events, s);
        CancelledAny(w, w0, p, cancelled, s);
      }
    }
  }

  lemma NoRoomHeeded(w: World, s: nat)
    requires s < |w.pools| && Room(w.pools[s]) == 0
    ensures Heeded(w, s)
  {
  }

  lemma GrantedTokens(w: World, p: nat)
    requires Inv(w) && p < |w.procs| && w.procs[p].frame.Waiting? && !w.procs[p].frame.status.Evicted?
    ensures forall s :: s in TokensOf(w, p) ==>
      w.procs[p].frame.status.Granted? && w.procs[p].frame.status.winner < |w.procs[p].frame.members|
      && s == w.procs[p].frame.members[w.procs[p].frame.status.winner] && s < |w.pools|
  {
  }

  lemma CancelledAny(w: World, w0: World, p: nat, cancelled: bool, s: nat)
    requires p < |w.procs| && w.procs[p].frame.Waiting? && w.procs[p].frame.call.TakeAny? && |w.procs[p].frame.members| > 0
    requires s < |w.pools| == |w0.pools|
    requires w0.pools[s].queue == [] <==> !OthersQueued(w, p, s)
    requires (exists q :: Token(w0, q, s)) <==> OtherToken(w, p, s)
    requires Room(w0.pools[s]) == Room(w.pools[s])
    ensures Heeded(w0, s) <==> !LosesOnResume(w, p, Cancelled, cancelled, s)
  {
  }
}
