/** Each wait has a key of its own, so that a grant of an earlier wait is told
    from one of this wait; until the episodes of a request run out. */
module ResourceKeys {
  import opened HashHeap
  import opened WaitKeys
  import opened ResourceModel
  import opened ResourceInvariant
  import opened ResourceSteps
  import opened ResourceRuns
  import opened ResourceTheorems

  // ---- What the pending grants' keys are ----

  /** The first key of the request after this one. */
  function NextRequestKey(number: nat): nat { KEY_TAG + (number + 1) * EPISODES }

  /** A key of another request, or of this wait or an earlier one of its request. */
  predicate NotAfter(key: nat, place: Place) {
    key <= WaitKey(place) || key >= NextRequestKey(place.number)
  }

  /** Every grant pending is of a request already made. */
  ghost predicate GrantsKnown(w: World) {
    forall q: nat, r: nat, k: nat :: Grant(q, r, k) in w.events ==> k < NextRequestKey(w.requestSeq)
  }

  ghost predicate GrantsPast(w: World, place: Place) {
    forall q: nat, r: nat, k: nat :: Grant(q, r, k) in w.events ==> NotAfter(k, place)
  }

  ghost predicate NoGrant(w: World, key: nat) {
    forall q: nat, r: nat :: Grant(q, r, key) !in w.events
  }

  /** Queued, no grant of this wait is pending; granted, exactly one is. */
  ghost predicate Exact(w: World, z: nat)
    requires z < |w.procs| && w.procs[z].frame.Waiting?
  {
    var f := w.procs[z].frame;
    match f.status
    case Queued => NoGrant(w, f.key)
    case Granted(i) =>
      i < |f.members| && forall q: nat, r: nat :: w.events[Grant(q, r, f.key)] == if q == z && r == f.members[i] then 1 else 0
    case Evicted => true
  }

  ghost predicate KeyOk(w: World, z: nat)
    requires z < |w.procs|
  {
    var f := w.procs[z].frame;
    f.Waiting? ==> GrantsPast(w, f.place) && (f.place.episode < EPISODE_MAX ==> Exact(w, z))
  }

  /** While a process runs, `place` is that of its call, if it has waited. */
  ghost predicate Keyed(w: World, place: Place) {
    && GrantsKnown(w) && (place.number != 0 ==> GrantsPast(w, place))
    && forall z :: 0 <= z < |w.procs| ==> KeyOk(w, z)
  }

  // ---- Changes that add no grant ----

  ghost predicate Calm(w: World, w': World) {
    && |w'.procs| == |w.procs| && |w'.pools| == |w.pools| && w'.requestSeq == w.requestSeq
    && (forall q: nat, r: nat, k: nat :: w'.events[Grant(q, r, k)] == w.events[Grant(q, r, k)])
    && forall z :: 0 <= z < |w.procs| ==>
         || w'.procs[z].frame == w.procs[z].frame
         || (w.procs[z].frame.Waiting? && w'.procs[z].frame == w.procs[z].frame.(status := Evicted))
  }

  lemma CalmTrans(a: World, b: World, c: World)
    requires Calm(a, b) && Calm(b, c)
    ensures Calm(a, c)
  {
  }

  lemma SameGrants(w: World, w': World)
    requires Calm(w, w')
    ensures forall q: nat, r: nat, k: nat :: Grant(q, r, k) in w'.events <==> Grant(q, r, k) in w.events
  {
    forall q: nat, r: nat, k: nat ensures Grant(q, r, k) in w'.events <==> Grant(q, r, k) in w.events {
      assert w'.events[Grant(q, r, k)] == w.events[Grant(q, r, k)];
    }
  }

  lemma CalmKeyed(w: World, w': World, place: Place)
    requires Keyed(w, place) && Calm(w, w')
    ensures Keyed(w', place)
  {
    SameGrants(w, w');
    forall z | 0 <= z < |w.procs| ensures KeyOk(w', z) { assert KeyOk(w, z); }
  }

  lemma HoldingCalm(w: World, w': World, r: nat, p: nat)
    requires OnlyHolding(w, w', r, p)
    ensures Calm(w, w')
  {
  }

  lemma TagsCalm(w: World, w': World, p: nat)
    requires p < |w.procs| == |w'.procs| && w' == w.(procs := w'.procs)
    requires w'.procs == w.procs[p := w.procs[p].(tags := w'.procs[p].tags)]
    ensures Calm(w, w')
  {
  }

  lemma {:induction false} EvictAllCalm(w: World, r: nat, vs: seq<nat>)
    requires r < |w.pools|
    ensures Calm(w, EvictAll(w, r, vs))
    decreases |vs|
  {
    if vs != [] {
      hide Calm;
      EvictCalm(w, r, vs[0]);
      EvictAllCalm(Evict(w, r, vs[0]), r, vs[1..]);
      CalmTrans(w, Evict(w, r, vs[0]), EvictAll(w, r, vs));
    } else {
      assert EvictAll(w, r, vs) == w;
    }
  }

  lemma EvictCalm(w: World, r: nat, v: nat)
    requires r < |w.pools|
    ensures Calm(w, Evict(w, r, v))
  {
  }

  // ---- A signal ----

  lemma SignalKeyed(w: World, r: nat, p: nat, slack: seq<nat>, place: Place)
    requires Running(w, p, slack) && r < |w.pools|
    requires Keyed(w, place) && PlaceFree(w, p, place) && (place.number != 0 ==> p < |w.procs| && w.procs[p].frame.Idle?)
    ensures Keyed(SignalGuard(w, r), place)
  {
    var pool := w.pools[r];
    if pool.queue != [] && Room(pool) > 0 {
      FrontIsFound(pool.queue);
      assert EntryOk(w, r, pool.queue[0].key);
      GrantKeyed(w, r, pool.queue[0].item, p, slack, place);
    }
  }

  lemma GrantKeyed(w: World, r: nat, q: nat, p: nat, slack: seq<nat>, place: Place)
    requires q < |w.procs| && w.procs[q].frame.Waiting? && w.procs[q].frame.status.Queued? && r in w.procs[q].frame.members
    requires Running(w, p, slack)
    requires Keyed(w, place) && PlaceFree(w, p, place) && (place.number != 0 ==> p < |w.procs| && w.procs[p].frame.Idle?)
    ensures Keyed(GrantTo(w, r, q), place)
  {
    var f := w.procs[q].frame;
    var w' := GrantTo(w, r, q);
    GrantKeeps(w, r, q, p, slack);
    assert w'.events == w.events + multiset{Grant(q, r, f.key)};
    assert WaitOk(w, q);
    if place.number != 0 { OtherRequest(f.place, place); }
    forall z | 0 <= z < |w.procs| ensures KeyOk(w', z) {
      assert KeyOk(w, z);
      if z != q && w.procs[z].frame.Waiting? {
        assert WaitOk(w, z) && PlacesOk(w, q, z);
        OtherRequest(f.place, w.procs[z].frame.place);
        KeysDiffer(w, q, z);
      }
    }
  }

  lemma OtherRequest(a: Place, b: Place)
    requires PlaceOk(a) && PlaceOk(b) && a.number != b.number
    ensures NotAfter(WaitKey(a), b)
  {
  }

  // ---- Waiting again ----

  /** A grant with the key of p's last wait is pending, and no episode is left. */
  ghost predicate KeyIsReused(w: World, place: Place) {
    place.number != 0 && place.episode == EPISODE_MAX && !NoGrant(w, WaitKey(place))
  }

  /** The key of a new wait is that of no pending grant, exactly unless it is
      a key that is reused. */
  lemma NewKey(w: World, place: Place)
    requires GrantsKnown(w) && w.requestSeq < SEQ_MASK
    requires place.number != 0 ==> PlaceOk(place) && GrantsPast(w, place)
    ensures var pl := NextPlace(place, w.requestSeq, w.now).0;
      && GrantsPast(w, pl) && (NoGrant(w, WaitKey(pl)) <==> !KeyIsReused(w, place))
      && (pl.episode < EPISODE_MAX ==> !KeyIsReused(w, place))
  {
    var pl := NextPlace(place, w.requestSeq, w.now).0;
    forall q: nat, r: nat, k: nat | Grant(q, r, k) in w.events
      ensures NotAfter(k, pl) && (k == WaitKey(pl) ==> place.number != 0 && place.episode == EPISODE_MAX)
    {
      if place.number != 0 { assert NotAfter(k, place); }
    }
  }

  lemma SuspendKeyed(w: World, p: nat, members: seq<nat>, rq: Request, place: Place, call: Call)
    requires p < |w.procs| && w.procs[p].frame.Idle? && Keyed(w, place) && PlaceFree(w, p, place) && w.requestSeq < SEQ_MASK
    ensures var w' := Suspend(w, p, members, rq, place, call);
      Keyed(w', Unplaced) && (Exact(w', p) <==> !KeyIsReused(w, place))
  {
    var w' := Suspend(w, p, members, rq, place, call);
    NewKey(w, place);
    assert w.requestSeq <= w'.requestSeq;
    forall z | 0 <= z < |w.procs| ensures KeyOk(w', z) { assert KeyOk(w, z); }
  }

  /** p no longer waits, and events of its own may be gone. */
  ghost predicate FewerFor(w: World, events: multiset<Wakeup>, p: nat) {
    forall e :: events[e] <= w.events[e] && (e.pid != p ==> events[e] == w.events[e])
  }

  lemma FewerKeeps(w: World, events: multiset<Wakeup>, p: nat)
    requires FewerFor(w, events, p)
    ensures KeepsOthersEvents(w, events, p)
  {
    forall e | e in w.events && e.pid != p ensures e in events { assert events[e] == w.events[e]; }
  }

  lemma AwakeKeyed(w: World, p: nat, events: multiset<Wakeup>)
    requires Keyed(w, Unplaced) && p < |w.procs| && w.procs[p].frame.Waiting? && FewerFor(w, events, p)
    ensures Keyed(Awaken(w.(events := events), p), w.procs[p].frame.place)
    ensures forall k: nat :: NoGrant(w, k) ==> NoGrant(Awaken(w.(events := events), p), k)
  {
    var w0 := Awaken(w.(events := events), p);
    forall q: nat, r: nat, k: nat ensures Grant(q, r, k) in w0.events ==> Grant(q, r, k) in w.events {
      assert events[Grant(q, r, k)] <= w.events[Grant(q, r, k)];
    }
    forall z | 0 <= z < |w.procs| ensures KeyOk(w0, z) {
      assert KeyOk(w, z);
      if z != p && w.procs[z].frame.Waiting? {
        forall q: nat, r: nat ensures q == p || w0.events[Grant(q, r, w.procs[z].frame.key)] == w.events[Grant(q, r, w.procs[z].frame.key)] {}
        forall r: nat ensures w0.events[Grant(p, r, w.procs[z].frame.key)] <= w.events[Grant(p, r, w.procs[z].frame.key)] {}
      }
    }
    assert KeyOk(w, p);
  }

  lemma Unplace(w: World, place: Place)
    requires Keyed(w, place)
    ensures Keyed(w, Unplaced)
  {
  }

  // ---- acquire and preempt ----

  lemma TakeCalm(w: World, r: nat, p: nat, n: int, rq: Request)
    requires r < |w.pools| && p < |w.procs|
    ensures Calm(w, TakeUnits(w, r, p, n, rq))
  {
  }

  lemma PreemptCalm(w: World, p: nat, r: nat, rem: nat, rq: Request)
    requires p < |w.procs| && r < |w.pools|
    ensures Calm(w, PreemptFor(w, p, r, rem, rq).0)
  {
    hide TakeUnits, EvictAll, VictimCount;
    var pool := w.pools[r];
    var vs := Keys(pool.holders[..VictimCount(pool.holders, RequestRank(rq, w.procs[p]), rem + pool.inUse - pool.capacity)]);
    var w1 := EvictAll(w, r, vs);
    EvictAllCalm(w, r, vs);
    if Min(Room(w1.pools[r]), rem) > 0 {
      TakeCalm(w1, r, p, Min(Room(w1.pools[r]), rem), rq);
      CalmTrans(w, w1, PreemptFor(w, p, r, rem, rq).0);
    }
  }

  /** A waiting process waits with a key that no pending grant has. */
  ghost predicate WaitsExactly(w: World, p: nat) {
    p < |w.procs| && w.procs[p].frame.Waiting? && Exact(w, p)
  }

  lemma FinishKeyed(w: World, w2: World, p: nat, r: nat, rq: Request, place: Place, call: Call, rem: nat)
    requires Running(w2, p, [r]) && r < |w2.pools| && p < |w2.procs| && w2.procs[p].frame.Idle? && call.Take?
    requires Keyed(w, place) && Calm(w, w2) && PlaceFree(w2, p, place) && w2.requestSeq < SEQ_MASK
    ensures Keyed(SignalGuard(w2, r), Unplaced)
    ensures var w' := Suspend(w2, p, [r], rq, place, call.(remaining := rem));
      Keyed(w', Unplaced) && (WaitsExactly(w', p) <==> !KeyIsReused(w, place))
  {
    hide SignalGuard;
    CalmKeyed(w, w2, place);
    SameGrants(w, w2);
    SignalKeyed(w2, r, p, [r], place);
    Unplace(SignalGuard(w2, r), place);
    SuspendKeyed(w2, p, [r], rq, place, call.(remaining := rem));
  }

  lemma AttemptKeyed(w: World, p: nat, r: nat, rq: Request, place: Place, call: Call)
    requires Running(w, p, [r]) && r < |w.pools| && ClaimOk(w, p, r, rq, call)
    requires w.procs[p].alive && w.procs[p].frame.Idle?
    requires PlaceFree(w, p, place) && w.requestSeq < SEQ_MASK && Keyed(w, place)
    ensures var (w', out) := Attempt(w, p, r, rq, place, call);
      Keyed(w', Unplaced) && (out.Suspended? ==> (WaitsExactly(w', p) <==> !KeyIsReused(w, place)))
  {
    hide PreemptFor, TakeUnits, Suspend, SignalGuard, Running, StakeOk, OthersStandBy, Keyed, Calm, KeyIsReused, WaitsExactly, PlaceFree;
    var available := Room(w.pools[r]);
    var first := Min(available, call.remaining);
    var w1 := if first > 0 then TakeUnits(w, r, p, first, rq) else w;
    assert Calm(w, w1) by { if first > 0 { TakeCalm(w, r, p, first, rq); } else { StaysCalm(w); } }
    TakeUpTo(w, w, p, r, call.remaining, rq, [r]) by { NothingYet(w, p); }
    NewPlaceFree(w, w1, p, place);
    if available >= call.remaining {
      FinishKeyed(w, w1, p, r, rq, place, call, 0);
    } else if !call.preempt {
      FinishKeyed(w, w1, p, r, rq, place, call, call.remaining - first);
    } else {
      var rem := call.remaining - first;
      var (w2, got) := PreemptFor(w1, p, r, rem, rq);
      StakeGains(w, w1, r, p, rq, call, first);
      RankOfStake(w1, r, p, rq, call.(remaining := rem));
      PreemptKeeps(w1, p, r, rem, rq, [r]);
      PreemptCalm(w1, p, r, rem, rq);
      CalmTrans(w, w1, w2);
      StandByTrans(w, w1, w2, p);
      NewPlaceFree(w, w2, p, place);
      FinishKeyed(w, w2, p, r, rq, place, call, rem - got);
    }
  }

  lemma StaysCalm(w: World)
    ensures Calm(w, w)
  {
  }

  lemma StartAcquireKeyed(w: World, p: nat, r: nat, amount: nat, preempt: bool, rq: Request)
    requires Inv(w) && CanCall(w, p) && r < |w.pools| && w.requestSeq < SEQ_MASK && Keyed(w, Unplaced)
    ensures var (w', out) := StartAcquire(w, p, r, amount, preempt, rq);
      Keyed(w', Unplaced) && (out.Suspended? ==> WaitsExactly(w', p))
  {
    if 0 < amount <= INT64_MAX {
      hide Attempt, SetRank;
      var rank := RequestRank(rq, w.procs[p]);
      var w1 := SetRank(w, r, p, rank, rq.fixed);
      var call := Take(amount, amount, preempt, Hold(w, r, p));
      Unsettled(w, p, [r]);
      PoolIsOk(w, r);
      SetRankKeeps(w, r, p, rank, rq.fixed, [r]);
      HoldingCalm(w, w1, r, p);
      CalmKeyed(w, w1, Unplaced);
      AttemptKeyed(w1, p, r, rq, Unplaced, call);
    }
  }

  lemma RollbackKeyed(w: World, p: nat, r: nat, rq: Request, call: Call)
    requires Running(w, p, [r]) && r < |w.pools| && CanRollBack(w, p, r, rq, call) && w.procs[p].frame.Idle? && Keyed(w, Unplaced)
    ensures Keyed(Rollback(w, p, r, call.entry), Unplaced)
  {
    hide SignalGuard, SetRank, GiveBack, Running, Keyed, Calm, StakeOk, SettleTag;
    var n := Held(w, r, p) - AmountOf(call.entry);
    var w1 := GiveBack(w, r, p, n);
    PoolIsOkIn(w, r, p, [r]);
    SurplusOk(w, p, r, rq, call);
    GiveBackKeeps(w, r, p, n, [r]);
    HoldingCalm(w, w1, r, p);
    CalmKeyed(w, w1, Unplaced);
    match call.entry
    case Some(t) =>
      var w2 := SetRank(w1, r, p, t.rank, t.item.fixed);
      var w3 := SignalGuard(w2, r);
      SetRankKeeps(w1, r, p, t.rank, t.item.fixed, [r]);
      HoldingCalm(w1, w2, r, p);
      CalmKeyed(w1, w2, Unplaced);
      SignalKeyed(w2, r, p, [r], Unplaced);
      SignalKeeps(w2, r, p, [r]);
      SettleKeyed(w3, p, r, [r]);
    case None =>
      SettleKeyed(w1, p, r, [r]);
  }

  lemma SurplusOk(w: World, p: nat, r: nat, rq: Request, call: Call)
    requires CanRollBack(w, p, r, rq, call)
    ensures 0 <= Held(w, r, p) - AmountOf(call.entry) <= Held(w, r, p)
  {
  }

  lemma SettleKeyed(w: World, p: nat, r: nat, slack: seq<nat>)
    requires Running(w, p, slack) && p < |w.procs| && w.procs[p].frame.Idle? && Keyed(w, Unplaced)
    ensures Keyed(SettleTag(w, p, r), Unplaced)
  {
    SettleTagKeeps(w, p, r, slack);
    TagsCalm(w, SettleTag(w, p, r), p);
    CalmKeyed(w, SettleTag(w, p, r), Unplaced);
  }

  lemma SettleAllKeyed(w: World, p: nat, members: seq<nat>, slack: seq<nat>)
    requires Running(w, p, slack) && p < |w.procs| && w.procs[p].frame.Idle? && Keyed(w, Unplaced)
    ensures Keyed(SettleTags(w, p, members), Unplaced)
  {
    SettleTagsKeeps(w, p, members, slack);
    TagsCalm(w, SettleTags(w, p, members), p);
    CalmKeyed(w, SettleTags(w, p, members), Unplaced);
  }

  /** The new wait of a resumed call has its grants told apart, unless its key
      is reused with a grant still pending. */
  ghost predicate WaitsExactlyUnless(w': World, out: Outcome, p: nat, w0: World, place: Place) {
    out.Suspended? ==> (WaitsExactly(w', p) <==> !KeyIsReused(w0, place))
  }

  lemma ResumeTakeKeyed(w: World, p: nat, sig: Signal, cancelled: bool, events: multiset<Wakeup>)
    requires Inv(w) && w.requestSeq < SEQ_MASK && p < |w.procs| && w.procs[p].frame.Waiting? && w.procs[p].frame.call.Take?
    requires FewerFor(w, events, p) && FrameOk(w, p) && Keyed(w, Unplaced)
    requires MayResume(w, p, sig)
    ensures var (w', out) := Resume(w.(events := events), p, sig, cancelled);
      Keyed(w', Unplaced) && WaitsExactlyUnless(w', out, p, w.(events := events), w.procs[p].frame.place)
  {
    hide SignalGuard, Attempt, Rollback, Awaken, SettleTag, Keyed, KeyIsReused, WaitsExactly;
    var f := w.procs[p].frame;
    var r := f.members[0];
    var wv := w.(events := events);
    var w0 := Awaken(wv, p);
    FewerKeeps(w, events, p);
    AwakeKeeps(w, p, events);
    AwakeKeyed(w, p, events);
    assert f.members == [r];
    var queued := !cancelled && Entry(wv, r, f.key).Some?;
    var w1 := if !queued && sig != Success && sig != Cancelled then SignalGuard(w0, r) else w0;
    PassOn(w, w0, w1, p, r);
    assert Keyed(w1, f.place) by { if w1 != w0 { SignalKeyed(w0, r, p, [r], f.place); } }
    if sig == Success {
      AttemptKeyed(w1, p, r, f.rq, f.place, f.call);
      SameReuse(wv, w0, f.place) by { AwakenEvents(wv, p); }
    } else if sig == Preempted {
      Unplace(w1, f.place);
      SettleKeyed(w1, p, r, [r]);
    } else {
      Unplace(w1, f.place);
      RollbackKeyed(w1, p, r, f.rq, f.call);
    }
  }

  lemma AwakenEvents(w: World, p: nat)
    requires p < |w.procs|
    ensures Awaken(w, p).events == w.events
  {
  }

  lemma SameReuse(w: World, w0: World, place: Place)
    requires w0.events == w.events
    ensures KeyIsReused(w0, place) == KeyIsReused(w, place)
  {
  }

  // ---- acquire_any ----

  lemma TakeOneKeyed(w: World, p: nat, members: seq<nat>, i: nat, rq: Request, place: Place)
    requires Running(w, p, members) && p < |w.procs| && w.procs[p].alive && w.procs[p].frame.Idle?
    requires i < |members| && MembersOk(w, members) && Room(w.pools[members[i]]) > 0
    requires Keyed(w, place) && PlaceFree(w, p, place)
    ensures Keyed(TakeOne(w, p, members, i, rq), Unplaced)
  {
    hide SetRank, TakeUnits, SignalGuard, SettleTags, Running, Keyed, Calm;
    var r := members[i];
    var w1 := SetRank(w, r, p, RequestRank(rq, w.procs[p]), rq.fixed);
    var w2 := TakeUnits(w1, r, p, 1, rq);
    SetRankKeeps(w, r, p, RequestRank(rq, w.procs[p]), rq.fixed, members);
    HoldingCalm(w, w1, r, p);
    TakeKeeps(w1, r, p, 1, rq, members);
    HoldingCalm(w1, w2, r, p);
    Unplace(w, place);
    CalmTrans(w, w1, w2);
    CalmKeyed(w, w2, Unplaced);
    SignalKeyed(w2, r, p, members, Unplaced);
    SignalKeeps(w2, r, p, members);
    SettleAllKeyed(SignalGuard(w2, r), p, members, members);
  }

  lemma AttemptAnyKeyed(w: World, p: nat, members: seq<nat>, rq: Request, place: Place)
    requires Running(w, p, members) && p < |w.procs| && w.procs[p].alive && w.procs[p].frame.Idle? && MembersOk(w, members)
    requires PlaceFree(w, p, place) && w.requestSeq < SEQ_MASK && Keyed(w, place)
    ensures var (w', out) := AttemptAny(w, p, members, rq, place);
      Keyed(w', Unplaced) && WaitsExactlyUnless(w', out, p, w, place)
  {
    hide TakeOne, Suspend;
    var i := FirstWithRoom(w, members);
    if i < |members| {
      TakeOneKeyed(w, p, members, i, rq, place);
    } else {
      SuspendKeyed(w, p, members, rq, place, TakeAny);
      SuspendWaits(w, p, members, rq, place, TakeAny);
    }
  }

  lemma SuspendWaits(w: World, p: nat, members: seq<nat>, rq: Request, place: Place, call: Call)
    requires p < |w.procs|
    ensures var w' := Suspend(w, p, members, rq, place, call); w'.procs[p].frame.Waiting?
  {
  }

  lemma {:induction false} SignalEachKeyed(w: World, members: seq<nat>, i: nat, p: nat, slack: seq<nat>)
    requires Running(w, p, slack) && i <= |members| && MembersOk(w, members) && p < |w.procs| && w.procs[p].frame.Idle?
    requires Keyed(w, Unplaced)
    ensures Keyed(SignalEach(w, members, i), Unplaced)
    decreases |members| - i
  {
    hide SignalGuard, Running, OthersStandBy, Hold, SignalEach, Keyed;
    if i == |members| {
      SignalEachEnds(w, members);
    } else if members[i] in members[..i] {
      SignalEachTurn(w, members, i);
      SignalEachKeyed(w, members, i + 1, p, slack);
    } else {
      SignalEachTurn(w, members, i);
      SignalLeaves(w, members[i], p, slack);
      SignalKeyed(w, members[i], p, slack, Unplaced);
      SignalEachKeyed(SignalGuard(w, members[i]), members, i + 1, p, slack);
    }
  }

  lemma ResumeAnyKeyed(w: World, p: nat, sig: Signal, cancelled: bool, events: multiset<Wakeup>)
    requires Inv(w) && w.requestSeq < SEQ_MASK && p < |w.procs| && w.procs[p].frame.Waiting? && w.procs[p].frame.call.TakeAny?
    requires FewerFor(w, events, p) && FrameOk(w, p) && Keyed(w, Unplaced)
    ensures var (w', out) := Resume(w.(events := events), p, sig, cancelled);
      Keyed(w', Unplaced) && WaitsExactlyUnless(w', out, p, w.(events := events), w.procs[p].frame.place)
  {
    hide SignalGuard, TakeOne, AttemptAny, Awaken, SettleTags, SignalEach, Keyed, KeyIsReused, WaitsExactly;
    var f := w.procs[p].frame;
    var wv := w.(events := events);
    var w0 := Awaken(wv, p);
    FewerKeeps(w, events, p);
    AwakeKeeps(w, p, events);
    AwakeKeyed(w, p, events);
    SameReuse(wv, w0, f.place) by { AwakenEvents(wv, p); }
    if sig == Success {
      if f.status.Granted? && f.status.winner < |f.members| && Room(w0.pools[f.members[f.status.winner]]) > 0 {
        TakeOneKeyed(w0, p, f.members, f.status.winner, f.rq, f.place);
      } else {
        AttemptAnyKeyed(w0, p, f.members, f.rq, f.place);
      }
    } else {
      Unplace(w0, f.place);
      SignalEachKeyed(w0, f.members, 0, p, f.members);
      SignalEachKeeps(w0, f.members, 0, p, f.members);
      SettleAllKeyed(if sig == Cancelled then w0 else SignalEach(w0, f.members, 0), p, f.members, f.members);
    }
  }

  // ---- The other verbs ----

  lemma ReleaseKeyed(w: World, p: nat, r: nat, amount: nat)
    requires Inv(w) && CanCall(w, p) && r < |w.pools| && Keyed(w, Unplaced)
    ensures Keyed(Release(w, p, r, amount).0, Unplaced)
  {
    if 0 < amount <= Held(w, r, p) && amount <= INT64_MAX {
      hide GiveBack, SettleTag, SignalGuard, Keyed;
      var w1 := GiveBack(w, r, p, amount);
      Unsettled(w, p, [r]);
      GiveBackKeeps(w, r, p, amount, [r]);
      HoldingCalm(w, w1, r, p);
      CalmKeyed(w, w1, Unplaced);
      SettleKeyed(w1, p, r, [r]);
      SettleTagKeeps(w1, p, r, [r]);
      SignalKeyed(SettleTag(w1, p, r), r, p, [r], Unplaced);
    }
  }

  lemma SetCapacityKeyed(w: World, caller: Option<nat>, r: nat, value: int, preempting: bool)
    requires Inv(w) && r < |w.pools| && Keyed(w, Unplaced)
    ensures Keyed(SetCapacity(w, caller, r, value, preempting).0, Unplaced)
  {
    var pool := w.pools[r];
    if 0 <= value != pool.capacity {
      hide SignalGuard, Inv, Running, EvictAll, Keyed;
      var w1 := SetPool(w, r, pool.(capacity := value, maxCapacity := if value > pool.maxCapacity then value else pool.maxCapacity));
      var w2 := if preempting && pool.inUse > value then ShedOthers(w1, caller, r) else w1;
      ResizeKeeps(w, r, value);
      ShedKeeps(w1, caller, r);
      var others := Others(w1.pools[r].holders, caller);
      EvictAllCalm(w1, r, Keys(others[..ShedCount(others, w1.pools[r].inUse - w1.pools[r].capacity)]));
      assert Calm(w, w1);
      CalmTrans(w, w1, ShedOthers(w1, caller, r));
      CalmKeyed(w, w2, Unplaced);
      SignalKeyed(w2, r, 0, [], Unplaced) by { InvIsRunning(w2); }
    }
  }

  lemma SetPriorityKeyed(w: World, p: nat, priority: int)
    requires Inv(w) && p < |w.procs| && Keyed(w, Unplaced)
    ensures Keyed(SetPriority(w, p, priority), Unplaced)
  {
    hide SetPriority, Keyed;
    SetPriorityEffect(w, p, priority);
    CalmKeyed(w, SetPriority(w, p, priority), Unplaced);
  }

  lemma DropKeyed(w: World, p: nat, r: nat, slack: seq<nat>)
    requires Running(w, p, slack) && p < |w.procs| && w.procs[p].frame.Idle? && r in slack && Keyed(w, Unplaced)
    ensures Keyed(Drop(w, p, r), Unplaced)
  {
    hide SignalGuard, GiveBack, SettleTag, Running, Keyed;
    if Hold(w, r, p).Some? {
      PoolIsOkIn(w, r, p, slack);
      var w1 := GiveBack(w, r, p, Held(w, r, p));
      GiveBackKeeps(w, r, p, Held(w, r, p), slack);
      HoldingCalm(w, w1, r, p);
      CalmKeyed(w, w1, Unplaced);
      SettleKeyed(w1, p, r, slack);
      SettleTagKeeps(w1, p, r, slack);
      DropIsSettle(w, p, r);
      SignalKeyed(SettleTag(w1, p, r), r, p, slack, Unplaced);
    } else {
      SettleKeyed(w, p, r, slack);
      SettleIsDrop(w, p, r);
    }
  }

  lemma {:induction false} DropAllKeyed(w: World, p: nat, tags: seq<nat>, slack: seq<nat>)
    requires Running(w, p, slack) && p < |w.procs| && w.procs[p].frame.Idle? && Keyed(w, Unplaced)
    requires forall i :: 0 <= i < |tags| ==> tags[i] in slack
    ensures Keyed(DropAll(w, p, tags), Unplaced)
    decreases |tags|
  {
    if tags != [] {
      hide Drop, Running, Keyed, OthersStandBy;
      DropKeeps(w, p, tags[0], slack);
      DropKeyed(w, p, tags[0], slack);
      DropAllKeyed(Drop(w, p, tags[0]), p, tags[1..], slack);
    }
  }

  lemma StopKeyed(w: World, p: nat)
    requires Inv(w) && p < |w.procs| && Keyed(w, Unplaced)
    ensures Keyed(Stop(w, p), Unplaced)
  {
    hide DropAll, Awaken, Keyed, Running;
    var tags := w.procs[p].tags;
    var w0 := Awaken(w, p);
    if w.procs[p].frame.Waiting? {
      assert w.(events := w.events) == w;
      AwakeKeeps(w, p, w.events);
      AwakeKeyed(w, p, w.events);
      Unplace(w0, w.procs[p].frame.place);
      WidenSlack(w0, p, w.procs[p].frame.members, tags);
    } else {
      AwakenIdle(w, p);
      Unsettled(w, p, tags);
    }
    DropAllKeyed(w0, p, tags, tags);
    CalmKeyed(DropAll(w0, p, tags), Stop(w, p), Unplaced);
  }

  // ---- Every step ----

  /** The events a resuming step leaves for its process to run with. */
  function EventsAfter(w: World, s: Step): multiset<Wakeup> {
    if s.Deliver? then w.events - multiset{s.event} else w.events
  }

  /** The step resumes p with success, though no episode is left for its next
      wait and a grant of this one stays pending. */
  ghost predicate ReusesKey(w: World, s: Step, p: nat) {
    && Resumes(w, s, p) && SignalOf(s) == Success
    && KeyIsReused(w.(events := EventsAfter(w, s)), w.procs[p].frame.place)
  }

  lemma ResumeIsOf(w: World, s: Step, p: nat)
    requires Inv(w) && Enabled(w, s) && Resumes(w, s, p)
    ensures FewerFor(w, EventsAfter(w, s), p) && FrameOk(w, p)
    ensures MayResume(w, p, SignalOf(s))
    ensures Exec(w, s) == Resume(w.(events := EventsAfter(w, s)), p, SignalOf(s), s.Deliver? && s.event.Notice?)
  {
    var _, _ := ResumingStep(w, s, p);
    assert s.Timer? ==> w.(events := w.events) == w;
  }

  /** The step begins or continues a call of p that waits, or waits again. */
  ghost predicate Suspends(w: World, s: Step, p: nat)
    requires Enabled(w, s)
  {
    Actor(w, s) == p && Exec(w, s).1.Suspended?
  }

  lemma ResumeStepKeyed(w: World, s: Step, p: nat)
    requires Inv(w) && Enabled(w, s) && Resumes(w, s, p) && Keyed(w, Unplaced)
    ensures Keyed(Next(w, s), Unplaced)
    ensures Exec(w, s).1.Suspended? ==> (WaitsExactly(Next(w, s), p) <==> !ReusesKey(w, s, p))
  {
    hide Resume, Inv, Exec, Keyed, KeyIsReused, WaitsExactly;
    ResumeIsOf(w, s, p);
    ResumeStepKeeps(w, s, p);
    hide AttemptOk, OthersStandBy;
    if w.procs[p].frame.call.Take? {
      ResumeTakeKeyed(w, p, SignalOf(s), s.Deliver? && s.event.Notice?, EventsAfter(w, s));
    } else {
      if SignalOf(s) != Success { ReturnsSignal(w, s, p); }
      ResumeAnyKeyed(w, p, SignalOf(s), s.Deliver? && s.event.Notice?, EventsAfter(w, s));
    }
  }

  /** A step that only changes events or the clock. A grant that it discards
      is not the one its process waits for. */
  lemma EventStepKeyed(w: World, s: Step)
    requires Inv(w) && Enabled(w, s) && Keyed(w, Unplaced)
    requires s.Interrupt? || s.Tick? || (s.Deliver? && !Resumes(w, s, s.event.pid))
    ensures Keyed(Next(w, s), Unplaced)
  {
    var w' := Next(w, s);
    EventStepKeeps(w, s);
    if s.Deliver? && s.event.Grant? {
      assert w'.events == w.events - multiset{s.event};
      forall z | 0 <= z < |w.procs| ensures KeyOk(w', z) {
        assert KeyOk(w, z) && WaitOk(w, z);
        if w.procs[z].frame.Waiting? && w.procs[z].frame.place.episode < EPISODE_MAX { DiscardedIsNotExact(w, s.event, z); }
      }
    } else {
      CalmKeyed(w, w', Unplaced);
    }
  }

  lemma DiscardedIsNotExact(w: World, e: Wakeup, z: nat)
    requires Inv(w) && z < |w.procs| && w.procs[z].frame.Waiting? && Exact(w, z)
    requires e.Grant? && e in w.events && !GrantIsLive(w, e)
    ensures w.procs[z].frame.status.Evicted? || e.key != w.procs[z].frame.key
  {
    assert WaitOk(w, z);
    assert e == Grant(e.pid, e.pool, e.key) && w.events[e] > 0;
  }

  /** Every step keeps the keys of pending grants apart; and a new wait has
      none pending exactly unless it reuses the key of one. */
  lemma StepKeyed(w: World, s: Step, p: nat)
    requires Inv(w) && Enabled(w, s) && Keyed(w, Unplaced)
    ensures Keyed(Next(w, s), Unplaced)
    ensures Suspends(w, s, p) ==> (WaitsExactly(Next(w, s), p) <==> !ReusesKey(w, s, p))
  {
    hide Inv, Keyed, StartAcquire, StartAcquireAny, Release, SetCapacity, SetPriority, Resume, Stop, WaitsExactly, KeyIsReused;
    match s
    case Acquire(p, r, amount, preempt, rq) => StartAcquireKeyed(w, p, r, amount, preempt, rq);
    case AcquireAny(p, members, rq) => StartAnyKeyed(w, p, members, rq);
    case ReleaseUnits(p, r, amount) => ReleaseKeyed(w, p, r, amount); ReleaseKeeps(w, p, r, amount);
    case ChangeCapacity(caller, r, value, preempting) => SetCapacityKeyed(w, caller, r, value, preempting);
      SetCapacityKeeps(w, caller, r, value, preempting);
    case ChangePriority(p, priority) => SetPriorityKeyed(w, p, priority);
    case StopProcess(p) => StopKeyed(w, p);
    case Interrupt(_, _) => EventStepKeyed(w, s);
    case Tick(_) => EventStepKeyed(w, s);
    case Timer(q, _) => ResumeStepKeyed(w, s, q) by { TimerResumes(w, s); }
    case Deliver(e) =>
      if Resumes(w, s, e.pid) { ResumeStepKeyed(w, s, e.pid); } else { EventStepKeyed(w, s); }
  }

  lemma TimerResumes(w: World, s: Step)
    requires Enabled(w, s) && s.Timer?
    ensures Resumes(w, s, s.p)
  {
  }

  lemma StartAnyKeyed(w: World, p: nat, members: seq<nat>, rq: Request)
    requires Inv(w) && CanCall(w, p) && MembersOk(w, members) && w.requestSeq < SEQ_MASK && Keyed(w, Unplaced)
    ensures var (w', out) := StartAcquireAny(w, p, members, rq);
      Keyed(w', Unplaced) && (out.Suspended? ==> WaitsExactly(w', p))
  {
    if members != [] {
      hide AttemptAny;
      Unsettled(w, p, members);
      AttemptAnyKeyed(w, p, members, rq, Unplaced);
    }
  }

  // ---- Every run ----

  lemma {:induction false} RunKeyed(ws: seq<World>, steps: seq<Step>, i: nat)
    requires Run(ws, steps) && i < |ws|
    ensures Keyed(ws[i], Unplaced)
  {
    if i > 0 {
      hide Run, Keyed, Inv, Enabled, Next;
      RunStep(ws, steps, i - 1);
      RunKeeps(ws, steps, i - 1);
      RunKeyed(ws, steps, i - 1);
      StepKeyed(ws[i - 1], steps[i - 1], 0);
    }
  }

  /** In every reachable state a waiting call has its one entry in the queue of
      every member, or it has none anywhere and either one member has granted
      it, by its first listing, with the wakeup pending, or it was thrown out
      and its notice is pending. While the request has episodes left no grant
      of the wait is pending if it is queued, and exactly that one if granted. */
  lemma WaitIsAtomic(ws: seq<World>, steps: seq<Step>, i: nat, p: nat)
    requires Run(ws, steps) && i < |ws| && p < |ws[i].procs| && ws[i].procs[p].frame.Waiting?
    ensures var w := ws[i]; var f := w.procs[p].frame;
      && (match f.status
          case Queued =>
            forall r: nat, k: nat ::
              (Entry(w, r, k).Some? && Entry(w, r, k).value.item == p) <==> (r in f.members && k == f.key)
          case Granted(k) =>
            && InNoQueue(w, p) && k < |f.members| && k == FirstListing(f.members, f.members[k])
            && Grant(p, f.members[k], f.key) in w.events
          case Evicted => InNoQueue(w, p) && Notice(p, Preempted) in w.events)
      && (f.place.episode < EPISODE_MAX ==>
            match f.status
            case Queued => forall q: nat, r: nat :: Grant(q, r, f.key) !in w.events
            case Granted(k) => forall q: nat, r: nat ::
              w.events[Grant(q, r, f.key)] == if q == p && r == f.members[k] then 1 else 0
            case Evicted => true)
  {
    RunKeeps(ws, steps, i);
    RunKeyed(ws, steps, i);
    var w := ws[i];
    assert WaitOk(w, p) && KeyOk(w, p);
    forall r: nat, k: nat | Entry(w, r, k).Some? && Entry(w, r, k).value.item == p
      ensures w.procs[p].frame.status.Queued? && r in w.procs[p].frame.members && k == w.procs[p].frame.key
    {
      assert EntryOk(w, r, k);
    }
  }

  /** A grant that its process would take for one of its present wait is of
      that wait, if the request has episodes left: a stale one is discarded. */
  lemma LiveGrantIsOfThisWait(ws: seq<World>, steps: seq<Step>, i: nat, e: Wakeup)
    requires Run(ws, steps) && i < |ws| && e in ws[i].events && e.Grant? && GrantIsLive(ws[i], e)
    requires ws[i].procs[e.pid].frame.place.episode < EPISODE_MAX
    ensures var f := ws[i].procs[e.pid].frame;
      f.status.Granted? && f.status.winner < |f.members| && e == Grant(e.pid, f.members[f.status.winner], f.key)
  {
    WaitIsAtomic(ws, steps, i, e.pid);
    assert e == Grant(e.pid, e.pool, e.key);
  }

  /** Every wait gets a key that no pending grant has, exactly unless the step
      that begins it reuses one: it resumes a request that has no episode left
      while a grant with its key stays pending. */
  lemma NewWaitIsExact(ws: seq<World>, steps: seq<Step>, i: nat, p: nat)
    requires Run(ws, steps) && i < |steps|
    ensures Enabled(ws[i], steps[i]) && i + 1 < |ws|
    ensures Suspends(ws[i], steps[i], p) ==> (WaitsExactly(ws[i + 1], p) <==> !ReusesKey(ws[i], steps[i], p))
    ensures ReusesKey(ws[i], steps[i], p) ==> ws[i].procs[p].frame.place.episode == EPISODE_MAX
  {
    RunStep(ws, steps, i);
    RunKeeps(ws, steps, i);
    RunKeyed(ws, steps, i);
    hide Run, Inv, Keyed, Enabled, Next, WaitsExactly;
    StepKeyed(ws[i], steps[i], p);
  }
}
