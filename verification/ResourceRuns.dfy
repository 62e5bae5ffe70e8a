/** The invariant holds in every reachable state, and what follows from it. */
module ResourceRuns {
  import opened HashHeap
  import opened ResourceModel
  import opened ResourceInvariant
  import opened ResourceSteps

  // ---- release ----

  lemma ReleaseKeeps(w: World, p: nat, r: nat, amount: nat)
    requires Inv(w) && CanCall(w, p) && r < |w.pools|
    ensures var (w', out) := Release(w, p, r, amount);
      && Inv(w') && OthersStandBy(w, w', p)
      && (if 0 < amount <= Held(w, r, p) && amount < 0x8000_0000_0000_0000
          then out == Done && w'.pools[r].inUse == w.pools[r].inUse - amount
               && Hold(w', r, p) == (if Held(w, r, p) == amount then None
                    else Some(Hold(w, r, p).value.(item := Hold(w, r, p).value.item.(amount := Held(w, r, p) - amount))))
               && w'.procs[p].priority == w.procs[p].priority
               && (forall s: nat :: s != r ==> Hold(w', s, p) == Hold(w, s, p))
          else out == Abandoned && w' == w)
  {
    if 0 < amount <= Held(w, r, p) && amount <= INT64_MAX {
      hide GiveBack, SettleTag, SignalGuard;
      var w1 := GiveBack(w, r, p, amount);
      var w2 := SettleTag(w1, p, r);
      var w3 := SignalGuard(w2, r);
      Unsettled(w, p, [r]);
      assert PoolOk(w.pools[r], |w.procs|);
      GiveBackKeeps(w, r, p, amount, [r]);
      HoldingStandBy(w, w1, r, p);
      SettleOne(w, w1, p, r, Hold(w1, r, p));
      SettleTagKeeps(w1, p, r, [r]);
      SignalKeeps(w2, r, 0, []);
      SignalStandBy(w2, w3, r, p);
      StandByTrans(w, w2, w3, p);
      assert w3.pools[r].inUse == w2.pools[r].inUse;
    } else {
      NothingYet(w, p);
    }
  }

  // ---- set_capacity ----

  lemma {:induction false} ShedIsMinimal(h: Holders, need: int)
    ensures var k := ShedCount(h, need);
      && (forall j :: 0 <= j < k ==> Total(h[..j]) < need)
      && (k == |h| || Total(h[..k]) >= need)
  {
    var k := ShedCount(h, need);
    if k > 0 {
      ShedIsMinimal(h[1..], need - h[0].item.amount);
      forall j | 0 < j <= |h| ensures Total(h[..j]) == h[0].item.amount + Total(h[1..][..j - 1]) {
        assert h[..j][1..] == h[1..][..j - 1];
      }
    }
  }

  lemma OthersOk(w: World, r: nat, caller: Option<nat>)
    requires r < |w.pools| && PoolOk(w.pools[r], |w.procs|)
    ensures var others := Others(w.pools[r].holders, caller);
      && DistinctKeys(others)
      && forall z: nat :: Find(others, z) == if Some(z) == caller then None else Hold(w, r, z)
  {
    if caller.Some? {
      DeleteHolding(w.pools[r], |w.procs|, caller.value);
      DeleteOk(w.pools[r].holders, caller.value, VictimFirst);
    }
  }

  /** Shedding reaches the need or leaves nobody but the caller. */
  lemma ShedReaches(w: World, r: nat, others: Holders, caller: Option<nat>, need: int)
    requires r < |w.pools| && DistinctKeys(others)
    requires forall z: nat :: Find(others, z) == if Some(z) == caller then None else Hold(w, r, z)
    ensures var k := ShedCount(others, need);
            var vs := Keys(others[..k]);
      && (Total(others[..k]) >= need || forall z: nat :: Hold(w, r, z).Some? && Some(z) != caller ==> z in vs)
      && Distinct(vs) && HeldBy(w, r, vs) == Total(others[..k])
      && (forall i :: 0 <= i < |vs| ==> Hold(w, r, vs[i]).Some?)
      && (forall z: nat :: z in vs ==> Some(z) != caller)
  {
    var k := ShedCount(others, need);
    var vs := Keys(others[..k]);
    ShedIsMinimal(others, need);
    KeysOfPrefix(w, r, others, k);
    if Total(others[..k]) < need {
      forall z: nat | Some(z) != caller && Hold(w, r, z).Some? ensures z in vs {
        var i :| 0 <= i < |others| && others[i] == Find(others, z).value;
        assert vs[i] == z;
      }
    }
  }

  lemma {:induction false} OnlyHolder(h: Holders, c: Option<nat>)
    requires DistinctKeys(h) && forall z: nat :: Find(h, z).Some? ==> Some(z) == c
    ensures Total(h) == if c.Some? then AmountOf(Find(h, c.value)) else 0
  {
    if h != [] {
      FindAt(h, 0);
      if |h| > 1 { FindAt(h, 1); }
      assert h[1..] == [];
    }
  }

  /** The units left are within the capacity exactly if those the caller keeps are. */
  lemma FitsIff(pool: Pool, n: nat, caller: Option<nat>)
    requires PoolOk(pool, n)
    requires pool.inUse <= pool.capacity || forall z: nat :: Find(pool.holders, z).Some? ==> Some(z) == caller
    ensures pool.inUse <= pool.capacity <==> caller.None? || AmountOf(Find(pool.holders, caller.value)) <= pool.capacity
  {
    if caller.Some? { TotalCovers(pool.holders, caller.value); }
    if pool.inUse > pool.capacity { OnlyHolder(pool.holders, caller); }
  }

  /** Shedding ends with in_use within the capacity, or with only the caller's
      holding left, and leaves that holding as it is. So it ends within the
      capacity exactly if the caller's own units are. */
  lemma ShedKeeps(w: World, caller: Option<nat>, r: nat)
    requires Inv(w) && r < |w.pools|
    ensures var w' := ShedOthers(w, caller, r);
      && Inv(w') && OthersStandBy(w, w', |w.procs|) && w'.pools[r].inUse <= w.pools[r].inUse
      && w'.pools[r].capacity == w.pools[r].capacity
      && (w'.pools[r].inUse <= w'.pools[r].capacity || forall z: nat :: Hold(w', r, z).Some? ==> Some(z) == caller)
      && (caller.Some? ==> Hold(w', r, caller.value) == Hold(w, r, caller.value))
      && (w'.pools[r].inUse <= w'.pools[r].capacity <==> caller.None? || Held(w, r, caller.value) <= w.pools[r].capacity)
  {
    hide EvictAll, Running, Keys, ShedCount, Find, Total;
    var need := w.pools[r].inUse - w.pools[r].capacity;
    var others := Others(w.pools[r].holders, caller);
    var vs := Keys(others[..ShedCount(others, need)]);
    PoolIsOk(w, r);
    OthersOk(w, r, caller);
    ShedReaches(w, r, others, caller, need);
    EvictAllKeeps(w, r, vs, 0, []) by { InvIsRunning(w); }
    InvIsRunning(EvictAll(w, r, vs));
    EvictStandBy(w, EvictAll(w, r, vs), r, vs, |w.procs|);
    PoolIsOk(EvictAll(w, r, vs), r);
    FitsIff(EvictAll(w, r, vs).pools[r], |w.procs|, caller);
  }

  lemma PoolIsOk(w: World, r: nat)
    requires Inv(w) && r < |w.pools|
    ensures PoolOk(w.pools[r], |w.procs|)
  {
  }

  lemma InvIsRunning(w: World)
    ensures Inv(w) <==> Running(w, 0, [])
  {
  }

  lemma ResizeKeeps(w: World, r: nat, value: nat)
    requires Inv(w) && r < |w.pools|
    ensures var pool := w.pools[r];
            var w1 := SetPool(w, r, pool.(capacity := value, maxCapacity := if value > pool.maxCapacity then value else pool.maxCapacity));
      Inv(w1) && OthersStandBy(w, w1, |w.procs|)
      && (forall s: nat, z: nat :: Hold(w1, s, z) == Hold(w, s, z))
  {
    var pool := w.pools[r];
    var w1 := SetPool(w, r, pool.(capacity := value, maxCapacity := if value > pool.maxCapacity then value else pool.maxCapacity));
    forall s | 0 <= s < |w1.pools| ensures PoolOk(w1.pools[s], |w1.procs|) { assert PoolOk(w.pools[s], |w.procs|); }
    forall s: nat, k: nat ensures EntryOk(w1, s, k) { assert EntryOk(w, s, k); }
    forall q | 0 <= q < |w.procs| ensures WaitOk(w1, q) { assert WaitOk(w, q); }
    forall q, z | 0 <= q < |w.procs| && 0 <= z < |w.procs| ensures PlacesOk(w1, q, z) { assert PlacesOk(w, q, z); }
    forall q, s: nat | 0 <= q < |w.procs| ensures TagOk(w1, q, s, Slack(w1, q, 0, [])) {
      assert TagOk(w, q, s, Slack(w, q, 0, []));
    }
    forall q | 0 <= q < |w.procs| ensures Bystander(w, w1, q) {
      forall s: nat ensures Hold(w1, s, q) == Hold(w, s, q) {}
    }
  }

  lemma SetCapacityKeeps(w: World, caller: Option<nat>, r: nat, value: int, preempting: bool)
    requires Inv(w) && r < |w.pools|
    ensures var (w', out) := SetCapacity(w, caller, r, value, preempting);
      && Inv(w') && OthersStandBy(w, w', |w.procs|)
      && (value < 0 ==> out == Abandoned && w' == w)
      && (value >= 0 ==> out == Done && w'.pools[r].capacity == value && w'.pools[r].inUse <= w.pools[r].inUse)
      && (value >= 0 && value != w.pools[r].capacity && preempting ==>
            && (w'.pools[r].inUse <= value || forall z: nat :: Hold(w', r, z).Some? ==> Some(z) == caller)
            && (w'.pools[r].inUse <= value <==> caller.None? || Held(w, r, caller.value) <= value))
      && (value == w.pools[r].capacity || !preempting ==>
            w'.pools[r].inUse == w.pools[r].inUse && forall s: nat, z: nat :: Hold(w', s, z) == Hold(w, s, z))
      && (caller.Some? ==> Hold(w', r, caller.value) == Hold(w, r, caller.value))
  {
    hide ShedOthers, SignalGuard, Inv, OthersStandBy;
    var pool := w.pools[r];
    PoolIsOk(w, r);
    if caller.Some? { TotalCovers(pool.holders, caller.value); }
    if value < 0 || value == pool.capacity {
      NothingYet(w, |w.procs|);
    } else {
      var w1 := SetPool(w, r, pool.(capacity := value, maxCapacity := if value > pool.maxCapacity then value else pool.maxCapacity));
      ResizeKeeps(w, r, value);
      var w2 := if preempting && pool.inUse > value then ShedOthers(w1, caller, r) else w1;
      if preempting && pool.inUse > value {
        ShedKeeps(w1, caller, r);
        StandByTrans(w, w1, w2, |w.procs|);
      }
      SignalLast(w, w2, r);
    }
  }

  lemma SignalLast(w: World, w2: World, r: nat)
    requires Inv(w2) && OthersStandBy(w, w2, |w.procs|) && r < |w.pools|
    ensures Inv(SignalGuard(w2, r)) && OthersStandBy(w, SignalGuard(w2, r), |w.procs|) && SignalEffect(w2, SignalGuard(w2, r), r)
  {
    var w3 := SignalGuard(w2, r);
    SignalKeeps(w2, r, 0, []);
    SignalStandBy(w2, w3, r, |w.procs|);
    StandByTrans(w, w2, w3, |w.procs|);
  }

  // ---- Stopping ----

  lemma WidenSlack(w: World, p: nat, a: seq<nat>, b: seq<nat>)
    requires Running(w, p, a) && p < |w.procs|
    requires w.procs[p].frame.Idle? ==> forall r: nat :: r in w.procs[p].tags ==> r in b
    ensures Running(w, p, b)
  {
    forall q, s: nat | 0 <= q < |w.procs| ensures TagOk(w, q, s, Slack(w, q, p, b)) {
      assert TagOk(w, q, s, Slack(w, q, p, a));
    }
  }

  lemma DropKeeps(w: World, p: nat, r: nat, slack: seq<nat>)
    requires Running(w, p, slack) && p < |w.procs| && w.procs[p].frame.Idle? && r in slack
    ensures var w' := Drop(w, p, r);
      && Running(w', p, slack) && OthersStandBy(w, w', p)
      && w'.procs[p] == w.procs[p].(tags := w'.procs[p].tags)
      && (forall s: nat :: s in w'.procs[p].tags ==> s in w.procs[p].tags && s != r)
  {
    hide SignalGuard, GiveBack, SettleTag, Running, OthersStandBy;
    DropTagMembers(w.procs[p].tags, r);
    if Hold(w, r, p).Some? {
      PoolIsOkIn(w, r, p, slack);
      var w1 := GiveBack(w, r, p, Held(w, r, p));
      var w2 := SettleTag(w1, p, r);
      GiveBackKeeps(w, r, p, Held(w, r, p), slack);
      HoldingStandBy(w, w1, r, p);
      SettleTagKeeps(w1, p, r, slack);
      SettleStandBy(w1, w2, p);
      StandByTrans(w, w1, w2, p);
      DropIsSettle(w, p, r);
      SignalKeeps(w2, r, p, slack);
      SignalStandBy(w2, SignalGuard(w2, r), r, p);
      StandByTrans(w, w2, SignalGuard(w2, r), p);
    } else {
      SettleTagKeeps(w, p, r, slack);
      SettleIsDrop(w, p, r);
      SettleStandBy(w, SettleTag(w, p, r), p);
    }
  }

  /** A tag dropped before or after the units go back. */
  lemma DropIsSettle(w: World, p: nat, r: nat)
    requires p < |w.procs| && r < |w.pools| && Hold(w, r, p).Some? && DistinctKeys(w.pools[r].holders)
    ensures GiveBack(SetProc(w, p, w.procs[p].(tags := DropTag(w.procs[p].tags, r))), r, p, Held(w, r, p))
            == SettleTag(GiveBack(w, r, p, Held(w, r, p)), p, r)
    ensures Drop(w, p, r) == SignalGuard(SettleTag(GiveBack(w, r, p, Held(w, r, p)), p, r), r)
  {
    FindDelete(w.pools[r].holders, p, p);
    var d := SetProc(w, p, w.procs[p].(tags := DropTag(w.procs[p].tags, r)));
    assert Hold(d, r, p) == Hold(w, r, p);
  }

  lemma SettleIsDrop(w: World, p: nat, r: nat)
    requires p < |w.procs| && Hold(w, r, p).None?
    ensures SettleTag(w, p, r) == Drop(w, p, r) == SetProc(w, p, w.procs[p].(tags := DropTag(w.procs[p].tags, r)))
  {
  }

  lemma {:induction false} DropAllKeeps(w: World, p: nat, tags: seq<nat>, slack: seq<nat>)
    requires Running(w, p, slack) && p < |w.procs| && w.procs[p].frame.Idle?
    requires forall i :: 0 <= i < |tags| ==> tags[i] in slack
    ensures var w' := DropAll(w, p, tags);
      && Running(w', p, slack) && OthersStandBy(w, w', p)
      && w'.procs[p] == w.procs[p].(tags := w'.procs[p].tags)
      && (forall s: nat :: s in w'.procs[p].tags ==> s in w.procs[p].tags && s !in tags)
    decreases |tags|
  {
    if tags == [] {
      NothingYet(w, p);
    } else {
      var w1 := Drop(w, p, tags[0]);
      DropKeeps(w, p, tags[0], slack);
      DropAllKeeps(w1, p, tags[1..], slack);
      StandByTrans(w, w1, DropAll(w1, p, tags[1..]), p);
    }
  }

  lemma SomeMember(tags: seq<nat>) returns (s: nat)
    requires tags != []
    ensures s in tags
  {
    s := tags[0];
  }

  lemma AwakenIdle(w: World, p: nat)
    requires p < |w.procs| && w.procs[p].frame.Idle?
    ensures Awaken(w, p) == w
  {
  }

  lemma DieKeeps(w: World, p: nat)
    requires Inv(w) && p < |w.procs| && w.procs[p].frame.Idle? && w.procs[p].tags == []
    ensures var w' := SetProc(w, p, w.procs[p].(alive := false));
      && Inv(w') && OthersStandBy(w, w', p) && forall s: nat :: Hold(w', s, p).None?
  {
    var w' := SetProc(w, p, w.procs[p].(alive := false));
    SamePools(w, w');
    forall s: nat, k: nat ensures EntryOk(w', s, k) { assert EntryOk(w, s, k); }
    forall q | 0 <= q < |w.procs| ensures WaitOk(w', q) { assert WaitOk(w, q); }
    forall q, z | 0 <= q < |w.procs| && 0 <= z < |w.procs| ensures PlacesOk(w', q, z) { assert PlacesOk(w, q, z); }
    forall q, s: nat | 0 <= q < |w.procs| ensures TagOk(w', q, s, Slack(w', q, 0, [])) {
      assert TagOk(w, q, s, Slack(w, q, 0, []));
    }
    forall q | 0 <= q < |w.procs| && q != p ensures Bystander(w, w', q) {
      forall s: nat ensures Hold(w', s, q) == Hold(w, s, q) {}
    }
    forall s: nat ensures Hold(w', s, p).None? { assert TagOk(w', p, s, Slack(w', p, 0, [])); }
  }

  lemma StopKeeps(w: World, p: nat)
    requires Inv(w) && p < |w.procs|
    ensures Inv(Stop(w, p)) && OthersStandBy(w, Stop(w, p), p)
    ensures !Stop(w, p).procs[p].alive && Stop(w, p).procs[p].frame.Idle?
    ensures forall s: nat :: Hold(Stop(w, p), s, p).None?
  {
    hide Awaken, DropAll;
    var tags := w.procs[p].tags;
    var w0 := Awaken(w, p);
    if w.procs[p].frame.Waiting? {
      AwakeKeeps(w, p, w.events);
      assert w.(events := w.events) == w;
      WidenSlack(w0, p, w.procs[p].frame.members, tags);
    } else {
      AwakenIdle(w, p);
      NothingYet(w, p);
      Unsettled(w, p, tags);
    }
    DropAllKeeps(w0, p, tags, tags);
    var w1 := DropAll(w0, p, tags);
    StandByTrans(w, w0, w1, p);
    if w1.procs[p].tags != [] { var s := SomeMember(w1.procs[p].tags); }
    Settled(w1, p, tags);
    DieKeeps(w1, p);
    StandByTrans(w, w1, Stop(w, p), p);
  }

  // ---- priority_set ----

  /** A process's holding when the pools in `done` have been re-ranked. */
  function RankedHolding(h: Option<Holding>, r: nat, done: seq<nat>, priority: int): Option<Holding> {
    match h
    case None => None
    case Some(t) => if r in done && !t.item.fixed then Some(t.(rank := priority)) else h
  }

  /** Its waiting entry, when an explicit one has gone back in the pools in `done`. */
  function RankedEntry(e: Option<Tag<nat>>, r: nat, done: seq<nat>, rq: Request): Option<Tag<nat>> {
    match e
    case None => None
    case Some(t) => if r in done && rq.fixed then Some(t.(rank := rq.rank)) else e
  }

  /** Holdings and entries of p change rank only; nothing else changes. */
  ghost predicate Reranked(w: World, w': World, p: nat, done: seq<nat>, priority: int) {
    && p < |w.procs| && w' == w.(pools := w'.pools) && |w'.pools| == |w.pools|
    && (forall s :: 0 <= s < |w.pools| ==>
          w'.pools[s] == w.pools[s].(holders := w'.pools[s].holders, queue := w'.pools[s].queue))
    && (forall s: nat, z: nat :: Hold(w', s, z) ==
          if z == p then RankedHolding(Hold(w, s, z), s, done, priority) else Hold(w, s, z))
    && (forall s: nat, k: nat :: Entry(w', s, k) ==
          if w.procs[p].frame.Waiting? && k == w.procs[p].frame.key
          then RankedEntry(Entry(w, s, k), s, done, w.procs[p].frame.rq) else Entry(w, s, k))
  }

  lemma ReprioritizeEffect(w: World, p: nat, r: nat, priority: int)
    requires Pools(w) && p < |w.procs|
    ensures Pools(Reprioritize(w, p, r, priority)) && Reranked(w, Reprioritize(w, p, r, priority), p, [r], priority)
  {
    if r < |w.pools| {
      var w1 := match Hold(w, r, p)
                case Some(t) => if t.item.fixed then w else SetRank(w, r, p, priority, false)
                case None => w;
      ReprioritizeHolding(w, w1, p, r, priority);
      ReprioritizeEntry(w, w1, p, r, priority);
    }
  }

  lemma ReprioritizeHolding(w: World, w1: World, p: nat, r: nat, priority: int)
    requires Pools(w) && p < |w.procs| && r < |w.pools|
    requires w1 == match Hold(w, r, p)
                   case Some(t) => if t.item.fixed then w else SetRank(w, r, p, priority, false)
                   case None => w
    ensures Pools(w1) && w1 == w.(pools := w1.pools) && |w1.pools| == |w.pools|
    ensures forall s :: 0 <= s < |w.pools| ==> w1.pools[s] == w.pools[s].(holders := w1.pools[s].holders)
    ensures forall s: nat, z: nat :: Hold(w1, s, z) ==
              (if z == p then RankedHolding(Hold(w, s, z), s, [r], priority) else Hold(w, s, z))
    ensures forall s: nat, k: nat :: Entry(w1, s, k) == Entry(w, s, k)
  {
    assert PoolOk(w.pools[r], |w.procs|);
    if Hold(w, r, p).Some? && !Hold(w, r, p).value.item.fixed {
      var t := Hold(w, r, p).value;
      var t' := t.(rank := priority, item := t.item.(fixed := false));
      assert AmountOf(Find(w.pools[r].holders, p)) > 0;
      PutHolding(w.pools[r], |w.procs|, t');
      assert w.pools[r].inUse + 0 == w.pools[r].inUse;
      forall s | 0 <= s < |w1.pools| ensures PoolOk(w1.pools[s], |w1.procs|) { assert PoolOk(w.pools[s], |w.procs|); }
    }
  }

  lemma ReprioritizeEntry(w: World, w1: World, p: nat, r: nat, priority: int)
    requires Pools(w1) && p < |w.procs| && r < |w.pools| && w1 == w.(pools := w1.pools) && |w1.pools| == |w.pools|
    requires forall s :: 0 <= s < |w.pools| ==> w1.pools[s] == w.pools[s].(holders := w1.pools[s].holders)
    requires w1 == match Hold(w, r, p)
                   case Some(t) => if t.item.fixed then w else SetRank(w, r, p, priority, false)
                   case None => w
    requires forall s: nat, z: nat :: Hold(w1, s, z) ==
              (if z == p then RankedHolding(Hold(w, s, z), s, [r], priority) else Hold(w, s, z))
    requires forall s: nat, k: nat :: Entry(w1, s, k) == Entry(w, s, k)
    ensures Pools(Reprioritize(w, p, r, priority)) && Reranked(w, Reprioritize(w, p, r, priority), p, [r], priority)
  {
    hide Pools, Put;
    var w' := Reprioritize(w, p, r, priority);
    var f := w.procs[p].frame;
    if f.Waiting? && Entry(w1, r, f.key).Some? && f.rq.fixed { RerankOne(w1, r, f.key, f.rq.rank); }
  }

  /** One entry gets a new rank. */
  lemma RerankOne(w: World, r: nat, key: nat, rank: int)
    requires Pools(w) && r < |w.pools| && Entry(w, r, key).Some?
    ensures var e := Entry(w, r, key).value.(rank := rank);
            var w' := SetPool(w, r, w.pools[r].(queue := Put(w.pools[r].queue, e, WaiterFirst)));
      && Pools(w') && (forall s: nat, z: nat :: Hold(w', s, z) == Hold(w, s, z))
      && (forall s: nat, k: nat :: Entry(w', s, k) == if s == r && k == key then Some(e) else Entry(w, s, k))
  {
    var e := Entry(w, r, key).value.(rank := rank);
    var w' := SetPool(w, r, w.pools[r].(queue := Put(w.pools[r].queue, e, WaiterFirst)));
    assert PoolOk(w.pools[r], |w.procs|);
    PutEntry(w.pools[r], |w.procs|, e);
    forall s | 0 <= s < |w'.pools| ensures PoolOk(w'.pools[s], |w'.procs|) { assert PoolOk(w.pools[s], |w.procs|); }
    forall s: nat, z: nat ensures Hold(w', s, z) == Hold(w, s, z) {}
  }

  lemma RerankedTwice(w: World, w1: World, w2: World, p: nat, a: seq<nat>, b: seq<nat>, priority: int)
    requires Reranked(w, w1, p, a, priority) && Reranked(w1, w2, p, b, priority)
    ensures Reranked(w, w2, p, a + b, priority)
  {
  }

  lemma {:induction false} ReprioritizeAllEffect(w: World, p: nat, tags: seq<nat>, priority: int)
    requires Pools(w) && p < |w.procs|
    ensures var w' := ReprioritizeAll(w, p, tags, priority); Pools(w') && Reranked(w, w', p, tags, priority)
    decreases |tags|
  {
    if tags != [] {
      hide Reprioritize;
      var w1 := Reprioritize(w, p, tags[0], priority);
      ReprioritizeEffect(w, p, tags[0], priority);
      ReprioritizeAllEffect(w1, p, tags[1..], priority);
      RerankedTwice(w, w1, ReprioritizeAll(w1, p, tags[1..], priority), p, [tags[0]], tags[1..], priority);
      assert [tags[0]] + tags[1..] == tags;
    }
  }

  /** The engine's own re-ranking of the process's waiting entries. */
  lemma RerankEntriesEffect(w: World, p: nat, priority: int)
    requires Pools(w) && p < |w.procs|
    ensures var w' := RerankEntries(w, p, priority); var f := w.procs[p].frame;
      && Pools(w') && w' == w.(pools := w'.pools) && |w'.pools| == |w.pools|
      && (forall s :: 0 <= s < |w.pools| ==> w'.pools[s] == w.pools[s].(queue := w'.pools[s].queue))
      && (forall s: nat, z: nat :: Hold(w', s, z) == Hold(w, s, z))
      && (forall s: nat, k: nat :: Entry(w', s, k) ==
            if f.Waiting? && k == f.key && s in f.members && Entry(w, s, k).Some?
            then Some(Entry(w, s, k).value.(rank := priority)) else Entry(w, s, k))
  {
    var w' := RerankEntries(w, p, priority);
    var f := w.procs[p].frame;
    if f.Waiting? {
      forall s: nat | s < |w.pools|
        ensures PoolOk(w'.pools[s], |w'.procs|) && w'.pools[s] == w.pools[s].(queue := w'.pools[s].queue)
        ensures forall k: nat ::
          Entry(w', s, k) == if k == f.key && s in f.members && Entry(w, s, k).Some?
                             then Some(Entry(w, s, k).value.(rank := priority)) else Entry(w, s, k)
      {
        assert PoolOk(w.pools[s], |w.procs|);
        if s in f.members && Find(w.pools[s].queue, f.key).Some? {
          PutEntry(w.pools[s], |w.procs|, Find(w.pools[s].queue, f.key).value.(rank := priority));
        }
      }
    }
  }

  function RankWhileWaiting(proc: Proc): int {
    if proc.frame.Waiting? then RequestRank(proc.frame.rq, proc) else proc.priority
  }

  /** Everything priority_set does: tracking holdings and rank-less entries
      move to the new priority, explicit ones keep their rank. */
  ghost predicate PrioritySet(w: World, w': World, p: nat, priority: int) {
    && p < |w.procs| && w' == w.(pools := w'.pools, procs := w.procs[p := w.procs[p].(priority := priority)])
    && |w'.pools| == |w.pools|
    && (forall s :: 0 <= s < |w.pools| ==>
          w'.pools[s] == w.pools[s].(holders := w'.pools[s].holders, queue := w'.pools[s].queue))
    && (forall s: nat, z: nat :: Hold(w', s, z) ==
          if z == p && Hold(w, s, z).Some? && !Hold(w, s, z).value.item.fixed
          then Some(Hold(w, s, z).value.(rank := priority)) else Hold(w, s, z))
    && (forall s: nat, k: nat :: Entry(w', s, k) ==
          if Entry(w, s, k).Some? && Entry(w, s, k).value.item == p
          then Some(Entry(w, s, k).value.(rank := RankWhileWaiting(w'.procs[p]))) else Entry(w, s, k))
  }

  lemma SetPriorityEffect(w: World, p: nat, priority: int)
    requires Inv(w) && p < |w.procs|
    ensures Pools(SetPriority(w, p, priority))
    ensures Entries(w) && forall s: nat, k: nat :: Entry(w, s, k).Some? && Entry(w, s, k).value.item == p ==> w.procs[p].frame.Waiting?
    ensures PrioritySet(w, SetPriority(w, p, priority), p, priority)
  {
    hide RerankEntries, ReprioritizeAll;
    var w1 := SetProc(w, p, w.procs[p].(priority := priority));
    var w2 := RerankEntries(w1, p, priority);
    var w3 := ReprioritizeAll(w2, p, w.procs[p].tags, priority);
    SamePools(w, w1);
    RerankEntriesEffect(w1, p, priority);
    ReprioritizeAllEffect(w2, p, w.procs[p].tags, priority);
    forall s: nat, z: nat
      ensures Hold(w3, s, z) == if z == p && Hold(w, s, z).Some? && !Hold(w, s, z).value.item.fixed
                                then Some(Hold(w, s, z).value.(rank := priority)) else Hold(w, s, z)
    {
      if z == p { assert TagOk(w, p, s, Slack(w, p, 0, [])); }
      assert Hold(w2, s, z) == Hold(w1, s, z) == Hold(w, s, z);
    }
    var f := w.procs[p].frame;
    forall s: nat, k: nat
      ensures Entry(w, s, k).Some? && Entry(w, s, k).value.item == p ==> f.Waiting?
      ensures Entry(w3, s, k) == if Entry(w, s, k).Some? && Entry(w, s, k).value.item == p
                                 then Some(Entry(w, s, k).value.(rank := RankWhileWaiting(w1.procs[p]))) else Entry(w, s, k)
    {
      PriorityEntry(w, w1, w2, w3, p, priority, s, k);
    }
  }

  lemma PriorityEntry(w: World, w1: World, w2: World, w3: World, p: nat, priority: int, s: nat, k: nat)
    requires Inv(w) && p < |w.procs|
    requires w1 == SetProc(w, p, w.procs[p].(priority := priority)) && Entry(w1, s, k) == Entry(w, s, k)
    requires w2.procs == w1.procs && Reranked(w2, w3, p, w.procs[p].tags, priority)
    requires var f := w.procs[p].frame;
      Entry(w2, s, k) == if f.Waiting? && k == f.key && s in f.members && Entry(w1, s, k).Some?
                         then Some(Entry(w1, s, k).value.(rank := priority)) else Entry(w1, s, k)
    ensures var f := w.procs[p].frame;
      && (Entry(w, s, k).Some? && Entry(w, s, k).value.item == p ==> f.Waiting?)
      && Entry(w3, s, k) == if Entry(w, s, k).Some? && Entry(w, s, k).value.item == p
                            then Some(Entry(w, s, k).value.(rank := RankWhileWaiting(w1.procs[p]))) else Entry(w, s, k)
  {
    assert EntryOk(w, s, k);
    var f := w.procs[p].frame;
    if Entry(w, s, k).Some? && Entry(w, s, k).value.item == p {
      assert TagOk(w, p, s, Slack(w, p, 0, []));
    } else if Entry(w, s, k).Some? && f.Waiting? {
      KeysDiffer(w, Entry(w, s, k).value.item, p);
    }
  }

  lemma SetPriorityKeeps(w: World, p: nat, priority: int)
    requires Inv(w) && p < |w.procs|
    ensures Inv(SetPriority(w, p, priority)) && OthersStandBy(w, SetPriority(w, p, priority), |w.procs|)
  {
    hide SetPriority;
    var w' := SetPriority(w, p, priority);
    SetPriorityEffect(w, p, priority);
    forall s: nat, k: nat ensures EntryOk(w', s, k) { assert EntryOk(w, s, k); }
    forall q | 0 <= q < |w.procs| ensures WaitOk(w', q) { PriorityWait(w, w', p, priority, q); }
    forall q, z | 0 <= q < |w.procs| && 0 <= z < |w.procs| ensures PlacesOk(w', q, z) { assert PlacesOk(w, q, z); }
    forall q, s: nat | 0 <= q < |w.procs| ensures TagOk(w', q, s, Slack(w', q, 0, [])) {
      assert TagOk(w, q, s, Slack(w, q, 0, []));
    }
  }

  lemma PriorityWait(w: World, w': World, p: nat, priority: int, q: nat)
    requires Inv(w) && PrioritySet(w, w', p, priority) && q < |w.procs|
    ensures WaitOk(w', q)
  {
    assert WaitOk(w, q);
    var f := w.procs[q].frame;
    if f.Waiting? {
      assert w'.procs[q].frame == f;
      assert StatusOk(w', q, f);
      if f.call.Take? && StakeOk(w, f.members[0], q, f.rq, f.call) {
        assert StakeOk(w', f.members[0], q, f.rq, f.call);
      }
    }
  }

  // ---- Events ----

  lemma EventsKeep(w: World, events: multiset<Wakeup>, now: real)
    requires Inv(w) && w.now <= now
    requires forall q :: 0 <= q < |w.procs| && w.procs[q].frame.Waiting? ==>
      forall e :: e in w.events && e.pid == q && (e.Grant? ==> GrantIsLive(w, e)) ==> e in events
    ensures Inv(w.(events := events, now := now)) && OthersStandBy(w, w.(events := events, now := now), |w.procs|)
  {
    var w' := w.(events := events, now := now);
    SamePools(w, w');
    forall s: nat, k: nat ensures EntryOk(w', s, k) { assert EntryOk(w, s, k); }
    forall q | 0 <= q < |w.procs| ensures WaitOk(w', q) { assert WaitOk(w, q); }
    forall q, z | 0 <= q < |w.procs| && 0 <= z < |w.procs| ensures PlacesOk(w', q, z) { assert PlacesOk(w, q, z); }
    forall q, s: nat | 0 <= q < |w.procs| ensures TagOk(w', q, s, Slack(w', q, 0, [])) {
      assert TagOk(w, q, s, Slack(w, q, 0, []));
    }
    forall q | 0 <= q < |w.procs| ensures Bystander(w, w', q) {
      forall s: nat ensures Hold(w', s, q) == Hold(w, s, q) {}
    }
  }
}
