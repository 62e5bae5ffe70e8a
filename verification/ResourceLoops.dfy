/** The two loops that throw holders out one at a time, and the closed forms
    that `ResourceModel` gives for them. */
module ResourceLoops {
  import opened HashHeap
  import opened ResourceModel
  import opened ResourceInvariant
  import opened ResourceSteps
  import opened ResourceRuns

  // ---- Holdings of two processes change independently ----

  /** Two worlds with the same pools but for the holders, found alike. */
  lemma SameHolders(a: Holders, b: Holders)
    requires HeapOk(a, VictimFirst) && HeapOk(b, VictimFirst)
    requires forall k: nat :: Find(a, k) == Find(b, k)
    ensures a == b
  {
    HeapIsItsMap(a, b, VictimFirst);
  }

  lemma PutPut(h: Holders, t: Holding, u: Holding)
    requires HeapOk(h, VictimFirst) && t.key == u.key
    ensures Put(Put(h, t, VictimFirst), u, VictimFirst) == Put(h, u, VictimFirst)
  {
    PutOk(h, t, VictimFirst);
    PutOk(h, u, VictimFirst);
    PutOk(Put(h, t, VictimFirst), u, VictimFirst);
    forall k: nat ensures Find(Put(Put(h, t, VictimFirst), u, VictimFirst), k) == Find(Put(h, u, VictimFirst), k) {
      FindPut(h, t, VictimFirst, k);
      FindPut(h, u, VictimFirst, k);
      FindPut(Put(h, t, VictimFirst), u, VictimFirst, k);
    }
    SameHolders(Put(Put(h, t, VictimFirst), u, VictimFirst), Put(h, u, VictimFirst));
  }

  lemma PutDelete(h: Holders, t: Holding, v: nat)
    requires HeapOk(h, VictimFirst) && t.key != v
    ensures Delete(Put(h, t, VictimFirst), v) == Put(Delete(h, v), t, VictimFirst)
  {
    var a, b := Delete(Put(h, t, VictimFirst), v), Put(Delete(h, v), t, VictimFirst);
    PutOk(h, t, VictimFirst);
    DeleteOk(h, v, VictimFirst);
    DeleteOk(Put(h, t, VictimFirst), v, VictimFirst);
    PutOk(Delete(h, v), t, VictimFirst);
    forall k: nat ensures Find(a, k) == Find(b, k) {
      FindPut(h, t, VictimFirst, k);
      FindDelete(h, v, k);
      FindDelete(Put(h, t, VictimFirst), v, k);
      FindPut(Delete(h, v), t, VictimFirst, k);
    }
    SameHolders(a, b);
  }

  lemma DeletePut(h: Holders, t: Holding)
    requires HeapOk(h, VictimFirst) && Find(h, t.key) == Some(t)
    ensures Put(Delete(h, t.key), t, VictimFirst) == h
  {
    DeleteOk(h, t.key, VictimFirst);
    PutOk(Delete(h, t.key), t, VictimFirst);
    forall k: nat ensures Find(Put(Delete(h, t.key), t, VictimFirst), k) == Find(h, k) {
      FindPut(Delete(h, t.key), t, VictimFirst, k);
      FindDelete(h, t.key, k);
    }
    SameHolders(Put(Delete(h, t.key), t, VictimFirst), h);
  }

  /** The holding a process has once it takes n more units. */
  function Grown(w: World, r: nat, p: nat, n: nat, rq: Request): Holding
    requires p < |w.procs|
  {
    match Hold(w, r, p)
    case Some(t) => t.(item := t.item.(amount := t.item.amount + n))
    case None => Tag(p, RequestRank(rq, w.procs[p]), w.now, Stake(n, rq.fixed))
  }

  /** TakeUnits as one change to one pool and one change to one process. */
  lemma TakeIs(w: World, r: nat, p: nat, n: nat, rq: Request)
    requires r < |w.pools| && p < |w.procs|
    requires Hold(w, r, p).Some? ==> r in w.procs[p].tags
    ensures TakeUnits(w, r, p, n, rq) ==
      w.(pools := w.pools[r := w.pools[r].(inUse := w.pools[r].inUse + n,
                                           holders := Put(w.pools[r].holders, Grown(w, r, p, n, rq), VictimFirst))],
         procs := w.procs[p := w.procs[p].(tags := AddTag(w.procs[p].tags, r))])
  {
  }

  lemma HeapIsDistinct(h: Holders)
    requires HeapOk(h, VictimFirst)
    ensures DistinctKeys(h)
  {
  }

  /** Taking n and then m units is taking n + m. */
  lemma TakeTwice(w: World, r: nat, p: nat, n: nat, m: nat, rq: Request)
    requires r < |w.pools| && p < |w.procs| && HeapOk(w.pools[r].holders, VictimFirst)
    requires Hold(w, r, p).Some? ==> r in w.procs[p].tags && Hold(w, r, p).value.key == p
    ensures TakeUnits(TakeUnits(w, r, p, n, rq), r, p, m, rq) == TakeUnits(w, r, p, n + m, rq)
  {
    hide TakeUnits, Put, HeapOk;
    var w1 := TakeUnits(w, r, p, n, rq);
    var h := w.pools[r].holders;
    var t := Grown(w, r, p, n, rq);
    TakeIs(w, r, p, n, rq);
    assert DistinctKeys(h) by { HeapIsDistinct(h); }
    FindPut(h, t, VictimFirst, p);
    TakeIs(w1, r, p, m, rq);
    TakeIs(w, r, p, n + m, rq);
    PutPut(h, t, Grown(w, r, p, n + m, rq));
    assert Grown(w1, r, p, m, rq) == Grown(w, r, p, n + m, rq);
    var w2 := TakeUnits(w1, r, p, m, rq);
    assert w2.pools == TakeUnits(w, r, p, n + m, rq).pools;
    assert w2.procs == TakeUnits(w, r, p, n + m, rq).procs;
  }

  /** Pool s once v is thrown out of r: without its holding there, and without
      its entry in any queue. */
  function WithoutHolder(w: World, r: nat, v: nat, s: nat): Pool
    requires v < |w.procs| && s < |w.pools|
  {
    var pool := w.pools[s];
    var f := w.procs[v].frame;
    var pool' := if f.Waiting? && s in f.members then pool.(queue := Delete(pool.queue, f.key)) else pool;
    if s == r then pool'.(inUse := pool.inUse - Held(w, r, v), holders := Delete(pool.holders, v)) else pool'
  }

  /** Evict as one change to the pools and one to the victim. */
  lemma EvictIs(w: World, r: nat, v: nat)
    requires r < |w.pools| && v < |w.procs|
    ensures var f := w.procs[v].frame; var w' := Evict(w, r, v);
      && w'.events == w.events + multiset{Notice(v, Preempted)} && w'.now == w.now && w'.requestSeq == w.requestSeq
      && w'.procs == w.procs[v := w'.procs[v]]
      && w'.procs[v] == w.procs[v].(tags := DropTag(w.procs[v].tags, r), frame := if f.Waiting? then f.(status := Evicted) else f)
      && (forall s :: 0 <= s < |w.pools| ==> w'.pools[s] == WithoutHolder(w, r, v, s))
  {
  }

  /** A holder is thrown out alike before and after the caller takes units. */
  lemma EvictTake(w: World, r: nat, p: nat, v: nat, n: nat, rq: Request)
    requires r < |w.pools| && p < |w.procs| && v < |w.procs| && v != p && HeapOk(w.pools[r].holders, VictimFirst)
    requires Hold(w, r, p).Some? ==> r in w.procs[p].tags && Hold(w, r, p).value.key == p
    ensures Evict(TakeUnits(w, r, p, n, rq), r, v) == TakeUnits(Evict(w, r, v), r, p, n, rq)
  {
    hide Evict, TakeUnits, Put, Delete, AddTag, DropTag;
    var t := Grown(w, r, p, n, rq);
    var h := w.pools[r].holders;
    TakeIs(w, r, p, n, rq);
    var a := TakeUnits(w, r, p, n, rq);
    var e := Evict(w, r, v);
    EvictIs(w, r, v);
    EvictIs(a, r, v);
    FindDelete(h, v, p);
    FindPut(h, t, VictimFirst, v);
    TakeIs(e, r, p, n, rq);
    PutDelete(h, t, v);
    var ea, te := Evict(a, r, v), TakeUnits(e, r, p, n, rq);
    assert Grown(e, r, p, n, rq) == t;
    assert forall s :: 0 <= s < |w.pools| ==> ea.pools[s] == te.pools[s];
    assert ea.pools == te.pools;
    assert forall q :: 0 <= q < |w.procs| ==> ea.procs[q] == te.procs[q];
    assert ea.procs == te.procs;
  }

  lemma {:induction false} EvictAllTake(w: World, r: nat, p: nat, vs: seq<nat>, n: nat, rq: Request)
    requires r < |w.pools| && p < |w.procs| && HeapOk(w.pools[r].holders, VictimFirst)
    requires forall i :: 0 <= i < |vs| ==> vs[i] < |w.procs| && vs[i] != p
    requires Hold(w, r, p).Some? ==> r in w.procs[p].tags && Hold(w, r, p).value.key == p
    ensures EvictAll(TakeUnits(w, r, p, n, rq), r, vs) == TakeUnits(EvictAll(w, r, vs), r, p, n, rq)
    decreases |vs|
  {
    if vs != [] {
      hide Evict, TakeUnits;
      var v := vs[0];
      var w1 := Evict(w, r, v);
      EvictTake(w, r, p, v, n, rq);
      EvictIs(w, r, v);
      DeleteOk(w.pools[r].holders, v, VictimFirst);
      FindDelete(w.pools[r].holders, v, p);
      EvictAllTake(w1, r, p, vs[1..], n, rq);
    }
  }

  // ---- The preempting loop ----

  /** A holding that is not below the rank does not change who is. */
  lemma {:induction false} VictimsBefore(h: Holders, t: Holding, rank: int, need: int)
    requires HeapOk(h, VictimFirst) && t.rank >= rank
    requires Find(h, t.key).Some? ==> Find(h, t.key).value.rank >= rank
    ensures var k := VictimCount(h, rank, need); var h' := Put(h, t, VictimFirst);
      VictimCount(h', rank, need) == k && h'[..k] == h[..k]
  {
    var h' := Put(h, t, VictimFirst);
    if h == [] {
    } else if h[0].rank >= rank {
      InsertMembers(Delete(h, t.key), t, VictimFirst);
      DeleteMembers(h, t.key);
      assert h'[0] == t || h'[0] in h;
    } else {
      assert h' == [h[0]] + Put(h[1..], t, VictimFirst);
      VictimsBefore(h[1..], t, rank, need - h[0].item.amount);
      assert h'[1..] == Put(h[1..], t, VictimFirst);
    }
  }

  /** The state between two turns of the preempting loop: nothing is free, and
      the caller's holding, if any, ranks as its request. */
  ghost predicate Claiming(w: World, p: nat, r: nat, rq: Request, slack: seq<nat>) {
    && Running(w, p, slack) && p < |w.procs| && r < |w.pools| && w.procs[p].alive && w.procs[p].frame.Idle?
    && Room(w.pools[r]) == 0
    && (Hold(w, r, p).Some? ==> Hold(w, r, p).value.rank >= RequestRank(rq, w.procs[p]))
  }

  lemma ClaimerIsTagged(w: World, p: nat, r: nat, slack: seq<nat>)
    requires Running(w, p, slack) && p < |w.procs| && r < |w.pools|
    ensures Hold(w, r, p).Some? ==> r in w.procs[p].tags && Hold(w, r, p).value.key == p
    ensures HeapOk(w.pools[r].holders, VictimFirst)
    ensures forall z: nat :: Hold(w, r, z).Some? ==> z < |w.procs|
  {
    assert TagOk(w, p, r, Slack(w, p, p, slack)) && PoolOk(w.pools[r], |w.procs|);
  }

  /** The front holder is thrown out and the caller takes what it needs of the room. */
  function PreemptTurn(w: World, p: nat, r: nat, rem: nat, rq: Request): (res: (World, int))
    requires p < |w.procs| && r < |w.pools| && w.pools[r].holders != []
    ensures |res.0.pools| == |w.pools| && |res.0.procs| == |w.procs|
    ensures 0 <= res.1 <= rem
  {
    var w1 := Evict(w, r, w.pools[r].holders[0].key);
    var take := Min(Room(w1.pools[r]), rem);
    (if take > 0 then TakeUnits(w1, r, p, take, rq) else w1, take)
  }

  /** The victim of a turn: it is not the caller, and its units are no longer in use. */
  lemma TurnVictim(w: World, p: nat, r: nat, rq: Request, slack: seq<nat>)
    requires Claiming(w, p, r, rq, slack)
    requires w.pools[r].holders != [] && w.pools[r].holders[0].rank < RequestRank(rq, w.procs[p])
    ensures var h := w.pools[r].holders; var v := h[0].key; var w1 := Evict(w, r, v);
      && v != p && v < |w.procs| && Running(w1, p, slack) && w1.procs[p] == w.procs[p] && Hold(w1, r, p) == Hold(w, r, p)
      && w1.pools[r].holders == h[1..] && w1.pools[r].capacity == w.pools[r].capacity
      && w1.pools[r].inUse == w.pools[r].inUse - h[0].item.amount
  {
    hide Evict;
    FrontIsFound(w.pools[r].holders);
    EvictKeeps(w, r, w.pools[r].holders[0].key, p, slack);
  }

  /** Between turns nothing is free, unless the claim is complete. */
  lemma TurnKeeps(w: World, p: nat, r: nat, rem: nat, rq: Request, slack: seq<nat>)
    requires Claiming(w, p, r, rq, slack)
    requires w.pools[r].holders != [] && w.pools[r].holders[0].rank < RequestRank(rq, w.procs[p])
    ensures var (w2, take) := PreemptTurn(w, p, r, rem, rq);
      Running(w2, p, slack) && (take < rem ==> Claiming(w2, p, r, rq, slack))
  {
    hide Evict, TakeUnits, Running;
    var w1 := Evict(w, r, w.pools[r].holders[0].key);
    TurnVictim(w, p, r, rq, slack);
    var take := Min(Room(w1.pools[r]), rem);
    if take > 0 { TakeKeeps(w1, r, p, take, rq, slack); }
  }

  /** Each turn leaves one holder fewer beside the caller. */
  lemma TurnShrinks(w: World, p: nat, r: nat, rem: nat, rq: Request, slack: seq<nat>)
    requires Claiming(w, p, r, rq, slack)
    requires w.pools[r].holders != [] && w.pools[r].holders[0].rank < RequestRank(rq, w.procs[p])
    ensures |Delete(PreemptTurn(w, p, r, rem, rq).0.pools[r].holders, p)| < |Delete(w.pools[r].holders, p)|
  {
    hide Evict, Running, Put;
    var h := w.pools[r].holders;
    var w1 := Evict(w, r, h[0].key);
    TurnVictim(w, p, r, rq, slack);
    ClaimerIsTagged(w1, p, r, slack);
    assert Delete(h, p) == [h[0]] + Delete(h[1..], p);
    var take := Min(Room(w1.pools[r]), rem);
    if take > 0 {
      TakeIs(w1, r, p, take, rq) by { ClaimerIsTagged(w1, p, r, slack); }
      DeleteOfPut(h[1..], Grown(w1, r, p, take, rq));
    }
  }

  lemma DeleteOfPut(h: Holders, t: Holding)
    requires HeapOk(h, VictimFirst)
    ensures Delete(Put(h, t, VictimFirst), t.key) == Delete(h, t.key)
  {
    var a, b := Delete(Put(h, t, VictimFirst), t.key), Delete(h, t.key);
    PutOk(h, t, VictimFirst);
    DeleteOk(h, t.key, VictimFirst);
    DeleteOk(Put(h, t, VictimFirst), t.key, VictimFirst);
    forall k: nat ensures Find(a, k) == Find(b, k) {
      FindPut(h, t, VictimFirst, k);
      FindDelete(h, t.key, k);
      FindDelete(Put(h, t, VictimFirst), t.key, k);
    }
    SameHolders(a, b);
  }

  /** One turn of the loop, and then preempting for the rest, is preempting for all. */
  lemma PreemptTurns(w: World, p: nat, r: nat, rem: nat, rq: Request, slack: seq<nat>)
    requires Claiming(w, p, r, rq, slack) && rem > 0
    requires w.pools[r].holders != [] && w.pools[r].holders[0].rank < RequestRank(rq, w.procs[p])
    ensures var (w2, take) := PreemptTurn(w, p, r, rem, rq);
      PreemptFor(w, p, r, rem, rq) ==
        if take == rem then (w2, rem)
        else (PreemptFor(w2, p, r, rem - take, rq).0, take + PreemptFor(w2, p, r, rem - take, rq).1)
  {
    hide Evict, TakeUnits, Running, Put;
    var w1 := Evict(w, r, w.pools[r].holders[0].key);
    var take := Min(Room(w1.pools[r]), rem);
    TurnVictim(w, p, r, rq, slack);
    FirstVictim(w, p, r, rem, rq, slack);
    if take == rem {
      NoVictim(w1, p, r, rem, rq);
    } else if take > 0 {
      TakenFirst(w1, p, r, take, rem, rq, slack);
    }
  }

  /** The rest of the victims are those of the same claim without the first. */
  lemma FirstVictim(w: World, p: nat, r: nat, rem: nat, rq: Request, slack: seq<nat>)
    requires Claiming(w, p, r, rq, slack) && rem > 0
    requires w.pools[r].holders != [] && w.pools[r].holders[0].rank < RequestRank(rq, w.procs[p])
    ensures PreemptFor(w, p, r, rem, rq) == PreemptFor(Evict(w, r, w.pools[r].holders[0].key), p, r, rem, rq)
  {
    hide Evict, TakeUnits, Running, Put;
    var h := w.pools[r].holders;
    var need := rem + w.pools[r].inUse - w.pools[r].capacity;
    TurnVictim(w, p, r, rq, slack);
    var k := VictimCount(h[1..], RequestRank(rq, w.procs[p]), need - h[0].item.amount);
    KeysOfFront(h, k);
    EvictFirst(w, r, Keys(h[..1 + k]));
  }

  /** Enough is free, so nobody is thrown out. */
  lemma NoVictim(w: World, p: nat, r: nat, rem: nat, rq: Request)
    requires p < |w.procs| && r < |w.pools| && 0 < rem <= Room(w.pools[r])
    ensures PreemptFor(w, p, r, rem, rq) == (TakeUnits(w, r, p, rem, rq), rem)
  {
  }

  lemma KeysOfFront(h: Holders, k: nat)
    requires k < |h|
    ensures Keys(h[..1 + k]) == [h[0].key] + Keys(h[1..][..k])
  {
  }

  /** What is free is taken before or after the other victims leave. */
  lemma TakenFirst(w1: World, p: nat, r: nat, take: nat, rem: nat, rq: Request, slack: seq<nat>)
    requires Running(w1, p, slack) && p < |w1.procs| && r < |w1.pools| && 0 < take == Room(w1.pools[r]) < rem
    requires Hold(w1, r, p).Some? ==> Hold(w1, r, p).value.rank >= RequestRank(rq, w1.procs[p])
    ensures var h := w1.pools[r].holders; var rank := RequestRank(rq, w1.procs[p]);
            var all := EvictAll(w1, r, Keys(h[..VictimCount(h, rank, rem - take)]));
            var (w3, more) := PreemptFor(TakeUnits(w1, r, p, take, rq), p, r, rem - take, rq);
      take + more == Min(Room(all.pools[r]), rem) && w3 == TakeUnits(all, r, p, take + more, rq)
  {
    hide EvictAll, Running, TakeUnits, Put, VictimCount, HeapOk, Find, AddTag;
    var h := w1.pools[r].holders;
    var rank := RequestRank(rq, w1.procs[p]);
    var vs := Keys(h[..VictimCount(h, rank, rem - take)]);
    var all := EvictAll(w1, r, vs);
    var t := Grown(w1, r, p, take, rq);
    ClaimerIsTagged(w1, p, r, slack);
    VictimsLeave(w1, p, r, rem - take, rank, slack);
    ClaimerIsTagged(all, p, r, slack);
    TakeIs(w1, r, p, take, rq);
    VictimsBefore(h, t, rank, rem - take);
    HeapIsDistinct(h);
    forall i | 0 <= i < |vs| ensures vs[i] < |w1.procs| && vs[i] != p {
      FindAt(h, i);
      assert vs[i] == h[i].key && Hold(w1, r, vs[i]).Some?;
    }
    EvictAllTake(w1, r, p, vs, take, rq);
    TakeIs(all, r, p, take, rq);
    var more := Min(Room(all.pools[r]) - take, rem - take);
    TakeTwice(all, r, p, take, more, rq);
  }

  /** The loop is over: nobody below the rank holds anything. */
  lemma PreemptEnds(w: World, p: nat, r: nat, rem: nat, rq: Request)
    requires p < |w.procs| && r < |w.pools| && Room(w.pools[r]) == 0
    requires w.pools[r].holders == [] || w.pools[r].holders[0].rank >= RequestRank(rq, w.procs[p])
    ensures PreemptFor(w, p, r, rem, rq) == (w, 0)
  {
  }

  // ---- The shedding loop of set_capacity ----

  /** Throwing out the front holder that is not the caller, and then shedding,
      is shedding. */
  lemma ShedTurns(w: World, caller: Option<nat>, r: nat)
    requires r < |w.pools| && HeapOk(w.pools[r].holders, VictimFirst) && w.pools[r].inUse > w.pools[r].capacity
    requires Others(w.pools[r].holders, caller) != []
    requires forall z: nat :: Hold(w, r, z).Some? ==> z < |w.procs|
    ensures var v := Others(w.pools[r].holders, caller)[0].key;
      Some(v) != caller && Hold(w, r, v).Some? && ShedOthers(w, caller, r) == ShedOthers(Evict(w, r, v), caller, r)
  {
    hide Evict, EvictAll, Delete, HeapOk;
    var pool := w.pools[r];
    var others := Others(pool.holders, caller);
    var v := others[0].key;
    var need := pool.inUse - pool.capacity;
    OthersFound(pool.holders, caller, v);
    FrontIsFound(others);
    assert Hold(w, r, v).Some?;
    EvictIs(w, r, v);
    OthersDelete(pool.holders, caller, v);
    var w1 := Evict(w, r, v);
    var k := ShedCount(others[1..], need - others[0].item.amount);
    var vs := Keys(others[..1 + k]);
    KeysOfFront(others, k);
    assert w1.pools[r].inUse - w1.pools[r].capacity == need - others[0].item.amount;
    EvictFirst(w, r, vs);
  }

  lemma EvictFirst(w: World, r: nat, vs: seq<nat>)
    requires r < |w.pools| && vs != []
    ensures EvictAll(w, r, vs) == EvictAll(Evict(w, r, vs[0]), r, vs[1..])
  {
  }

  lemma OthersFound(h: Holders, caller: Option<nat>, k: nat)
    requires HeapOk(h, VictimFirst)
    ensures HeapOk(Others(h, caller), VictimFirst)
    ensures Find(Others(h, caller), k) == if Some(k) == caller then None else Find(h, k)
  {
    if caller.Some? {
      FindDelete(h, caller.value, k);
      DeleteOk(h, caller.value, VictimFirst);
    }
  }

  lemma OthersDelete(h: Holders, caller: Option<nat>, v: nat)
    requires HeapOk(h, VictimFirst)
    ensures Others(Delete(h, v), caller) == Delete(Others(h, caller), v)
  {
    if caller.Some? {
      var c := caller.value;
      var a, b := Delete(Delete(h, v), c), Delete(Delete(h, c), v);
      DeleteOk(h, v, VictimFirst);
      DeleteOk(h, c, VictimFirst);
      DeleteOk(Delete(h, v), c, VictimFirst);
      DeleteOk(Delete(h, c), v, VictimFirst);
      forall k: nat ensures Find(a, k) == Find(b, k) {
        FindDelete(h, v, k);
        FindDelete(h, c, k);
        FindDelete(Delete(h, v), c, k);
        FindDelete(Delete(h, c), v, k);
      }
      SameHolders(a, b);
    }
  }

  /** The pool with the holding that set_capacity has set aside put back. */
  function PutBack(w: World, r: nat, spared: Option<Holding>): (w': World)
    requires r < |w.pools|
    ensures |w'.pools| == |w.pools| && |w'.procs| == |w.procs|
  {
    match spared
    case None => w
    case Some(t) => SetPool(w, r, w.pools[r].(holders := Put(w.pools[r].holders, t, VictimFirst)))
  }

  /** What is set aside: nothing yet, or the caller's holding. */
  ghost predicate Spared(w: World, r: nat, caller: Option<nat>, spared: Option<Holding>) {
    && r < |w.pools| && HeapOk(w.pools[r].holders, VictimFirst)
    && (spared.Some? ==> caller == Some(spared.value.key) && Hold(w, r, spared.value.key).None?)
  }

  /** The holders that may be thrown out do not depend on what is set aside. */
  lemma SparedOthers(w: World, r: nat, caller: Option<nat>, spared: Option<Holding>)
    requires Spared(w, r, caller, spared)
    ensures Others(PutBack(w, r, spared).pools[r].holders, caller) == Others(w.pools[r].holders, caller)
    ensures HeapOk(PutBack(w, r, spared).pools[r].holders, VictimFirst)
    ensures spared.Some? ==> Others(w.pools[r].holders, caller) == w.pools[r].holders
  {
    if spared.Some? {
      PutOk(w.pools[r].holders, spared.value, VictimFirst);
      DeleteOfPut(w.pools[r].holders, spared.value);
      DeleteMembers(w.pools[r].holders, spared.value.key);
    }
  }

  /** The caller's holding comes to the front: it is set aside. */
  lemma SetAside(w: World, r: nat, caller: Option<nat>)
    requires Spared(w, r, caller, None) && w.pools[r].holders != [] && caller == Some(w.pools[r].holders[0].key)
    ensures var t := w.pools[r].holders[0];
            var w1 := SetPool(w, r, w.pools[r].(holders := w.pools[r].holders[1..]));
      Spared(w1, r, caller, Some(t)) && PutBack(w1, r, Some(t)) == w
  {
    var h := w.pools[r].holders;
    FrontIsFound(h);
    DeleteOk(h, h[0].key, VictimFirst);
    DeletePut(h, h[0]);
    FindDelete(h, h[0].key, h[0].key);
    assert w.pools[r := w.pools[r]] == w.pools;
  }

  /** Another holder comes to the front: it is thrown out, and shedding goes on. */
  lemma ShedTurn(w: World, r: nat, caller: Option<nat>, spared: Option<Holding>)
    requires Spared(w, r, caller, spared) && Inv(PutBack(w, r, spared))
    requires w.pools[r].holders != [] && caller != Some(w.pools[r].holders[0].key) && w.pools[r].inUse > w.pools[r].capacity
    ensures var v := w.pools[r].holders[0].key; var w1 := Evict(w, r, v);
      && v < |w.procs| && (w.procs[v].frame.Waiting? ==> MembersOk(w, w.procs[v].frame.members))
      && Spared(w1, r, caller, spared) && Inv(PutBack(w1, r, spared))
      && ShedOthers(PutBack(w, r, spared), caller, r) == ShedOthers(PutBack(w1, r, spared), caller, r)
      && |w1.pools[r].holders| < |w.pools[r].holders|
  {
    hide ShedOthers, Evict;
    var v := w.pools[r].holders[0].key;
    var full := PutBack(w, r, spared);
    SparedOthers(w, r, caller, spared);
    FrontIsFound(w.pools[r].holders);
    InvHolders(full, r);
    ShedTurns(full, caller, r);
    EvictKeeps(full, r, v, 0, []) by { InvIsRunning(full); }
    InvIsRunning(Evict(full, r, v));
    assert WaitOk(full, v);
    EvictIs(w, r, v);
    EvictPutBack(w, r, caller, spared, v);
  }

  lemma InvHolders(w: World, r: nat)
    requires Inv(w) && r < |w.pools|
    ensures forall z: nat :: Hold(w, r, z).Some? ==> z < |w.procs|
  {
  }

  lemma EvictPutBack(w: World, r: nat, caller: Option<nat>, spared: Option<Holding>, v: nat)
    requires Spared(w, r, caller, spared) && v < |w.procs| && caller != Some(v)
    ensures Spared(Evict(w, r, v), r, caller, spared)
    ensures Evict(PutBack(w, r, spared), r, v) == PutBack(Evict(w, r, v), r, spared)
  {
    hide Evict, Put, Delete;
    var h := w.pools[r].holders;
    EvictIs(w, r, v);
    EvictIs(PutBack(w, r, spared), r, v);
    DeleteOk(h, v, VictimFirst);
    if spared.Some? {
      var t := spared.value;
      PutDelete(h, t, v);
      FindDelete(h, v, t.key);
      FindPut(h, t, VictimFirst, v);
      var a, b := Evict(PutBack(w, r, spared), r, v), PutBack(Evict(w, r, v), r, spared);
      assert forall s :: 0 <= s < |w.pools| ==> a.pools[s] == b.pools[s];
      assert a.pools == b.pools;
      assert a.procs == b.procs;
    }
  }

  /** Nobody is left to throw out, or nothing is left to free. */
  lemma SparedEnds(w: World, r: nat, caller: Option<nat>, spared: Option<Holding>)
    requires Spared(w, r, caller, spared)
    requires w.pools[r].holders == [] || w.pools[r].inUse <= w.pools[r].capacity
    ensures ShedOthers(PutBack(w, r, spared), caller, r) == PutBack(w, r, spared)
  {
  }

  // ---- Who is thrown out ----

  /** What preempting does to the holdings of the others, and what it frees. */
  lemma PreemptHolders(w: World, p: nat, r: nat, rem: nat, rq: Request, slack: seq<nat>)
    requires Claiming(w, p, r, rq, slack)
    ensures var (w', got) := PreemptFor(w, p, r, rem, rq);
            var h := w.pools[r].holders;
            var k := VictimCount(h, RequestRank(rq, w.procs[p]), rem + w.pools[r].inUse - w.pools[r].capacity);
            var room := w.pools[r].capacity - w.pools[r].inUse + Total(h[..k]);
      && (forall z: nat :: z != p ==> Hold(w', r, z) == if z in Keys(h[..k]) then None else Hold(w, r, z))
      && p !in Keys(h[..k]) && got == Min(rem, if room > 0 then room else 0)
  {
    hide EvictAll, Running, TakeUnits, VictimCount;
    var h := w.pools[r].holders;
    var rank := RequestRank(rq, w.procs[p]);
    var need := rem + w.pools[r].inUse - w.pools[r].capacity;
    var all := EvictAll(w, r, Keys(h[..VictimCount(h, rank, need)]));
    VictimsLeave(w, p, r, need, rank, slack);
    var got := Min(Room(all.pools[r]), rem);
    if got > 0 { TakeKeeps(all, r, p, got, rq, slack); }
  }

  lemma FrontKeys(h: Holders, k: nat)
    requires DistinctKeys(h) && k <= |h|
    ensures forall i :: 0 <= i < |h| ==> Find(h, h[i].key) == Some(h[i]) && (h[i].key in Keys(h[..k]) <==> i < k)
  {
    forall i | 0 <= i < |h| ensures Find(h, h[i].key) == Some(h[i]) && (h[i].key in Keys(h[..k]) <==> i < k) {
      FindAt(h, i);
      if i < k { assert Keys(h[..k])[i] == h[i].key; }
    }
  }

  /** Of two holdings this one is thrown out first: it has the lower rank; or
      the same, and it was granted later; or both the same, and its process
      has the higher handle. */
  predicate ThrownOutBefore(a: Holding, b: Holding) {
    || a.rank < b.rank
    || (a.rank == b.rank && a.time > b.time)
    || (a.rank == b.rank && a.time == b.time && a.key > b.key)
  }

  /** Whoever has lost a holding of r, other than the caller, was to be thrown
      out before everybody who has kept one. */
  ghost predicate VictimsFirst(w: World, w': World, r: nat, caller: Option<nat>) {
    forall v: nat, u: nat ::
      && Some(v) != caller && Hold(w, r, v).Some? && Hold(w', r, v).None?
      && Some(u) != caller && Hold(w, r, u).Some? && Hold(w', r, u).Some?
      ==> ThrownOutBefore(Hold(w, r, v).value, Hold(w, r, u).value)
  }

  lemma FrontGoesFirst(w: World, w': World, r: nat, caller: Option<nat>, h: Holders, k: nat)
    requires HeapOk(h, VictimFirst) && k <= |h|
    requires forall z: nat :: Some(z) != caller ==> Find(h, z) == Hold(w, r, z)
    requires forall i :: 0 <= i < k && Some(h[i].key) != caller ==> Hold(w', r, h[i].key).None?
    requires forall i :: k <= i < |h| && Some(h[i].key) != caller ==> Hold(w', r, h[i].key).Some?
    ensures VictimsFirst(w, w', r, caller)
  {
    forall v: nat, u: nat
      | && Some(v) != caller && Hold(w, r, v).Some? && Hold(w', r, v).None?
        && Some(u) != caller && Hold(w, r, u).Some? && Hold(w', r, u).Some?
      ensures ThrownOutBefore(Hold(w, r, v).value, Hold(w, r, u).value)
    {
      var i :| 0 <= i < |h| && h[i] == Find(h, v).value;
      var j :| 0 <= j < |h| && h[j] == Find(h, u).value;
      assert i < k <= j;
      assert Precedes(h[i], h[j], VictimFirst);
    }
  }

  /** Preemption order. When nothing is free, a claim of `rem` units at a rank
      throws out the front holders of `holder_order` and no others: each is
      strictly below the rank, none is the caller, all are needed, and they
      are enough unless no holder below the rank is left. The caller gets all
      that they free and it needs. */
  lemma PreemptionOrder(w: World, p: nat, r: nat, rem: nat, rq: Request, slack: seq<nat>) returns (k: nat)
    requires Claiming(w, p, r, rq, slack) && rem > 0
    ensures var (w', got) := PreemptFor(w, p, r, rem, rq);
            var h := w.pools[r].holders; var rank := RequestRank(rq, w.procs[p]); var free := w.pools[r].capacity - w.pools[r].inUse;
      && k <= |h|
      && (forall i :: 0 <= i < k ==> h[i].rank < rank && h[i].key != p && Hold(w', r, h[i].key).None?)
      && (forall i :: k <= i < |h| && h[i].key != p ==> Hold(w', r, h[i].key) == Some(h[i]))
      && (forall j :: 0 <= j < k ==> free + Total(h[..j]) < rem)
      && got == Min(rem, if free + Total(h[..k]) > 0 then free + Total(h[..k]) else 0)
      && (got < rem ==> forall i :: k <= i < |h| ==> h[i].rank >= rank)
      && VictimsFirst(w, w', r, Some(p))
  {
    hide PreemptFor, VictimCount, Running, HeapOk, Total, Keys, Find, VictimsFirst;
    var h := w.pools[r].holders;
    var need := rem + w.pools[r].inUse - w.pools[r].capacity;
    k := VictimCount(h, RequestRank(rq, w.procs[p]), need);
    ClaimerIsTagged(w, p, r, slack);
    VictimsAreMinimal(h, RequestRank(rq, w.procs[p]), need);
    PreemptHolders(w, p, r, rem, rq, slack);
    HeapIsDistinct(h);
    FrontKeys(h, k);
    SortedRanks(h);
    var w' := PreemptFor(w, p, r, rem, rq).0;
    forall i | 0 <= i < |h| && h[i].key != p ensures Hold(w', r, h[i].key) == if i < k then None else Some(h[i]) {
      assert Hold(w, r, h[i].key) == Find(h, h[i].key);
    }
    assert forall z: nat :: Find(h, z) == Hold(w, r, z);
    hide Hold;
    FrontGoesFirst(w, w', r, Some(p), h, k);
  }

  /** A world in which the front k of the holders other than the caller have
      lost their holdings of r, as few as bring in_use within `value`, and
      those who are to be thrown out first. */
  ghost predicate ShedInOrder(w: World, w': World, caller: Option<nat>, r: nat, value: nat, k: nat)
    requires r < |w.pools| == |w'.pools|
  {
    var h := Others(w.pools[r].holders, caller);
    && k <= |h| && w'.pools[r].inUse == w.pools[r].inUse - Total(h[..k])
    && (forall i :: 0 <= i < k ==> Hold(w', r, h[i].key).None?)
    && (forall i :: k <= i < |h| ==> Hold(w', r, h[i].key) == Some(h[i]))
    && (caller.Some? ==> Hold(w', r, caller.value) == Hold(w, r, caller.value))
    && (forall j :: 0 <= j < k ==> w.pools[r].inUse - Total(h[..j]) > value)
    && (k == |h| || w.pools[r].inUse - Total(h[..k]) <= value)
    && VictimsFirst(w, w', r, caller)
  }

  /** Victim order of a preempting set_capacity: it throws out the front holders
      of `holder_order`, leaving out the caller, and no others; all are needed,
      and they are enough unless no other holder is left. */
  lemma SheddingOrder(w: World, caller: Option<nat>, r: nat, value: nat) returns (k: nat)
    requires Inv(w) && r < |w.pools| && value != w.pools[r].capacity
    ensures ShedInOrder(w, SetCapacity(w, caller, r, value, true).0, caller, r, value, k)
  {
    hide ShedOthers, SignalGuard, Inv, OthersStandBy, ShedInOrder;
    var pool := w.pools[r];
    var w1 := SetPool(w, r, pool.(capacity := value, maxCapacity := if value > pool.maxCapacity then value else pool.maxCapacity));
    var w2 := if pool.inUse > value then ShedOthers(w1, caller, r) else w1;
    ResizeKeeps(w, r, value);
    k := ShedVictims(w1, caller, r);
    ShedKeeps(w1, caller, r);
    SameShedding(w, w1, w2, w2, caller, r, value, k);
    SignalLast(w2, w2, r) by { NothingYet(w2, |w.procs|); }
    SameShedding(w, w, w2, SignalGuard(w2, r), caller, r, value, k);
  }

  lemma SameShedding(w: World, a: World, b: World, w': World, caller: Option<nat>, r: nat, value: nat, k: nat)
    requires r < |w.pools| == |a.pools| == |b.pools| == |w'.pools| && ShedInOrder(a, b, caller, r, value, k)
    requires w.pools[r].holders == a.pools[r].holders && w.pools[r].inUse == a.pools[r].inUse
    requires w'.pools[r].inUse == b.pools[r].inUse && forall z: nat :: Hold(w', r, z) == Hold(b, r, z)
    ensures ShedInOrder(w, w', caller, r, value, k)
  {
  }

  lemma ShedVictims(w: World, caller: Option<nat>, r: nat) returns (k: nat)
    requires Inv(w) && r < |w.pools|
    ensures var w' := if w.pools[r].inUse > w.pools[r].capacity then ShedOthers(w, caller, r) else w;
      ShedInOrder(w, w', caller, r, w.pools[r].capacity, k)
  {
    hide ShedOthers, Inv, ShedCount, Keys, Find, Total, HeapOk, OthersStandBy, Others, VictimsFirst;
    var pool := w.pools[r];
    var h := Others(pool.holders, caller);
    k := ShedCount(h, pool.inUse - pool.capacity);
    PoolIsOk(w, r);
    OthersOk(w, r, caller);
    FrontKeys(h, k);
    ShedIsMinimal(h, pool.inUse - pool.capacity);
    ShedHolders(w, caller, r);
    ShedKeeps(w, caller, r);
    var w' := ShedOthers(w, caller, r);
    forall i | 0 <= i < |h| ensures Hold(w', r, h[i].key) == if i < k then None else Some(h[i]) {
      assert Hold(w, r, h[i].key) == Find(h, h[i].key);
    }
    hide Hold;
    OthersAreHeap(w, caller, r);
    FrontGoesFirst(w, w', r, caller, h, k);
    if pool.inUse <= pool.capacity { NoneShed(w, caller, r); }
  }

  lemma OthersAreHeap(w: World, caller: Option<nat>, r: nat)
    requires Inv(w) && r < |w.pools|
    ensures HeapOk(Others(w.pools[r].holders, caller), VictimFirst)
    ensures forall z: nat :: Some(z) != caller ==> Find(Others(w.pools[r].holders, caller), z) == Hold(w, r, z)
  {
    PoolIsOk(w, r);
    forall z: nat ensures Some(z) != caller ==> Find(Others(w.pools[r].holders, caller), z) == Hold(w, r, z) {
      OthersFound(w.pools[r].holders, caller, z);
    }
    OthersFound(w.pools[r].holders, caller, 0);
  }

  lemma NoneShed(w: World, caller: Option<nat>, r: nat)
    requires r < |w.pools| && w.pools[r].inUse <= w.pools[r].capacity
    ensures ShedOthers(w, caller, r) == w
  {
  }

  lemma ShedHolders(w: World, caller: Option<nat>, r: nat)
    requires Inv(w) && r < |w.pools|
    ensures var w' := ShedOthers(w, caller, r); var h := Others(w.pools[r].holders, caller);
            var k := ShedCount(h, w.pools[r].inUse - w.pools[r].capacity);
      && w'.pools[r].inUse == w.pools[r].inUse - Total(h[..k])
      && forall z: nat :: Hold(w', r, z) == if z in Keys(h[..k]) then None else Hold(w, r, z)
  {
    hide EvictAll, Running, Keys, ShedCount, Find, Total;
    var need := w.pools[r].inUse - w.pools[r].capacity;
    var others := Others(w.pools[r].holders, caller);
    PoolIsOk(w, r);
    OthersOk(w, r, caller);
    ShedReaches(w, r, others, caller, need);
    EvictAllKeeps(w, r, Keys(others[..ShedCount(others, need)]), 0, []) by { InvIsRunning(w); }
  }

  lemma SortedRanks(h: Holders)
    requires HeapOk(h, VictimFirst)
    ensures forall i, j :: 0 <= i <= j < |h| ==> h[i].rank <= h[j].rank
  {
  }
}
