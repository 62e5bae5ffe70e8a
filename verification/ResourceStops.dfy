/** Stopping a process: whom the units it gives back wake, and exactly when a
    grant is lost with it. */
module ResourceStops {
  import opened HashHeap
  import opened ResourceModel
  import opened ResourceInvariant
  import opened ResourceSteps
  import opened ResourceRuns
  import opened ResourceGrants

  // ---- Whom the returned units wake ----

  /** The entries that are not of these processes. */
  function Without(q: Queue, s: set<nat>): Queue {
    if q == [] then [] else if q[0].item in s then Without(q[1..], s) else [q[0]] + Without(q[1..], s)
  }

  /** The processes in s, and the one that p's units of its i-th tagged pool
      wake when they come back: the first still queued there, if that makes room. */
  function WokenAt(w: World, p: nat, tags: seq<nat>, i: nat, s: set<nat>): set<nat>
    requires i < |tags|
  {
    var t := tags[i];
    if t < |w.pools| && t !in tags[..i] && Hold(w, t, p).Some?
       && w.pools[t].inUse - Held(w, t, p) < w.pools[t].capacity && Without(w.pools[t].queue, s) != []
    then s + {Without(w.pools[t].queue, s)[0].item} else s
  }

  /** All that are woken, from the i-th tag on, in the order of the tags. */
  function WokenFrom(w: World, p: nat, tags: seq<nat>, i: nat, s: set<nat>): set<nat>
    requires i <= |tags|
    decreases |tags| - i
  {
    if i == |tags| then s else WokenFrom(w, p, tags, i + 1, WokenAt(w, p, tags, i, s))
  }

  /** Somebody queues at r whom nothing that p gives back wakes. */
  predicate LeavesBehind(w: World, p: nat, r: nat)
    requires p < |w.procs| && r < |w.pools|
  {
    Without(w.pools[r].queue, WokenFrom(w, p, w.procs[p].tags, 0, {})) != []
  }

  /** A process stopped while it alone is on its way to r loses a grant, unless
      it holds units there, whose return signals, or those it holds elsewhere
      wake all who queue at r. */
  ghost predicate LosesOnStop(w: World, p: nat, r: nat) {
    && p < |w.procs| && r < |w.pools| && Token(w, p, r) && Hold(w, r, p).None?
    && Room(w.pools[r]) > 0 && !OtherToken(w, p, r) && LeavesBehind(w, p, r)
  }

  lemma {:induction false} WithoutTwice(q: Queue, s: set<nat>, t: set<nat>)
    ensures Without(Without(q, s), t) == Without(q, s + t)
  {
    if q != [] {
      WithoutTwice(q[1..], s, t);
      if q[0].item !in s { assert Without(q, s)[1..] == Without(q[1..], s); }
    }
  }

  lemma {:induction false} WithoutNobody(q: Queue, s: set<nat>)
    requires forall i :: 0 <= i < |q| ==> q[i].item !in s
    ensures Without(q, s) == q
  {
    if q != [] {
      assert forall i :: 0 <= i < |q[1..]| ==> q[1..][i] == q[i + 1];
      WithoutNobody(q[1..], s);
    }
  }

  lemma {:induction false} DeleteIsWithout(q: Queue, key: nat, z: nat)
    requires DistinctKeys(q) && forall i :: 0 <= i < |q| ==> (q[i].key == key <==> q[i].item == z)
    ensures Delete(q, key) == Without(q, {z})
  {
    if q != [] {
      assert forall i :: 0 <= i < |q[1..]| ==> q[1..][i] == q[i + 1];
      if q[0].key == key {
        WithoutNobody(q[1..], {z});
      } else {
        DeleteIsWithout(q[1..], key, z);
      }
    }
  }

  /** The one whom a signal of m wakes, if any. */
  function Woken(w: World, m: nat): set<nat>
    requires m < |w.pools|
  {
    if w.pools[m].queue == [] || Room(w.pools[m]) == 0 then {} else {w.pools[m].queue[0].item}
  }

  /** A signal takes whom it wakes off every queue, and nobody else. */
  lemma SignalQueues(w: World, m: nat, p: nat, slack: seq<nat>)
    requires Running(w, p, slack) && m < |w.pools|
    ensures forall t :: 0 <= t < |w.pools| ==> SignalGuard(w, m).pools[t].queue == Without(w.pools[t].queue, Woken(w, m))
  {
    var pool := w.pools[m];
    if pool.queue == [] || Room(pool) == 0 {
      forall t | 0 <= t < |w.pools| ensures Without(w.pools[t].queue, {}) == w.pools[t].queue {
        WithoutNobody(w.pools[t].queue, {});
      }
    } else {
      FrontIsFound(pool.queue);
      assert EntryOk(w, m, pool.queue[0].key);
      var z := pool.queue[0].item;
      var f := w.procs[z].frame;
      forall t | 0 <= t < |w.pools| ensures GrantTo(w, m, z).pools[t].queue == Without(w.pools[t].queue, {z}) {
        EntriesOf(w, p, slack, t, z);
        if t in f.members { DeleteIsWithout(w.pools[t].queue, f.key, z); } else { WithoutNobody(w.pools[t].queue, {z}); }
      }
    }
  }

  /** The entries of a waiting process z in a queue are those with its key. */
  lemma EntriesOf(w: World, p: nat, slack: seq<nat>, t: nat, z: nat)
    requires Running(w, p, slack) && t < |w.pools| && z < |w.procs| && w.procs[z].frame.Waiting?
    ensures var q := w.pools[t].queue; var f := w.procs[z].frame;
      && DistinctKeys(q)
      && (forall i :: 0 <= i < |q| ==> (q[i].key == f.key <==> q[i].item == z) && (q[i].item == z ==> t in f.members))
  {
    var q := w.pools[t].queue;
    PoolIsOkIn(w, t, p, slack);
    forall i | 0 <= i < |q|
      ensures (q[i].key == w.procs[z].frame.key <==> q[i].item == z) && (q[i].item == z ==> t in w.procs[z].frame.members)
    {
      FindAt(q, i);
      assert EntryOk(w, t, q[i].key);
      if q[i].item != z { KeysDiffer(w, q[i].item, z); }
    }
  }

  // ---- Dropping holdings ----

  /** v is w after p has dropped its holdings of the pools in `done`, which has
      woken the processes in s; r is a pool that p holds nothing of. */
  ghost predicate Dropped(w: World, v: World, p: nat, done: seq<nat>, s: set<nat>, r: nat) {
    && |v.pools| == |w.pools| && |v.procs| == |w.procs| && r < |w.pools|
    && (forall t :: 0 <= t < |w.pools| ==>
          && v.pools[t].queue == Without(w.pools[t].queue, s) && v.pools[t].capacity == w.pools[t].capacity
          && (t !in done || Hold(w, t, p).None? ==> v.pools[t].inUse == w.pools[t].inUse))
    && (forall t: nat :: Hold(v, t, p) == if t in done then None else Hold(w, t, p))
    && (forall z: nat :: Token(v, z, r) <==> Token(w, z, r))
  }

  lemma DropStep(w: World, v: World, p: nat, tags: seq<nat>, i: nat, s: set<nat>, r: nat, slack: seq<nat>)
    requires Running(v, p, slack) && p < |v.procs| && v.procs[p].frame.Idle? && i < |tags| && tags[i] in slack
    requires Dropped(w, v, p, tags[..i], s, r) && Hold(w, r, p).None?
    ensures Dropped(w, Drop(v, p, tags[i]), p, tags[..i + 1], WokenAt(w, p, tags, i, s), r)
  {
    hide SignalGuard, GiveBack, SettleTag, Running;
    var t := tags[i];
    assert tags[..i + 1] == tags[..i] + [t];
    if Hold(v, t, p).None? {
      SettleIsDrop(v, p, t);
      SameTokens(v, Drop(v, p, t));
    } else {
      PoolIsOkIn(v, t, p, slack);
      var g := GiveBack(v, t, p, Held(v, t, p));
      var v2 := SettleTag(g, p, t);
      GiveBackKeeps(v, t, p, Held(v, t, p), slack);
      SettleTagKeeps(g, p, t, slack);
      DropIsSettle(v, p, t);
      SameTokens(v, v2);
      assert Room(v2.pools[t]) > 0 <==> w.pools[t].inUse - Held(w, t, p) < w.pools[t].capacity;
      assert WokenAt(w, p, tags, i, s) == s + Woken(v2, t);
      DropSignals(w, v2, p, tags[..i + 1], t, s, r, slack);
    }
  }

  /** The signal of the pool whose units have just come back. */
  lemma DropSignals(w: World, v2: World, p: nat, done: seq<nat>, t: nat, s: set<nat>, r: nat, slack: seq<nat>)
    requires Running(v2, p, slack) && t < |w.pools| && t != r && Dropped(w, v2, p, done, s, r)
    ensures Dropped(w, SignalGuard(v2, t), p, done, s + Woken(v2, t), r)
  {
    hide SignalGuard, Running, Hold;
    SignalKeeps(v2, t, p, slack);
    SignalQueues(v2, t, p, slack);
    SignalElsewhere(v2, t, p, slack, r);
    forall u | 0 <= u < |w.pools|
      ensures Without(Without(w.pools[u].queue, s), Woken(v2, t)) == Without(w.pools[u].queue, s + Woken(v2, t))
    {
      WithoutTwice(w.pools[u].queue, s, Woken(v2, t));
    }
  }

  lemma {:induction false} DropAllWakes(w: World, v: World, p: nat, tags: seq<nat>, i: nat, s: set<nat>, r: nat, slack: seq<nat>)
    requires Running(v, p, slack) && p < |v.procs| && v.procs[p].frame.Idle? && i <= |tags|
    requires forall j :: 0 <= j < |tags| ==> tags[j] in slack
    requires Dropped(w, v, p, tags[..i], s, r) && Hold(w, r, p).None?
    ensures Dropped(w, DropAll(v, p, tags[i..]), p, tags, WokenFrom(w, p, tags, i, s), r)
    decreases |tags| - i
  {
    hide Drop, Running, Dropped, OthersStandBy, WokenAt;
    if i == |tags| {
      assert tags[..i] == tags && tags[i..] == [];
    } else {
      var v1 := Drop(v, p, tags[i]);
      DropKeeps(v, p, tags[i], slack);
      DropStep(w, v, p, tags, i, s, r, slack);
      DropAllWakes(w, v1, p, tags, i + 1, WokenAt(w, p, tags, i, s), r, slack);
      assert tags[i..][0] == tags[i] && tags[i..][1..] == tags[i + 1..];
    }
  }

  lemma DropFlow(w: World, p: nat, r: nat, slack: seq<nat>)
    requires Running(w, p, slack) && p < |w.procs| && w.procs[p].frame.Idle? && r in slack
    ensures Flow(w, Drop(w, p, r), {})
    ensures forall s: nat :: Hold(Drop(w, p, r), s, p) == if s == r then None else Hold(w, s, p)
    ensures Hold(w, r, p).Some? ==> Heeded(Drop(w, p, r), r)
  {
    hide SignalGuard;
    var w1 := SetProc(w, p, w.procs[p].(tags := DropTag(w.procs[p].tags, r)));
    SettleFlow(w, w1, p);
    if Hold(w, r, p).Some? {
      PoolIsOkIn(w, r, p, slack);
      var g := GiveBack(w, r, p, Held(w, r, p));
      var w2 := GiveBack(w1, r, p, Held(w1, r, p));
      GiveBackKeeps(w, r, p, Held(w, r, p), slack);
      GiveBackFlow(w, g, r, p);
      SettleTagKeeps(g, p, r, slack);
      assert w2 == SettleTag(g, p, r);
      SettleFlow(g, w2, p);
      SignalKeeps(w2, r, p, slack);
      SignalFlow(w2, r, p, slack);
      FlowTrans(w, g, w2, {r}, {});
      FlowTrans(w, w2, SignalGuard(w2, r), {r} + {}, {});
      FlowHeals(w, SignalGuard(w2, r), {r} + {} + {}, {});
    }
  }

  lemma {:induction false} DropAllFlow(w: World, p: nat, tags: seq<nat>, slack: seq<nat>)
    requires Running(w, p, slack) && p < |w.procs| && w.procs[p].frame.Idle?
    requires forall i :: 0 <= i < |tags| ==> tags[i] in slack
    ensures Flow(w, DropAll(w, p, tags), {})
    ensures forall s: nat :: s in tags && Hold(w, s, p).Some? ==> Heeded(DropAll(w, p, tags), s)
    decreases |tags|
  {
    hide Drop, Flow, Heeded, Running, OthersStandBy, Hold;
    if tags == [] {
      FlowRefl(w);
    } else {
      var w1 := Drop(w, p, tags[0]);
      DropKeeps(w, p, tags[0], slack);
      DropFlow(w, p, tags[0], slack);
      DropAllFlow(w1, p, tags[1..], slack);
      var w' := DropAll(w1, p, tags[1..]);
      FlowChain(w, w1, w');
      FlowKeeps(w1, w', tags[0]);
    }
  }

  lemma FlowKeeps(w: World, w': World, r: nat)
    requires Flow(w, w', {})
    ensures Heeded(w, r) ==> Heeded(w', r)
  {
  }

  // ---- Stopping ----

  /** Off its queues, a stopped process is ready to drop what it holds. */
  lemma StopStarts(w: World, p: nat)
    requires Inv(w) && p < |w.procs|
    ensures var w0 := Awaken(w, p);
      && Running(w0, p, w.procs[p].tags) && |w0.procs| == |w.procs| && w0.procs[p].frame.Idle?
      && Flow(w, w0, if w.procs[p].frame.Waiting? then TokensOf(w, p) else {})
      && (forall s: nat, z: nat :: Hold(w0, s, z) == Hold(w, s, z))
  {
    hide Awaken;
    var w0 := Awaken(w, p);
    if w.procs[p].frame.Waiting? {
      AwakeKeeps(w, p, w.events);
      assert w.(events := w.events) == w;
      AwakeFlow(w, p, w.events);
      WidenSlack(w0, p, w.procs[p].frame.members, w.procs[p].tags);
    } else {
      AwakenIdle(w, p);
      FlowRefl(w);
      Unsettled(w, p, w.procs[p].tags);
    }
  }

  lemma InvTags(w: World, p: nat, s: nat)
    requires Inv(w) && p < |w.procs|
    ensures TagOk(w, p, s, Slack(w, p, 0, []))
  {
  }

  /** What queues at r, and who is on the way there, once p is stopped. */
  lemma StopLeaves(w: World, p: nat, r: nat)
    requires Inv(w) && p < |w.procs| && Token(w, p, r) && r < |w.pools| && Hold(w, r, p).None?
    ensures var w' := Stop(w, p);
      && |w'.pools| == |w.pools| && Room(w'.pools[r]) == Room(w.pools[r])
      && (w'.pools[r].queue != [] <==> LeavesBehind(w, p, r))
      && ((exists q :: Token(w', q, r)) <==> OtherToken(w, p, r))
  {
    hide DropAll, Awaken, WokenFrom, Dropped;
    var tags := w.procs[p].tags;
    var w0 := Awaken(w, p);
    StopStarts(w, p);
    assert w.(events := w.events) == w;
    UnqueuedAwakens(w, p, w.events);
    AwakeHeeded(w, p, w.events, r);
    NothingDropped(w0, p, r);
    assert tags[..0] == [] && tags[0..] == tags;
    DropAllWakes(w0, w0, p, tags, 0, {}, r, tags);
    var w1 := DropAll(w0, p, tags);
    SameWoken(w, w0, p, tags, 0, {});
    DroppedAt(w0, w1, p, tags, WokenFrom(w0, p, tags, 0, {}), r);
    SameTokens(w1, Stop(w, p));
    if q :| Token(Stop(w, p), q, r) { assert Token(w0, q, r); }
    if q :| Token(w0, q, r) { assert Token(Stop(w, p), q, r); }
  }

  lemma NothingDropped(w: World, p: nat, r: nat)
    requires r < |w.pools|
    ensures Dropped(w, w, p, [], {}, r)
  {
    forall t | 0 <= t < |w.pools| ensures Without(w.pools[t].queue, {}) == w.pools[t].queue {
      WithoutNobody(w.pools[t].queue, {});
    }
  }

  lemma DroppedAt(w: World, v: World, p: nat, done: seq<nat>, s: set<nat>, r: nat)
    requires Dropped(w, v, p, done, s, r) && Hold(w, r, p).None?
    ensures |v.pools| == |w.pools| && v.pools[r].queue == Without(w.pools[r].queue, s) && Room(v.pools[r]) == Room(w.pools[r])
    ensures |v.procs| == |w.procs| && forall z: nat :: Token(v, z, r) <==> Token(w, z, r)
  {
  }

  lemma {:induction false} SameWoken(w: World, w0: World, p: nat, tags: seq<nat>, i: nat, s: set<nat>)
    requires w0.pools == w.pools && i <= |tags|
    ensures WokenFrom(w0, p, tags, i, s) == WokenFrom(w, p, tags, i, s)
    decreases |tags| - i
  {
    if i < |tags| {
      assert WokenAt(w0, p, tags, i, s) == WokenAt(w, p, tags, i, s);
      SameWoken(w, w0, p, tags, i + 1, WokenAt(w, p, tags, i, s));
    }
  }

  /** Stopping a process loses a grant of exactly the pools LosesOnStop names. */
  lemma StopFlow(w: World, p: nat)
    requires Inv(w) && p < |w.procs|
    ensures var w' := Stop(w, p);
      && |w'.pools| == |w.pools|
      && (forall s :: 0 <= s < |w.pools| ==> w'.pools[s].inUse <= w.pools[s].inUse || w'.pools[s].inUse <= w'.pools[s].capacity)
      && forall s: nat :: Heeded(w, s) ==> (Heeded(w', s) <==> !LosesOnStop(w, p, s))
  {
    hide DropAll, Awaken, LeavesBehind;
    var tags := w.procs[p].tags;
    var w0 := Awaken(w, p);
    var x := if w.procs[p].frame.Waiting? then TokensOf(w, p) else {};
    StopStarts(w, p);
    var w1 := DropAll(w0, p, tags);
    DropAllFlow(w0, p, tags, tags);
    FlowTrans(w, w0, w1, x, {});
    var w' := Stop(w, p);
    SameTokens(w1, w');
    forall s: nat ensures Heeded(w1, s) == Heeded(w', s) { BothWays(w1, w', s); }
    forall s: nat | Heeded(w, s) ensures Heeded(w', s) <==> !LosesOnStop(w, p, s) {
      if s in x {
        if Hold(w, s, p).None? {
          StopLeaves(w, p, s);
        } else {
          assert TagOk(w, p, s, Slack(w, p, 0, [])) by { InvTags(w, p, s); }
        }
      }
    }
  }
}
