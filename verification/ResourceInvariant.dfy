/** The invariant of the resource state machine, and that every step keeps it. */
module ResourceInvariant {
  import opened HashHeap
  import opened WaitKeys
  import opened ResourceModel

  function Total(h: Holders): int {
    if h == [] then 0 else h[0].item.amount + Total(h[1..])
  }

  /** Conservation: the units in use are exactly the units held, each process
      has at most one holding, and no holding is empty. */
  ghost predicate PoolOk(pool: Pool, procs: nat) {
    && HeapOk(pool.holders, VictimFirst)
    && HeapOk(pool.queue, WaiterFirst)
    && pool.inUse == Total(pool.holders)
    && 0 <= pool.inUse <= pool.maxCapacity
    && pool.capacity <= pool.maxCapacity
    && forall q: nat :: Find(pool.holders, q).Some? ==> q < procs && AmountOf(Find(pool.holders, q)) > 0
  }

  /** An entry belongs to a process that waits here, at the request's place and rank. */
  ghost predicate EntryOk(w: World, r: nat, key: nat) {
    var e := Entry(w, r, key);
    e.Some? ==>
      e.value.item < |w.procs| && w.procs[e.value.item].frame.Waiting? &&
      var f := w.procs[e.value.item].frame;
      f.status.Queued? && f.key == key && r in f.members
      && e.value.rank == RequestRank(f.rq, w.procs[e.value.item]) && e.value.time == f.place.time
  }

  function AmountAtEntry(call: Call): int
    requires call.Take?
  {
    AmountOf(call.entry)
  }

  /** What a waiting acquire holds in the pool it waits for: what it began
      with and what it has taken since, ranked as its request, with the grant
      time of the holding it began with. */
  ghost predicate StakeOk(w: World, r: nat, p: nat, rq: Request, call: Call)
    requires p < |w.procs| && call.Take?
  {
    var want := AmountAtEntry(call) + call.requested - call.remaining;
    var h := Hold(w, r, p);
    if want == 0 then h.None?
    else
      h.Some? && h.value.item == Stake(want, rq.fixed) && h.value.rank == RequestRank(rq, w.procs[p])
      && (call.entry.Some? ==> h.value.time == call.entry.value.time)
  }

  /** acquire_any is atomic across its members: queued in all of them, or in
      none with exactly one grant on its way; and a call thrown out of its
      queues has its notice on its way. */
  ghost predicate StatusOk(w: World, p: nat, f: Frame)
    requires f.Waiting?
  {
    match f.status
    case Queued => forall r :: r in f.members ==> Entry(w, r, f.key).Some? && Entry(w, r, f.key).value.item == p
    case Granted(i) =>
      i < |f.members| && i == FirstListing(f.members, f.members[i]) && Grant(p, f.members[i], f.key) in w.events
    case Evicted => Notice(p, Preempted) in w.events
  }

  ghost predicate CallOk(w: World, p: nat, f: Frame)
    requires f.Waiting? && p < |w.procs|
  {
    match f.call
    case TakeAny => true
    case Take(requested, remaining, _, entry) =>
      && |f.members| == 1 && 1 <= remaining <= requested
      && (entry.Some? ==> entry.value.key == p && entry.value.item.amount > 0)
      && (StakeOk(w, f.members[0], p, f.rq, f.call)
          || (f.status.Evicted? && Hold(w, f.members[0], p).None?))
  }

  ghost predicate WaitOk(w: World, p: nat)
    requires p < |w.procs|
  {
    var f := w.procs[p].frame;
    && (f.Waiting? ==>
          && w.procs[p].alive
          && |f.members| > 0 && MembersOk(w, f.members)
          && PlaceOk(f.place) && f.place.number <= w.requestSeq && f.place.time <= w.now
          && f.key == WaitKey(f.place)
          && StatusOk(w, p, f) && CallOk(w, p, f))
    && (!w.procs[p].alive ==> w.procs[p].tags == [])
  }

  /** Requests are numbered in the order of their first waits. */
  ghost predicate PlacesOk(w: World, p: nat, q: nat)
    requires p < |w.procs| && q < |w.procs|
  {
    var f, g := w.procs[p].frame, w.procs[q].frame;
    p != q && f.Waiting? && g.Waiting? ==>
      && f.place.number != g.place.number
      && (f.place.number < g.place.number ==> f.place.time <= g.place.time)
  }

  /** The pools a process may have a tag for without holding units: those it
      waits for, or for the process that is running, those of its call. */
  function Slack(w: World, q: nat, p: nat, slack: seq<nat>): seq<nat>
    requires q < |w.procs|
  {
    if w.procs[q].frame.Waiting? then w.procs[q].frame.members
    else if q == p then slack else []
  }

  ghost predicate TagOk(w: World, q: nat, r: nat, slack: seq<nat>)
    requires q < |w.procs|
  {
    var tags := w.procs[q].tags;
    && (Hold(w, r, q).Some? ==> r in tags)
    && (r in tags ==> r < |w.pools| && (Hold(w, r, q).Some? || r in slack))
    && (w.procs[q].frame.Waiting? && w.procs[q].frame.status.Queued? && r in w.procs[q].frame.members ==> r in tags)
  }

  ghost predicate Pools(w: World) { forall r :: 0 <= r < |w.pools| ==> PoolOk(w.pools[r], |w.procs|) }
  ghost predicate Entries(w: World) { forall r: nat, k: nat :: EntryOk(w, r, k) }
  ghost predicate Waits(w: World) { forall p :: 0 <= p < |w.procs| ==> WaitOk(w, p) }
  ghost predicate Places(w: World) { forall p, q :: 0 <= p < |w.procs| && 0 <= q < |w.procs| ==> PlacesOk(w, p, q) }
  ghost predicate Tags(w: World, p: nat, slack: seq<nat>) {
    forall q, r: nat :: 0 <= q < |w.procs| ==> TagOk(w, q, r, Slack(w, q, p, slack))
  }

  /** The invariant while process p runs, inside a call on the `slack` pools. */
  ghost predicate Running(w: World, p: nat, slack: seq<nat>) {
    Pools(w) && Entries(w) && Waits(w) && Places(w) && Tags(w, p, slack)
  }

  /** The invariant between steps. */
  ghost predicate Inv(w: World) { Running(w, 0, []) }

  lemma PoolIsOkIn(w: World, s: nat, p: nat, slack: seq<nat>)
    requires Running(w, p, slack) && s < |w.pools|
    ensures PoolOk(w.pools[s], |w.procs|)
  {
  }

  // ---- Conservation in one pool ----

  lemma {:induction false} TotalDelete(h: Holders, k: nat)
    ensures Total(Delete(h, k)) == Total(h) - AmountOf(Find(h, k))
  {
    if h != [] && h[0].key != k {
      TotalDelete(h[1..], k);
      assert ([h[0]] + Delete(h[1..], k))[1..] == Delete(h[1..], k);
    }
  }

  lemma {:induction false} TotalInsert(h: Holders, t: Holding)
    ensures Total(Insert(h, t, VictimFirst)) == Total(h) + t.item.amount
  {
    if h == [] || Precedes(t, h[0], VictimFirst) {
      assert ([t] + h)[1..] == h;
    } else {
      TotalInsert(h[1..], t);
      assert ([h[0]] + Insert(h[1..], t, VictimFirst))[1..] == Insert(h[1..], t, VictimFirst);
    }
  }

  lemma {:induction false} TotalCovers(h: Holders, k: nat)
    requires DistinctKeys(h)
    requires forall q: nat :: Find(h, q).Some? ==> AmountOf(Find(h, q)) > 0
    ensures 0 <= AmountOf(Find(h, k)) <= Total(h)
  {
    if h != [] {
      assert Find(h, h[0].key) == Some(h[0]);
      forall q: nat | Find(h[1..], q).Some? ensures AmountOf(Find(h[1..], q)) > 0 {
        FindDelete(h, h[0].key, q);
        assert Find(h, q).Some?;
      }
      TotalCovers(h[1..], k);
      if h[0].key == k { TotalCovers(h[1..], h[0].key); }
    }
  }

  /** Replacing one holding by another, or adding one, moves in_use by the difference. */
  lemma PutHolding(pool: Pool, n: nat, t: Holding)
    requires PoolOk(pool, n) && t.key < n && t.item.amount > 0
    requires pool.inUse + t.item.amount - AmountOf(Find(pool.holders, t.key)) <= pool.maxCapacity
    ensures var d := t.item.amount - AmountOf(Find(pool.holders, t.key));
            PoolOk(pool.(inUse := pool.inUse + d, holders := Put(pool.holders, t, VictimFirst)), n)
    ensures forall k: nat :: Find(Put(pool.holders, t, VictimFirst), k) == if k == t.key then Some(t) else Find(pool.holders, k)
  {
    PutOk(pool.holders, t, VictimFirst);
    TotalDelete(pool.holders, t.key);
    TotalInsert(Delete(pool.holders, t.key), t);
    TotalCovers(pool.holders, t.key);
    forall k: nat
      ensures Find(Put(pool.holders, t, VictimFirst), k) == if k == t.key then Some(t) else Find(pool.holders, k)
    {
      FindPut(pool.holders, t, VictimFirst, k);
    }
  }

  lemma DeleteHolding(pool: Pool, n: nat, key: nat)
    requires PoolOk(pool, n)
    ensures var d := AmountOf(Find(pool.holders, key));
            PoolOk(pool.(inUse := pool.inUse - d, holders := Delete(pool.holders, key)), n)
    ensures forall k: nat :: Find(Delete(pool.holders, key), k) == if k == key then None else Find(pool.holders, k)
  {
    DeleteOk(pool.holders, key, VictimFirst);
    TotalDelete(pool.holders, key);
    TotalCovers(pool.holders, key);
    forall k: nat ensures Find(Delete(pool.holders, key), k) == if k == key then None else Find(pool.holders, k) {
      FindDelete(pool.holders, key, k);
    }
  }

  lemma DeleteEntry(pool: Pool, n: nat, key: nat)
    requires PoolOk(pool, n)
    ensures PoolOk(pool.(queue := Delete(pool.queue, key)), n)
    ensures forall k: nat :: Find(Delete(pool.queue, key), k) == if k == key then None else Find(pool.queue, k)
  {
    DeleteOk(pool.queue, key, WaiterFirst);
    forall k: nat ensures Find(Delete(pool.queue, key), k) == if k == key then None else Find(pool.queue, k) {
      FindDelete(pool.queue, key, k);
    }
  }

  lemma PutEntry(pool: Pool, n: nat, t: Tag<nat>)
    requires PoolOk(pool, n)
    ensures PoolOk(pool.(queue := Put(pool.queue, t, WaiterFirst)), n)
    ensures forall k: nat :: Find(Put(pool.queue, t, WaiterFirst), k) == if k == t.key then Some(t) else Find(pool.queue, k)
  {
    PutOk(pool.queue, t, WaiterFirst);
    forall k: nat ensures Find(Put(pool.queue, t, WaiterFirst), k) == if k == t.key then Some(t) else Find(pool.queue, k) {
      FindPut(pool.queue, t, WaiterFirst, k);
    }
  }

  // ---- Tags ----

  lemma {:induction false} AddTagsMembers(tags: seq<nat>, members: seq<nat>)
    ensures forall r: nat :: r in AddTags(tags, members) <==> r in tags || r in members
    decreases |members|
  {
    if members != [] {
      AddTagsMembers(AddTag(tags, members[0]), members[1..]);
    }
  }

  lemma {:induction false} DropTagMembers(tags: seq<nat>, x: nat)
    ensures forall r: nat :: r in DropTag(tags, x) <==> r in tags && r != x
  {
    if tags != [] {
      DropTagMembers(tags[1..], x);
    }
  }

  // ---- What each change does to holdings, entries and frames ----

  lemma WithdrawEffect(w: World, members: seq<nat>, key: nat)
    requires Pools(w)
    ensures var w' := Withdraw(w, members, key);
      && Pools(w')
      && (forall r: nat, q: nat :: Hold(w', r, q) == Hold(w, r, q))
      && (forall r: nat, k: nat :: Entry(w', r, k) == if k == key && r in members then None else Entry(w, r, k))
  {
    var w' := Withdraw(w, members, key);
    forall r: nat | r < |w.pools|
      ensures PoolOk(w'.pools[r], |w'.procs|)
      ensures forall k: nat :: Entry(w', r, k) == if k == key && r in members then None else Entry(w, r, k)
    {
      assert PoolOk(w.pools[r], |w.procs|);
      DeleteEntry(w.pools[r], |w.procs|, key);
    }
  }

  /** A holding of the running process changes; nothing else does. */
  ghost predicate OnlyHolding(w: World, w': World, r: nat, p: nat) {
    && |w'.pools| == |w.pools| && |w'.procs| == |w.procs|
    && w'.events == w.events && w'.now == w.now && w'.requestSeq == w.requestSeq
    && (forall q :: 0 <= q < |w.procs| ==>
          w'.procs[q] == w.procs[q].(tags := w'.procs[q].tags) && (q != p ==> w'.procs[q] == w.procs[q]))
    && (forall s: nat, q: nat :: s != r || q != p ==> Hold(w', s, q) == Hold(w, s, q))
    && (forall s: nat, k: nat :: Entry(w', s, k) == Entry(w, s, k))
    && (forall s :: 0 <= s < |w.pools| && s != r ==> w'.pools[s] == w.pools[s])
  }

  /** Whatever the running process does to its own holding, as long as the
      pool still balances and its tag follows, keeps the invariant. */
  lemma OnlyHoldingKeeps(w: World, w': World, r: nat, p: nat, slack: seq<nat>)
    requires Running(w, p, slack) && OnlyHolding(w, w', r, p)
    requires p < |w.procs| && r < |w.pools| && w.procs[p].frame.Idle?
    requires PoolOk(w'.pools[r], |w.procs|)
    requires forall s: nat :: TagOk(w', p, s, slack)
    requires !w'.procs[p].alive ==> w'.procs[p].tags == []
    ensures Running(w', p, slack)
  {
    forall s: nat, k: nat ensures EntryOk(w', s, k) { assert EntryOk(w, s, k); }
    forall q | 0 <= q < |w.procs| ensures WaitOk(w', q) {
      assert WaitOk(w, q);
      var f := w.procs[q].frame;
      if f.Waiting? {
        assert w'.procs[q] == w.procs[q];
      }
    }
    forall q, s | 0 <= q < |w.procs| && 0 <= s < |w.procs| ensures PlacesOk(w', q, s) { assert PlacesOk(w, q, s); }
    forall q, s: nat | 0 <= q < |w.procs| ensures TagOk(w', q, s, Slack(w', q, p, slack)) {
      assert TagOk(w, q, s, Slack(w, q, p, slack));
      if q == p { assert TagOk(w', p, s, slack); }
    }
    forall s | 0 <= s < |w'.pools| ensures PoolOk(w'.pools[s], |w'.procs|) { assert PoolOk(w.pools[s], |w.procs|); }
  }

  lemma TakeKeeps(w: World, r: nat, p: nat, n: int, rq: Request, slack: seq<nat>)
    requires Running(w, p, slack)
    requires p < |w.procs| && r < |w.pools| && w.procs[p].alive && w.procs[p].frame.Idle?
    requires 0 < n <= Room(w.pools[r])
    ensures var w' := TakeUnits(w, r, p, n, rq);
      && Running(w', p, slack) && OnlyHolding(w, w', r, p)
      && w'.pools[r].inUse == w.pools[r].inUse + n
      && w'.pools[r] == w.pools[r].(inUse := w'.pools[r].inUse, holders := w'.pools[r].holders)
      && Hold(w', r, p) == (match Hold(w, r, p)
           case Some(t) => Some(t.(item := t.item.(amount := t.item.amount + n)))
           case None => Some(Tag(p, RequestRank(rq, w.procs[p]), w.now, Stake(n, rq.fixed))))
  {
    hide Entries, Places, Put, WaitOk;
    var w' := TakeUnits(w, r, p, n, rq);
    var pool := w.pools[r];
    assert PoolOk(pool, |w.procs|);
    match Hold(w, r, p) {
      case Some(t) =>
        assert AmountOf(Find(pool.holders, p)) > 0;
        PutHolding(pool, |w.procs|, t.(item := t.item.(amount := t.item.amount + n)));
      case None =>
        PutHolding(pool, |w.procs|, Tag(p, RequestRank(rq, w.procs[p]), w.now, Stake(n, rq.fixed)));
    }
    TagsTaken(w, w', r, p, slack);
    OnlyHoldingKeeps(w, w', r, p, slack);
  }

  /** Taking units tags the pool they are taken from. */
  lemma TagsTaken(w: World, w': World, r: nat, p: nat, slack: seq<nat>)
    requires Tags(w, p, slack) && p < |w.procs| == |w'.procs| && r < |w.pools| == |w'.pools| && w.procs[p].frame.Idle?
    requires w'.procs[p] == w.procs[p].(tags := AddTag(w.procs[p].tags, r)) || (w'.procs[p] == w.procs[p] && Hold(w, r, p).Some?)
    requires Hold(w', r, p).Some? && forall s: nat :: s != r ==> Hold(w', s, p) == Hold(w, s, p)
    ensures forall s: nat :: TagOk(w', p, s, slack)
  {
    assert TagOk(w, p, r, Slack(w, p, p, slack));
    forall s: nat ensures TagOk(w', p, s, slack) { assert TagOk(w, p, s, Slack(w, p, p, slack)); }
  }

  lemma SetRankKeeps(w: World, r: nat, p: nat, rank: int, fixed: bool, slack: seq<nat>)
    requires Running(w, p, slack)
    requires p < |w.procs| && r < |w.pools| && w.procs[p].frame.Idle?
    ensures var w' := SetRank(w, r, p, rank, fixed);
      && Running(w', p, slack) && OnlyHolding(w, w', r, p)
      && w'.pools[r] == w.pools[r].(holders := w'.pools[r].holders) && w'.procs == w.procs
      && Hold(w', r, p) == (match Hold(w, r, p)
           case Some(t) => Some(t.(rank := rank, item := t.item.(fixed := fixed)))
           case None => None)
  {
    var w' := SetRank(w, r, p, rank, fixed);
    var pool := w.pools[r];
    assert PoolOk(pool, |w.procs|);
    if Hold(w, r, p).Some? {
      var t := Hold(w, r, p).value;
      assert AmountOf(Find(pool.holders, p)) > 0;
      PutHolding(pool, |w.procs|, t.(rank := rank, item := t.item.(fixed := fixed)));
      assert pool.inUse + 0 == pool.inUse;
      forall s: nat ensures TagOk(w', p, s, slack) { assert TagOk(w, p, s, Slack(w, p, p, slack)); }
      assert WaitOk(w, p);
      OnlyHoldingKeeps(w, w', r, p, slack);
    }
  }

  lemma HoldingChanged(w: World, r: nat, p: nat, pool': Pool, slack: seq<nat>)
    requires Running(w, p, slack)
    requires p < |w.procs| && r < |w.pools| && w.procs[p].frame.Idle?
    requires PoolOk(pool', |w.procs|) && pool'.queue == w.pools[r].queue
    requires forall k: nat :: k != p ==> Find(pool'.holders, k) == Find(w.pools[r].holders, k)
    requires Hold(w, r, p).Some? && (Find(pool'.holders, p).Some? || r in slack)
    ensures Running(SetPool(w, r, pool'), p, slack) && OnlyHolding(w, SetPool(w, r, pool'), r, p)
  {
    var w' := SetPool(w, r, pool');
    forall s: nat ensures TagOk(w', p, s, slack) { assert TagOk(w, p, s, Slack(w, p, p, slack)); }
    assert WaitOk(w, p);
    OnlyHoldingKeeps(w, w', r, p, slack);
  }

  lemma GiveBackKeeps(w: World, r: nat, p: nat, n: int, slack: seq<nat>)
    requires Running(w, p, slack)
    requires p < |w.procs| && r < |w.pools| && w.procs[p].frame.Idle?
    requires 0 <= n <= Held(w, r, p) && r in slack
    ensures var w' := GiveBack(w, r, p, n);
      && Running(w', p, slack) && OnlyHolding(w, w', r, p) && w'.procs == w.procs
      && w'.pools[r].inUse == w.pools[r].inUse - n
      && w'.pools[r] == w.pools[r].(inUse := w'.pools[r].inUse, holders := w'.pools[r].holders)
      && Hold(w', r, p) == (if n == Held(w, r, p) then None else
           Some(Hold(w, r, p).value.(item := Hold(w, r, p).value.item.(amount := Held(w, r, p) - n))))
  {
    hide Entries, Waits, Places, Tags, Put, Delete;
    var pool := w.pools[r];
    assert PoolOk(pool, |w.procs|);
    if Hold(w, r, p).None? {
      assert GiveBack(w, r, p, n) == w;
    } else if n == Held(w, r, p) {
      DeleteHolding(pool, |w.procs|, p);
      HoldingChanged(w, r, p, pool.(inUse := pool.inUse - n, holders := Delete(pool.holders, p)), slack);
    } else {
      var t := Hold(w, r, p).value;
      var t' := t.(item := t.item.(amount := t.item.amount - n));
      assert AmountOf(Find(pool.holders, p)) > 0;
      PutHolding(pool, |w.procs|, t');
      HoldingChanged(w, r, p, pool.(inUse := pool.inUse - n, holders := Put(pool.holders, t', VictimFirst)), slack);
    }
  }

  lemma KeysDiffer(w: World, p: nat, q: nat)
    requires Waits(w) && Places(w) && p < |w.procs| && q < |w.procs| && p != q
    requires w.procs[p].frame.Waiting? && w.procs[q].frame.Waiting?
    ensures w.procs[p].frame.key != w.procs[q].frame.key
  {
    assert WaitOk(w, p) && WaitOk(w, q) && PlacesOk(w, p, q);
    KeyOrder(w.procs[p].frame.place, w.procs[q].frame.place);
  }

  /** A waiting process leaves every queue, with its next status and event.
      Holdings may shrink: `lost` says which pool, if any, it was thrown out of. */
  ghost predicate LeavesQueues(w: World, w': World, q: nat, frame': Frame)
  {
    && |w'.pools| == |w.pools| && |w'.procs| == |w.procs| && q < |w.procs|
    && w'.now == w.now && w'.requestSeq == w.requestSeq && w.events <= w'.events
    && w.procs[q].frame.Waiting?
    && w'.procs[q].frame == frame'
    && (forall z :: 0 <= z < |w.procs| && z != q ==> w'.procs[z] == w.procs[z])
    && w'.procs[q].alive == w.procs[q].alive && w'.procs[q].priority == w.procs[q].priority
    && (forall s: nat, k: nat :: Entry(w', s, k) ==
          if k == w.procs[q].frame.key && s in w.procs[q].frame.members then None else Entry(w, s, k))
  }

  lemma LeavingKeepsEntries(w: World, w': World, q: nat, frame': Frame)
    requires Entries(w) && Waits(w) && Places(w) && LeavesQueues(w, w', q, frame')
    ensures Entries(w')
    ensures forall z, s: nat :: 0 <= z < |w.procs| && z != q && w.procs[z].frame.Waiting?
              ==> Entry(w', s, w.procs[z].frame.key) == Entry(w, s, w.procs[z].frame.key)
  {
    forall s: nat, k: nat ensures EntryOk(w', s, k) { assert EntryOk(w, s, k); }
    forall z, s: nat | 0 <= z < |w.procs| && z != q && w.procs[z].frame.Waiting?
      ensures Entry(w', s, w.procs[z].frame.key) == Entry(w, s, w.procs[z].frame.key)
    {
      KeysDiffer(w, z, q);
    }
  }

  /** The other processes do not notice, if their holdings are unchanged. */
  lemma LeavingKeepsOthers(w: World, w': World, q: nat, frame': Frame)
    requires Entries(w) && Waits(w) && Places(w) && LeavesQueues(w, w', q, frame')
    requires forall s: nat, z: nat :: z != q ==> Hold(w', s, z) == Hold(w, s, z)
    requires frame'.Waiting? ==> frame' == w.procs[q].frame.(status := frame'.status)
    requires frame'.Waiting? ==> StatusOk(w', q, frame') && CallOk(w', q, frame')
    ensures Entries(w') && Waits(w') && Places(w')
  {
    LeavingKeepsEntries(w, w', q, frame');
    assert WaitOk(w, q);
    forall z | 0 <= z < |w.procs| ensures WaitOk(w', z) {
      assert WaitOk(w, z);
      if z == q { assert w'.procs[q].frame == frame'; }
    }
    forall y, z | 0 <= y < |w.procs| && 0 <= z < |w.procs| ensures PlacesOk(w', y, z) { assert PlacesOk(w, y, z); }
  }

  lemma GrantKeeps(w: World, r: nat, q: nat, p: nat, slack: seq<nat>)
    requires Running(w, p, slack) && q < |w.procs| && w.procs[q].frame.Waiting? && w.procs[q].frame.status.Queued?
    requires r in w.procs[q].frame.members
    ensures var w' := GrantTo(w, r, q); var f := w.procs[q].frame;
      && Running(w', p, slack)
      && LeavesQueues(w, w', q, f.(status := Granted(FirstListing(f.members, r))))
      && FirstListing(f.members, r) < |f.members| && f.members[FirstListing(f.members, r)] == r
      && (forall s: nat, z: nat :: Hold(w', s, z) == Hold(w, s, z))
      && (forall s :: 0 <= s < |w.pools| ==> w'.pools[s] == w.pools[s].(queue := w'.pools[s].queue))
      && w'.procs == w.procs[q := w.procs[q].(frame := w'.procs[q].frame)]
  {
    var w' := GrantTo(w, r, q);
    var f := w.procs[q].frame;
    WithdrawEffect(w, f.members, f.key);
    assert WaitOk(w, q);
    var i := FirstListing(f.members, r);
    assert exists j :: 0 <= j < |f.members| && f.members[j] == r;
    LeavingKeepsOthers(w, w', q, f.(status := Granted(i)));
    forall z, s: nat | 0 <= z < |w.procs| ensures TagOk(w', z, s, Slack(w', z, p, slack)) {
      assert TagOk(w, z, s, Slack(w, z, p, slack));
    }
    forall s | 0 <= s < |w.pools| ensures PoolOk(w'.pools[s], |w'.procs|) {
      assert PoolOk(w.pools[s], |w.procs|);
    }
  }

  /** What a signal may change: one waiter leaves its queues with a grant. */
  ghost predicate SignalEffect(w: World, w': World, r: nat) {
    && |w'.pools| == |w.pools| && |w'.procs| == |w.procs| && w'.now == w.now && w'.requestSeq == w.requestSeq
    && (forall s: nat, z: nat :: Hold(w', s, z) == Hold(w, s, z))
    && (forall s :: 0 <= s < |w.pools| ==> w'.pools[s] == w.pools[s].(queue := w'.pools[s].queue))
    && (forall s: nat, k: nat :: Entry(w', s, k).Some? ==> Entry(w', s, k) == Entry(w, s, k))
    && (forall z :: 0 <= z < |w.procs| ==>
          w'.procs[z] == w.procs[z] ||
          (w.procs[z].frame.Waiting? && w.procs[z].frame.status.Queued? && w'.procs[z].frame.Waiting? && w'.procs[z].frame.status.Granted?
           && w'.procs[z] == w.procs[z].(frame := w.procs[z].frame.(status := w'.procs[z].frame.status))))
  }

  lemma SignalKeeps(w: World, r: nat, p: nat, slack: seq<nat>)
    requires Running(w, p, slack) && r < |w.pools|
    ensures Running(SignalGuard(w, r), p, slack) && SignalEffect(w, SignalGuard(w, r), r)
  {
    var pool := w.pools[r];
    if pool.queue != [] && Room(pool) > 0 {
      FrontIsFound(pool.queue);
      assert EntryOk(w, r, pool.queue[0].key);
      GrantKeeps(w, r, pool.queue[0].item, p, slack);
    }
  }

  /** The entry under a key once process v has left its queues. */
  function LeftEntry(w: World, v: nat, s: nat, k: nat): Option<Tag<nat>>
    requires v < |w.procs|
  {
    var f := w.procs[v].frame;
    if f.Waiting? && k == f.key && s in f.members then None else Entry(w, s, k)
  }

  /** What throwing a holder out changes. */
  ghost predicate EvictEffect(w: World, w': World, r: nat, v: nat) {
    && r < |w.pools| && v < |w.procs|
    && |w'.pools| == |w.pools| && |w'.procs| == |w.procs| && w'.now == w.now && w'.requestSeq == w.requestSeq
    && w'.events == w.events + multiset{Notice(v, Preempted)}
    && (forall s: nat, z: nat :: Hold(w', s, z) == if s == r && z == v then None else Hold(w, s, z))
    && (forall s: nat, k: nat :: Entry(w', s, k) == LeftEntry(w, v, s, k))
    && w'.pools[r].holders == Delete(w.pools[r].holders, v)
    && w'.pools[r].inUse == w.pools[r].inUse - Held(w, r, v)
    && (forall s :: 0 <= s < |w.pools| ==>
          w'.pools[s].capacity == w.pools[s].capacity && w'.pools[s].maxCapacity == w.pools[s].maxCapacity)
    && (forall s :: 0 <= s < |w.pools| && s != r ==>
          w'.pools[s] == w.pools[s].(queue := w'.pools[s].queue))
    && (forall z :: 0 <= z < |w.procs| && z != v ==> w'.procs[z] == w.procs[z])
    && w'.procs[v] == w.procs[v].(tags := w'.procs[v].tags, frame := w'.procs[v].frame)
    && (forall s: nat :: s in w'.procs[v].tags <==> s in w.procs[v].tags && s != r)
    && w'.procs[v].frame == (if w.procs[v].frame.Waiting? then w.procs[v].frame.(status := Evicted) else Idle)
  }

  /** The pools after a victim's holding is gone and before it leaves its queues. */
  lemma UnholdEffect(w: World, r: nat, v: nat)
    requires Pools(w) && r < |w.pools|
    ensures var pool' := w.pools[r].(inUse := w.pools[r].inUse - Held(w, r, v), holders := Delete(w.pools[r].holders, v));
            var w1 := SetPool(w, r, pool').(events := w.events + multiset{Notice(v, Preempted)});
      && Pools(w1)
      && (forall s: nat, z: nat :: Hold(w1, s, z) == if s == r && z == v then None else Hold(w, s, z))
      && (forall s: nat, k: nat :: Entry(w1, s, k) == Entry(w, s, k))
  {
    var pool := w.pools[r];
    assert PoolOk(pool, |w.procs|);
    DeleteHolding(pool, |w.procs|, v);
    var pool' := pool.(inUse := pool.inUse - Held(w, r, v), holders := Delete(pool.holders, v));
    var w1 := SetPool(w, r, pool').(events := w.events + multiset{Notice(v, Preempted)});
    forall s | 0 <= s < |w1.pools| ensures PoolOk(w1.pools[s], |w1.procs|) { assert PoolOk(w.pools[s], |w.procs|); }
  }

  lemma EvictPools(w: World, r: nat, v: nat)
    requires Pools(w) && r < |w.pools| && v < |w.procs|
    ensures var w' := Evict(w, r, v);
      && Pools(w')
      && (forall s: nat, z: nat :: Hold(w', s, z) == if s == r && z == v then None else Hold(w, s, z))
      && (forall s: nat, k: nat :: Entry(w', s, k) == LeftEntry(w, v, s, k))
  {
    var w' := Evict(w, r, v);
    var pool' := w.pools[r].(inUse := w.pools[r].inUse - Held(w, r, v), holders := Delete(w.pools[r].holders, v));
    var w1 := SetPool(w, r, pool').(events := w.events + multiset{Notice(v, Preempted)});
    UnholdEffect(w, r, v);
    var f := w.procs[v].frame;
    if f.Waiting? {
      WithdrawEffect(w1, f.members, f.key);
      SamePools(Withdraw(w1, f.members, f.key), w');
      forall s: nat, k: nat ensures Entry(w', s, k) == LeftEntry(w, v, s, k) {
        assert Entry(w1, s, k) == Entry(w, s, k);
      }
    } else {
      SamePools(w1, w');
    }
  }

  lemma EvictHasEffect(w: World, r: nat, v: nat)
    requires Pools(w) && r < |w.pools| && v < |w.procs|
    ensures EvictEffect(w, Evict(w, r, v), r, v) && Pools(Evict(w, r, v))
  {
    EvictPools(w, r, v);
    DropTagMembers(w.procs[v].tags, r);
  }

  lemma SamePools(a: World, b: World)
    requires a.pools == b.pools && |a.procs| == |b.procs|
    ensures Pools(a) ==> Pools(b)
    ensures forall s: nat, z: nat :: Hold(a, s, z) == Hold(b, s, z)
    ensures forall s: nat, k: nat :: Entry(a, s, k) == Entry(b, s, k)
  {
  }

  lemma EvictKeeps(w: World, r: nat, v: nat, p: nat, slack: seq<nat>)
    requires Running(w, p, slack) && r < |w.pools| && Hold(w, r, v).Some?
    ensures v < |w.procs| && EvictEffect(w, Evict(w, r, v), r, v) && Held(w, r, v) > 0
    ensures Running(Evict(w, r, v), p, slack)
  {
    var w' := Evict(w, r, v);
    assert PoolOk(w.pools[r], |w.procs|);
    EvictHasEffect(w, r, v);
    assert TagOk(w, v, r, Slack(w, v, p, slack)) && WaitOk(w, v);
    EvictKeepsWaits(w, w', r, v);
    forall z, s: nat | 0 <= z < |w.procs| ensures TagOk(w', z, s, Slack(w', z, p, slack)) {
      assert TagOk(w, z, s, Slack(w, z, p, slack));
    }
  }

  /** Shared by the two kinds of victim, idle and waiting. */
  lemma EvictKeepsWaits(w: World, w': World, r: nat, v: nat)
    requires Entries(w) && Waits(w) && Places(w) && EvictEffect(w, w', r, v) && w.procs[v].alive
    ensures Entries(w') && Waits(w') && Places(w')
  {
    var f := w.procs[v].frame;
    assert WaitOk(w, v);
    if f.Waiting? {
      LeavingKeepsOthers(w, w', v, f.(status := Evicted));
    } else {
      forall s: nat, k: nat ensures EntryOk(w', s, k) { assert EntryOk(w, s, k); }
      forall z | 0 <= z < |w.procs| ensures WaitOk(w', z) { assert WaitOk(w, z); }
      forall y, z | 0 <= y < |w.procs| && 0 <= z < |w.procs| ensures PlacesOk(w', y, z) { assert PlacesOk(w, y, z); }
    }
  }

  /** A waiting process runs again: off every queue, its members are its slack. */
  lemma AwakenKeeps(w: World, p: nat)
    requires Inv(w) && p < |w.procs| && w.procs[p].frame.Waiting?
    ensures var w' := Awaken(w, p); var f := w.procs[p].frame;
      && Running(w', p, f.members) && LeavesQueues(w, w', p, Idle)
      && w'.procs == w.procs[p := w.procs[p].(frame := Idle)]
      && (forall s: nat, z: nat :: Hold(w', s, z) == Hold(w, s, z))
      && (forall s :: 0 <= s < |w.pools| ==> w'.pools[s] == w.pools[s].(queue := w'.pools[s].queue))
  {
    var w' := Awaken(w, p);
    var f := w.procs[p].frame;
    WithdrawEffect(w, f.members, f.key);
    forall s: nat, k: nat ensures Entry(w', s, k) == LeftEntry(w, p, s, k) {
      assert Entry(w', s, k) == Entry(Withdraw(w, f.members, f.key), s, k);
    }
    LeavingKeepsOthers(w, w', p, Idle);
    forall z, s: nat | 0 <= z < |w.procs| ensures TagOk(w', z, s, Slack(w', z, p, f.members)) {
      assert TagOk(w, z, s, Slack(w, z, 0, []));
    }
    forall s | 0 <= s < |w.pools| ensures PoolOk(w'.pools[s], |w'.procs|) {
      assert PoolOk(w.pools[s], |w.procs|);
    }
  }

  // ---- Throwing several holders out ----

  function HeldBy(w: World, r: nat, vs: seq<nat>): int {
    if vs == [] then 0 else Held(w, r, vs[0]) + HeldBy(w, r, vs[1..])
  }

  ghost predicate Distinct(vs: seq<nat>) { forall i, j :: 0 <= i < j < |vs| ==> vs[i] != vs[j] }

  ghost predicate EvictAllEffect(w: World, w': World, r: nat, vs: seq<nat>) {
    && r < |w.pools| && |w'.pools| == |w.pools| && |w'.procs| == |w.procs| && w'.now == w.now && w'.requestSeq == w.requestSeq
    && (forall s: nat, z: nat :: Hold(w', s, z) == if s == r && z in vs then None else Hold(w, s, z))
    && (forall s: nat, k: nat :: Entry(w', s, k).Some? ==> Entry(w', s, k) == Entry(w, s, k))
    && w'.pools[r].inUse == w.pools[r].inUse - HeldBy(w, r, vs)
    && (forall s :: 0 <= s < |w.pools| ==>
          w'.pools[s].capacity == w.pools[s].capacity && w'.pools[s].maxCapacity == w.pools[s].maxCapacity)
    && (forall s :: 0 <= s < |w.pools| && s != r ==> w'.pools[s] == w.pools[s].(queue := w'.pools[s].queue))
    && (forall z :: 0 <= z < |w.procs| && z !in vs ==> w'.procs[z] == w.procs[z])
    && (forall z :: 0 <= z < |w.procs| && z in vs ==>
          && w'.procs[z] == w.procs[z].(tags := w'.procs[z].tags, frame := w'.procs[z].frame)
          && w'.procs[z].frame == (if w.procs[z].frame.Waiting? then w.procs[z].frame.(status := Evicted) else Idle))
  }

  lemma HeldByUnchanged(w: World, w': World, r: nat, vs: seq<nat>)
    requires forall z :: z in vs ==> Hold(w', r, z) == Hold(w, r, z)
    ensures HeldBy(w', r, vs) == HeldBy(w, r, vs)
  {
  }

  lemma {:induction false} EvictAllKeeps(w: World, r: nat, vs: seq<nat>, p: nat, slack: seq<nat>)
    requires Running(w, p, slack) && r < |w.pools| && Distinct(vs)
    requires forall i :: 0 <= i < |vs| ==> Hold(w, r, vs[i]).Some?
    ensures Running(EvictAll(w, r, vs), p, slack) && EvictAllEffect(w, EvictAll(w, r, vs), r, vs)
    ensures EvictAll(w, r, vs).pools[r].inUse <= w.pools[r].inUse
    decreases |vs|
  {
    if vs != [] {
      var w1 := Evict(w, r, vs[0]);
      EvictKeeps(w, r, vs[0], p, slack);
      forall i | 0 <= i < |vs[1..]| ensures Hold(w1, r, vs[1..][i]).Some? { assert vs[1..][i] == vs[i + 1] != vs[0]; }
      EvictAllKeeps(w1, r, vs[1..], p, slack);
      HeldByUnchanged(w, w1, r, vs[1..]);
      EvictAllCompose(w, w1, EvictAll(w1, r, vs[1..]), r, vs);
    }
  }

  lemma EvictAllCompose(w: World, w1: World, w2: World, r: nat, vs: seq<nat>)
    requires vs != [] && EvictEffect(w, w1, r, vs[0]) && EvictAllEffect(w1, w2, r, vs[1..])
    requires HeldBy(w1, r, vs[1..]) == HeldBy(w, r, vs[1..])
    ensures EvictAllEffect(w, w2, r, vs)
  {
  }

  lemma KeysOfPrefix(w: World, r: nat, h: Holders, k: nat)
    requires r < |w.pools| && DistinctKeys(h) && k <= |h|
    requires forall z: nat :: Find(h, z).Some? ==> Hold(w, r, z) == Find(h, z)
    ensures Distinct(Keys(h[..k])) && HeldBy(w, r, Keys(h[..k])) == Total(h[..k])
    ensures forall i :: 0 <= i < k ==> Keys(h[..k])[i] == h[i].key && Hold(w, r, h[i].key) == Some(h[i])
    ensures forall z: nat :: z in Keys(h[..k]) ==> Find(h, z).Some?
  {
    forall i | 0 <= i < |h| ensures Hold(w, r, h[i].key) == Some(h[i]) { FindAt(h, i); }
    var p := h[..k];
    assert forall i :: 0 <= i < |p| ==> Hold(w, r, p[i].key) == Some(p[i]);
    SumOfKeys(w, r, p);
  }

  lemma {:induction false} SumOfKeys(w: World, r: nat, h: Holders)
    requires forall i :: 0 <= i < |h| ==> Hold(w, r, h[i].key) == Some(h[i])
    ensures HeldBy(w, r, Keys(h)) == Total(h)
  {
    if h != [] {
      assert Keys(h)[1..] == Keys(h[1..]);
      assert Hold(w, r, h[0].key) == Some(h[0]);
      SumOfKeys(w, r, h[1..]);
    }
  }

  // ---- Suspending and settling ----

  /** A place a call may wait at: new, or its own from an earlier wait. */
  ghost predicate PlaceFree(w: World, p: nat, place: Place) {
    place.number == 0 || (
      && PlaceOk(place) && place.number <= w.requestSeq && place.time <= w.now
      && forall q :: 0 <= q < |w.procs| && q != p && w.procs[q].frame.Waiting? ==>
           var g := w.procs[q].frame;
           && g.place.number != place.number
           && (g.place.number < place.number ==> g.place.time <= place.time)
           && (place.number < g.place.number ==> place.time <= g.place.time))
  }

  lemma SuspendPools(w: World, p: nat, members: seq<nat>, rq: Request, place: Place, call: Call)
    requires Pools(w) && p < |w.procs|
    ensures var w' := Suspend(w, p, members, rq, place, call);
            var pl := NextPlace(place, w.requestSeq, w.now).0;
      && Pools(w')
      && (forall s: nat, z: nat :: Hold(w', s, z) == Hold(w, s, z))
      && (forall s: nat, k: nat :: Entry(w', s, k) ==
            if s < |w.pools| && s in members && k == WaitKey(pl)
            then Some(Tag(k, RequestRank(rq, w.procs[p]), pl.time, p)) else Entry(w, s, k))
  {
    var w' := Suspend(w, p, members, rq, place, call);
    var pl := NextPlace(place, w.requestSeq, w.now).0;
    var tag := Tag(WaitKey(pl), RequestRank(rq, w.procs[p]), pl.time, p);
    forall s: nat | s < |w.pools|
      ensures PoolOk(w'.pools[s], |w'.procs|)
      ensures forall k: nat :: Entry(w', s, k) == if s in members && k == WaitKey(pl) then Some(tag) else Entry(w, s, k)
    {
      assert PoolOk(w.pools[s], |w.procs|);
      PutEntry(w.pools[s], |w.procs|, tag);
    }
  }

  ghost predicate SuspendEffect(w: World, w': World, p: nat, pl: Place, frame: Frame) {
    && p < |w.procs| && |w'.procs| == |w.procs| && |w'.pools| == |w.pools| && frame.Waiting? && frame.key == WaitKey(pl) && frame.place == pl
    && w'.events == w.events && w'.now == w.now && w.requestSeq <= w'.requestSeq && pl.number <= w'.requestSeq
    && PlaceOk(pl) && pl.time <= w.now
    && w'.procs == w.procs[p := w.procs[p].(tags := w'.procs[p].tags, frame := frame)]
    && (forall s: nat, z: nat :: Hold(w', s, z) == Hold(w, s, z))
    && (forall s: nat, k: nat :: Entry(w', s, k) ==
          if s < |w.pools| && s in frame.members && k == WaitKey(pl)
          then Some(Tag(k, RequestRank(frame.rq, w.procs[p]), pl.time, p)) else Entry(w, s, k))
    && (forall q :: 0 <= q < |w.procs| && q != p && w.procs[q].frame.Waiting? ==>
          w.procs[q].frame.key != WaitKey(pl) && PlacesOk(w', p, q) && PlacesOk(w', q, p))
  }

  lemma SuspendPlaceIsFresh(w: World, p: nat, q: nat, place: Place)
    requires p < |w.procs| && Waits(w) && PlaceFree(w, p, place) && w.requestSeq < SEQ_MASK
    requires q < |w.procs| && q != p && w.procs[q].frame.Waiting?
    ensures var pl := NextPlace(place, w.requestSeq, w.now).0; var g := w.procs[q].frame;
      && g.key != WaitKey(pl) && g.place.number != pl.number
      && (g.place.number < pl.number ==> g.place.time <= pl.time)
      && (pl.number < g.place.number ==> pl.time <= g.place.time)
  {
    assert WaitOk(w, q);
    KeyOrder(w.procs[q].frame.place, NextPlace(place, w.requestSeq, w.now).0);
  }

  lemma SuspendHasEffect(w: World, p: nat, members: seq<nat>, rq: Request, place: Place, call: Call)
    requires p < |w.procs| && Pools(w) && Waits(w)
    requires PlaceFree(w, p, place) && w.requestSeq < SEQ_MASK
    ensures var w' := Suspend(w, p, members, rq, place, call);
            var pl := NextPlace(place, w.requestSeq, w.now).0;
      && Pools(w') && SuspendEffect(w, w', p, pl, Waiting(members, WaitKey(pl), pl, rq, Queued, call))
      && (place.number != 0 ==> pl.number == place.number && pl.time == place.time)
  {
    var w' := Suspend(w, p, members, rq, place, call);
    var pl := NextPlace(place, w.requestSeq, w.now).0;
    SuspendPools(w, p, members, rq, place, call);
    forall q | 0 <= q < |w.procs| && q != p && w.procs[q].frame.Waiting?
      ensures w.procs[q].frame.key != WaitKey(pl) && PlacesOk(w', p, q) && PlacesOk(w', q, p)
    {
      SuspendPlaceIsFresh(w, p, q, place);
      assert w'.procs[q] == w.procs[q] && w'.procs[p].frame.place == pl;
    }
    assert w.requestSeq <= w'.requestSeq && pl.number <= w'.requestSeq && PlaceOk(pl) && pl.time <= w.now;
  }

  lemma SuspendedWaits(w: World, w': World, p: nat, pl: Place, frame: Frame)
    requires Entries(w) && Waits(w) && Places(w) && SuspendEffect(w, w', p, pl, frame)
    requires w.procs[p].frame.Idle? && frame.status.Queued?
    requires WaitOk(w', p)
    ensures Entries(w') && Waits(w') && Places(w')
  {
    forall s: nat, k: nat ensures EntryOk(w', s, k) { assert EntryOk(w, s, k); }
    forall q | 0 <= q < |w.procs| ensures WaitOk(w', q) {
      assert WaitOk(w, q);
      if q != p && w.procs[q].frame.Waiting? { assert w'.procs[q] == w.procs[q]; }
    }
    forall q, z | 0 <= q < |w.procs| && 0 <= z < |w.procs| ensures PlacesOk(w', q, z) { assert PlacesOk(w, q, z); }
  }

  lemma SuspendKeeps(w: World, p: nat, members: seq<nat>, rq: Request, place: Place, call: Call)
    requires p < |w.procs| && w.procs[p].alive && w.procs[p].frame.Idle?
    requires Running(w, p, members) && |members| > 0 && MembersOk(w, members)
    requires PlaceFree(w, p, place) && w.requestSeq < SEQ_MASK
    requires call.Take? ==>
      (|members| == 1 && 1 <= call.remaining <= call.requested && StakeOk(w, members[0], p, rq, call)
       && (call.entry.Some? ==> call.entry.value.key == p && call.entry.value.item.amount > 0))
    ensures Inv(Suspend(w, p, members, rq, place, call))
    ensures var w' := Suspend(w, p, members, rq, place, call);
            var pl := NextPlace(place, w.requestSeq, w.now).0;
      && SuspendEffect(w, w', p, pl, Waiting(members, WaitKey(pl), pl, rq, Queued, call))
      && (place.number != 0 ==> pl.number == place.number && pl.time == place.time)
  {
    var w' := Suspend(w, p, members, rq, place, call);
    var pl := NextPlace(place, w.requestSeq, w.now).0;
    SuspendHasEffect(w, p, members, rq, place, call);
    AddTagsMembers(w.procs[p].tags, members);
    assert WaitOk(w, p);
    assert WaitOk(w', p);
    SuspendedWaits(w, w', p, pl, w'.procs[p].frame);
    forall q, s: nat | 0 <= q < |w.procs| ensures TagOk(w', q, s, Slack(w', q, 0, [])) {
      assert TagOk(w, q, s, Slack(w, q, p, members));
    }
  }

  lemma SettleTagKeeps(w: World, p: nat, r: nat, slack: seq<nat>)
    requires Running(w, p, slack) && p < |w.procs| && w.procs[p].frame.Idle?
    ensures var w' := SettleTag(w, p, r);
      && Running(w', p, slack) && w' == w.(procs := w'.procs)
      && w'.procs == w.procs[p := w.procs[p].(tags := w'.procs[p].tags)]
      && (forall s: nat :: s in w'.procs[p].tags <==> s in w.procs[p].tags && (s == r ==> Hold(w, r, p).Some?))
  {
    var w' := SettleTag(w, p, r);
    DropTagMembers(w.procs[p].tags, r);
    if r < |w.pools| && Hold(w, r, p).Some? { assert PoolOk(w.pools[r], |w.procs|); }
    forall s: nat, k: nat ensures EntryOk(w', s, k) { assert EntryOk(w, s, k); }
    forall q | 0 <= q < |w.procs| ensures WaitOk(w', q) { assert WaitOk(w, q); }
    forall q, z | 0 <= q < |w.procs| && 0 <= z < |w.procs| ensures PlacesOk(w', q, z) { assert PlacesOk(w, q, z); }
    forall q, s: nat | 0 <= q < |w.procs| ensures TagOk(w', q, s, Slack(w', q, p, slack)) {
      assert TagOk(w, q, s, Slack(w, q, p, slack));
    }
  }

  lemma {:induction false} SettleTagsKeeps(w: World, p: nat, members: seq<nat>, slack: seq<nat>)
    requires Running(w, p, slack) && p < |w.procs| && w.procs[p].frame.Idle?
    ensures var w' := SettleTags(w, p, members);
      && Running(w', p, slack) && w' == w.(procs := w'.procs)
      && w'.procs == w.procs[p := w.procs[p].(tags := w'.procs[p].tags)]
      && (forall s: nat :: s in w'.procs[p].tags <==> s in w.procs[p].tags && (s in members ==> Hold(w, s, p).Some?))
    decreases |members|
  {
    if members != [] {
      SettleTagKeeps(w, p, members[0], slack);
      SettleTagsKeeps(SettleTag(w, p, members[0]), p, members[1..], slack);
      var w1 := SettleTag(w, p, members[0]);
      assert forall s: nat :: Hold(w1, s, p) == Hold(w, s, p);
      assert forall s: nat :: s in members <==> s == members[0] || s in members[1..];
    }
  }

  /** Once the running process waits, or has no tag without units, the
      invariant holds between steps. */
  lemma Settled(w: World, p: nat, slack: seq<nat>)
    requires Running(w, p, slack)
    requires p < |w.procs| ==> w.procs[p].frame.Waiting? || forall s: nat :: s in slack && s in w.procs[p].tags ==> Hold(w, s, p).Some?
    ensures Inv(w)
  {
    forall q, s: nat | 0 <= q < |w.procs| ensures TagOk(w, q, s, Slack(w, q, 0, [])) {
      assert TagOk(w, q, s, Slack(w, q, p, slack));
    }
  }

  lemma Unsettled(w: World, p: nat, slack: seq<nat>)
    requires Inv(w)
    ensures Running(w, p, slack)
  {
    forall q, s: nat | 0 <= q < |w.procs| ensures TagOk(w, q, s, Slack(w, q, p, slack)) {
      assert TagOk(w, q, s, Slack(w, q, 0, []));
    }
  }
}
