/** The resources and processes of one trial as objects that the verbs of
    `resource.c` change in place. Every method is the step function of
    `ResourceModel` with the same name. */
module Simulation {
  import opened HashHeap
  import opened WaitKeys
  import opened ResourceModel
  import opened ResourceInvariant
  import opened ResourceSteps
  import opened ResourceRuns
  import opened ResourceLoops
  import opened ResourceTheorems

  class Resource {
    var capacity: nat
    var maxCapacity: nat
    var inUse: int
    var holders: Holders
    var queue: Queue

    constructor (capacity: nat)
      ensures State() == NewPool(capacity)
    {
      this.capacity := capacity;
      maxCapacity := capacity;
      inUse := 0;
      holders := [];
      queue := [];
    }

    function State(): Pool
      reads this
    {
      Pool(capacity, maxCapacity, inUse, holders, queue)
    }
  }

  class Process {
    var alive: bool
    var priority: int
    var tags: seq<nat>
    var frame: Frame

    constructor (priority: int)
      ensures State() == Proc(true, priority, [], Idle)
    {
      alive := true;
      this.priority := priority;
      tags := [];
      frame := Idle;
    }

    function State(): Proc
      reads this
    {
      Proc(alive, priority, tags, frame)
    }
  }

  function WithEntry(pool: Pool, tag: Tag<nat>): Pool {
    pool.(queue := Put(pool.queue, tag, WaiterFirst))
  }

  /** A pool once the entry under a key, if any, has a new rank. */
  function Reranking(pool: Pool, key: nat, rank: int): Pool {
    match Find(pool.queue, key)
    case None => pool
    case Some(e) => pool.(queue := Put(pool.queue, e.(rank := rank), WaiterFirst))
  }

  class Trial {
    const resources: seq<Resource>
    const procs: seq<Process>
    var events: multiset<Wakeup>
    var now: real
    var requestSeq: nat

    ghost predicate Valid()
    {
      && (forall i, j :: 0 <= i < j < |resources| ==> resources[i] != resources[j])
      && (forall i, j :: 0 <= i < j < |procs| ==> procs[i] != procs[j])
    }

    ghost function State(): World
      reads this, resources, procs
    {
      World(seq(|resources|, i requires 0 <= i < |resources| reads resources => resources[i].State()),
            seq(|procs|, i requires 0 <= i < |procs| reads procs => procs[i].State()),
            events, now, requestSeq)
    }

    constructor (resources: seq<Resource>, procs: seq<Process>)
      requires forall i, j :: 0 <= i < j < |resources| ==> resources[i] != resources[j]
      requires forall i, j :: 0 <= i < j < |procs| ==> procs[i] != procs[j]
      requires forall i :: 0 <= i < |resources| ==> resources[i].State() == NewPool(resources[i].capacity)
      requires forall i :: 0 <= i < |procs| ==> procs[i].tags == [] && procs[i].frame.Idle?
      ensures Valid() && this.resources == resources && this.procs == procs && Initial(State())
    {
      this.resources := resources;
      this.procs := procs;
      events := multiset{};
      now := 0.0;
      requestSeq := 0;
    }

    // ---- Tags ----

    /** has_tag walks the process's list. */
    method HasTag(p: nat, r: nat) returns (found: bool)
      requires p < |procs|
      ensures found == (r in procs[p].tags)
    {
      var tags := procs[p].tags;
      var i := 0;
      while i < |tags|
        invariant i <= |tags| && r !in tags[..i]
      {
        if tags[i] == r { return true; }
        i := i + 1;
      }
      return false;
    }

    method AddTagTo(p: nat, r: nat)
      requires Valid() && p < |procs|
      modifies procs[p]
      ensures State() == SetProc(old(State()), p, old(State()).procs[p].(tags := AddTag(old(procs[p].tags), r)))
    {
      var found := HasTag(p, r);
      if !found { procs[p].tags := [r] + procs[p].tags; }
      assert State().procs == old(State()).procs[p := procs[p].State()];
    }

    // ---- Small changes ----

    method SetHoldingRank(r: nat, p: nat, rank: int, fixed: bool)
      requires Valid() && r < |resources|
      modifies resources[r]
      ensures State() == SetRank(old(State()), r, p, rank, fixed)
    {
      var rp := resources[r];
      match Find(rp.holders, p)
      case None =>
      case Some(t) =>
        rp.holders := Put(rp.holders, t.(rank := rank, item := t.item.(fixed := fixed)), VictimFirst);
        assert State().pools == old(State()).pools[r := rp.State()];
    }

    /** in_use and update_record together. */
    method Take(r: nat, p: nat, n: int, rq: Request)
      requires Valid() && r < |resources| && p < |procs|
      modifies resources[r], procs[p]
      ensures State() == TakeUnits(old(State()), r, p, n, rq)
    {
      hide Put, AddTag;
      ghost var w := State();
      var rp := resources[r];
      assert Hold(w, r, p) == Find(rp.holders, p);
      rp.inUse := rp.inUse + n;
      match Find(rp.holders, p) {
        case Some(t) =>
          rp.holders := Put(rp.holders, t.(item := t.item.(amount := t.item.amount + n)), VictimFirst);
          assert State().pools == w.pools[r := rp.State()];
          assert State().procs == w.procs;
        case None =>
          assert State().procs == w.procs;
          AddTagTo(p, r);
          assert procs[p].State() == State().procs[p] == w.procs[p].(tags := AddTag(w.procs[p].tags, r));
          rp.holders := Put(rp.holders, Tag(p, RequestRank(rq, procs[p].State()), now, Stake(n, rq.fixed)), VictimFirst);
          assert State().pools == w.pools[r := rp.State()];
          assert State().procs == w.procs[p := procs[p].State()];
      }
    }

    method Return(r: nat, p: nat, n: int)
      requires Valid() && r < |resources|
      modifies resources[r]
      ensures State() == GiveBack(old(State()), r, p, n)
    {
      hide Put, Delete;
      var rp := resources[r];
      match Find(rp.holders, p) {
        case None =>
        case Some(t) =>
          rp.holders := if t.item.amount == n then Delete(rp.holders, p)
                        else Put(rp.holders, t.(item := t.item.(amount := t.item.amount - n)), VictimFirst);
      }
      rp.inUse := rp.inUse - n;
      assert State().pools == old(State()).pools[r := rp.State()];
    }

    method Settle(p: nat, r: nat)
      requires Valid() && p < |procs| && r < |resources|
      modifies procs[p]
      ensures State() == SettleTag(old(State()), p, r)
    {
      if AmountOf(Find(resources[r].holders, p)) == 0 {
        procs[p].tags := DropTag(procs[p].tags, r);
        assert State().procs == old(State()).procs[p := procs[p].State()];
      }
    }

    // ---- Members ----

    /** Whether members[i] repeats an earlier member. */
    method Repeats(members: seq<nat>, i: nat) returns (yes: bool)
      requires i < |members|
      ensures yes == (members[i] in members[..i])
    {
      var j := 0;
      while j < i
        invariant j <= i && members[i] !in members[..j]
      {
        if members[j] == members[i] { return true; }
        j := j + 1;
      }
      return false;
    }

    method CancelEntry(s: nat, key: nat)
      requires Valid() && s < |resources|
      modifies resources[s]
      ensures State() == SetPool(old(State()), s, old(State()).pools[s].(queue := Delete(old(State()).pools[s].queue, key)))
    {
      resources[s].queue := Delete(resources[s].queue, key);
      assert State().pools == old(State()).pools[s := resources[s].State()];
    }

    /** Cancel a wait's entries, one for each distinct member. */
    method CancelEntries(members: seq<nat>, key: nat)
      requires Valid() && forall i :: 0 <= i < |members| ==> members[i] < |resources|
      modifies resources
      ensures State() == Withdraw(old(State()), members, key)
    {
      ghost var w := State();
      var i := 0;
      while i < |members|
        invariant i <= |members| && State() == w.(pools := State().pools)
        invariant forall s :: 0 <= s < |resources| ==>
          State().pools[s] == (if s in members[..i] then w.pools[s].(queue := Delete(w.pools[s].queue, key)) else w.pools[s])
      {
        var again := Repeats(members, i);
        if !again { CancelEntry(members[i], key); }
        i := i + 1;
      }
      assert members[..i] == members;
      assert State().pools == Withdraw(w, members, key).pools;
    }

    method SettleTagsOf(p: nat, members: seq<nat>)
      requires Valid() && p < |procs| && forall i :: 0 <= i < |members| ==> members[i] < |resources|
      modifies procs[p]
      ensures State() == SettleTags(old(State()), p, members)
    {
      hide SettleTags, SettleTag;
      ghost var w := State();
      var i := 0;
      assert members[0..] == members;
      while i < |members|
        invariant i <= |members| && SettleTags(State(), p, members[i..]) == SettleTags(w, p, members)
        invariant AreSettled(State(), p, members[..i])
      {
        var again := Repeats(members, i);
        ghost var w1 := State();
        SettleNext(w1, p, members, i);
        if !again { Settle(p, members[i]); }
        i := i + 1;
      }
      assert members[i..] == [];
      SettleNone(State(), p);
    }

    // ---- The engine's guard ----

    /** The grant hook: note the first listing of the granting member, and
        withdraw the request from every other member's queue. */
    method GrantHook(r: nat, members: seq<nat>, key: nat) returns (winner: nat)
      requires Valid() && r < |resources| && r in members
      requires forall i :: 0 <= i < |members| ==> members[i] < |resources|
      modifies resources
      ensures winner == FirstListing(members, r)
      ensures State() == old(State()).(pools := State().pools)
      ensures forall s :: 0 <= s < |resources| ==>
        State().pools[s] == (if s in members && s != r then old(State()).pools[s].(queue := Delete(old(State()).pools[s].queue, key))
                             else old(State()).pools[s])
    {
      hide FirstListing;
      ghost var w := State();
      var found := false;
      winner := 0;
      var i := 0;
      while i < |members|
        invariant i <= |members| && State() == w.(pools := State().pools)
        invariant found == (r in members[..i]) && (found ==> winner == FirstListing(members, r))
        invariant forall s :: 0 <= s < |resources| ==>
          State().pools[s] == (if s in members[..i] && s != r then w.pools[s].(queue := Delete(w.pools[s].queue, key)) else w.pools[s])
      {
        var s := members[i];
        if s == r {
          if !found {
            FirstListingIs(members, i);
            winner, found := i, true;
          }
        } else {
          var again := Repeats(members, i);
          if !again { CancelEntry(s, key); }
        }
        i := i + 1;
      }
      assert members[..i] == members;
    }

    /** cmb_resourceguard_signal with either demand function. */
    method Signal(r: nat)
      requires Valid() && r < |resources| && Entries(State()) && Waits(State())
      modifies this, resources, procs
      ensures State() == SignalGuard(old(State()), r)
    {
      hide Delete;
      ghost var w := State();
      var rp := resources[r];
      if |rp.queue| == 0 || rp.inUse >= rp.capacity { return; }
      var q, key := rp.queue[0].item, rp.queue[0].key;
      FrontIsFound(rp.queue);
      assert EntryOk(w, r, key) && WaitOk(w, q);
      var f := procs[q].frame;
      assert f == w.procs[q].frame;
      var winner := GrantHook(r, f.members, key);
      DequeueFront(r, q, f.(status := Granted(winner)), Grant(q, r, key));
      assert State().pools == Withdraw(w, f.members, key).pools;
    }

    /** The granted entry leaves the queue, and its wakeup is scheduled. */
    method DequeueFront(r: nat, q: nat, frame: Frame, wakeup: Wakeup)
      requires Valid() && r < |resources| && q < |procs| && resources[r].queue != []
      modifies this`events, resources[r], procs[q]
      ensures var w := old(State());
        State() == SetFrame(SetPool(w, r, w.pools[r].(queue := w.pools[r].queue[1..])), q, frame).(events := w.events + multiset{wakeup})
    {
      ghost var w := State();
      resources[r].queue := resources[r].queue[1..];
      procs[q].frame := frame;
      events := events + multiset{wakeup};
      assert State().pools == w.pools[r := resources[r].State()];
      assert State().procs == w.procs[q := procs[q].State()];
    }

    // ---- Preemption ----

    /** The holder in front leaves the heap, and its units are free. */
    method DequeueHolder(r: nat)
      requires Valid() && r < |resources| && resources[r].holders != []
      modifies resources[r]
      ensures var w := old(State()); var v := old(resources[r].holders[0].key);
        State() == SetPool(w, r, w.pools[r].(inUse := w.pools[r].inUse - Held(w, r, v), holders := Delete(w.pools[r].holders, v)))
    {
      ghost var w := State();
      var rp := resources[r];
      FrontIsFound(rp.holders);
      assert Hold(w, r, rp.holders[0].key) == Some(rp.holders[0]);
      rp.inUse := rp.inUse - rp.holders[0].item.amount;
      rp.holders := rp.holders[1..];
      assert State().pools == w.pools[r := rp.State()];
    }

    /** The victim's tag and waits go, and it gets its notice. */
    method ThrowOut(r: nat, v: nat)
      requires Valid() && v < |procs|
      requires procs[v].frame.Waiting? ==> MembersOk(State(), procs[v].frame.members)
      modifies this, resources, procs[v]
      ensures var w := old(State()).(events := old(State()).events + multiset{Notice(v, Preempted)});
              var proc := w.procs[v].(tags := DropTag(w.procs[v].tags, r));
        State() == match proc.frame
                   case Idle => SetProc(w, v, proc)
                   case Waiting(members, key, _, _, _, _) =>
                     SetProc(Withdraw(w, members, key), v, proc.(frame := proc.frame.(status := Evicted)))
    {
      ghost var w := State();
      var vp := procs[v];
      assert vp.State() == w.procs[v];
      vp.tags := DropTag(vp.tags, r);
      assert State().pools == w.pools;
      if vp.frame.Waiting? {
        CancelEntries(vp.frame.members, vp.frame.key);
        assert State().pools == Withdraw(w, vp.frame.members, vp.frame.key).pools;
        vp.frame := vp.frame.(status := Evicted);
      }
      events := events + multiset{Notice(v, Preempted)};
      assert State().procs == w.procs[v := vp.State()];
      assert vp.frame.Waiting? ==>
        State().pools == Withdraw(w.(events := events), vp.frame.members, vp.frame.key).pools;
    }

    /** preempt_front */
    method PreemptFront(r: nat)
      requires Valid() && r < |resources| && resources[r].holders != [] && resources[r].holders[0].key < |procs|
      requires var f := procs[resources[r].holders[0].key].frame; f.Waiting? ==> MembersOk(State(), f.members)
      modifies this, resources, procs
      ensures State() == Evict(old(State()), r, old(resources[r].holders[0].key))
    {
      ghost var w := State();
      var victim := resources[r].holders[0].key;
      assert procs[victim].State() == w.procs[victim];
      DequeueHolder(r);
      assert procs[victim].State() == State().procs[victim];
      ThrowOut(r, victim);
    }

    // ---- Waiting ----

    /** next_wait_key */
    method NextWaitKey(place: Place) returns (place': Place, key: nat)
      modifies this`requestSeq
      ensures State() == old(State()).(requestSeq := requestSeq)
      ensures (place', requestSeq) == NextPlace(place, old(requestSeq), now) && key == WaitKey(place')
    {
      place' := place;
      if place.number == 0 {
        requestSeq := (requestSeq + 1) % (SEQ_MASK + 1);
        if requestSeq == 0 { requestSeq := 1; }
        place' := Place(requestSeq, now, 0);
      } else if place.episode < EPISODE_MAX {
        place' := place.(episode := place.episode + 1);
      }
      key := WaitKey(place');
    }

    method EnqueueAt(p: nat, s: nat, tag: Tag<nat>)
      requires Valid() && p < |procs| && s < |resources|
      modifies resources[s], procs[p]
      ensures var w := old(State());
        State() == SetProc(SetPool(w, s, WithEntry(w.pools[s], tag)), p, w.procs[p].(tags := AddTag(w.procs[p].tags, s)))
    {
      ghost var w := State();
      assert procs[p].State() == w.procs[p];
      AddTagTo(p, s);
      ghost var w1 := State();
      resources[s].queue := Put(resources[s].queue, tag, WaiterFirst);
      assert State().pools == w1.pools[s := resources[s].State()];
      assert State().procs == w1.procs;
    }

    method EnterFrame(p: nat, frame: Frame)
      requires Valid() && p < |procs|
      modifies procs[p]
      ensures State() == SetFrame(old(State()), p, frame)
    {
      procs[p].frame := frame;
      assert State().procs == old(State()).procs[p := procs[p].State()];
    }

    /** A tag and an entry in every distinct member's queue, all under one key. */
    method Enqueue(p: nat, members: seq<nat>, tag: Tag<nat>)
      requires Valid() && p < |procs| && forall i :: 0 <= i < |members| ==> members[i] < |resources|
      modifies resources, procs[p]
      ensures State() == old(State()).(pools := State().pools,
        procs := old(State()).procs[p := old(State()).procs[p].(tags := AddTags(old(State()).procs[p].tags, members))])
      ensures forall s :: 0 <= s < |resources| ==>
        State().pools[s] == (if s in members then WithEntry(old(State()).pools[s], tag) else old(State()).pools[s])
    {
      hide WithEntry, AddTag;
      ghost var w := State();
      ghost var tags := w.procs[p].tags;
      var i := 0;
      assert w.procs[p := w.procs[p]] == w.procs;
      while i < |members|
        invariant i <= |members|
        invariant State() == w.(pools := State().pools, procs := w.procs[p := w.procs[p].(tags := AddTags(tags, members[..i]))])
        invariant forall s :: 0 <= s < |resources| ==>
          State().pools[s] == (if s in members[..i] then WithEntry(w.pools[s], tag) else w.pools[s])
      {
        var again := Repeats(members, i);
        AddTagsLast(tags, members[..i], members[i]);
        assert members[..i] + [members[i]] == members[..i + 1];
        if again {
          AddTagsMembers(tags, members[..i]);
          AddTagPresent(AddTags(tags, members[..i]), members[i]);
        }
        if !again { EnqueueAt(p, members[i], tag); }
        i := i + 1;
      }
      assert members[..i] == members;
    }

    /** A call waits: at its place in every member, until something resumes it. */
    method Wait(p: nat, members: seq<nat>, rq: Request, place: Place, call: Call)
      requires Valid() && p < |procs| && forall i :: 0 <= i < |members| ==> members[i] < |resources|
      modifies this`requestSeq, resources, procs[p]
      ensures State() == Suspend(old(State()), p, members, rq, place, call)
    {
      ghost var w := State();
      assert procs[p].State() == w.procs[p];
      var place', key := NextWaitKey(place);
      assert State().procs == w.procs && State().pools == w.pools;
      var tag := Tag(key, RequestRank(rq, procs[p].State()), place'.time, p);
      Enqueue(p, members, tag);
      ghost var w1 := State();
      EnterFrame(p, Waiting(members, key, place', rq, Queued, call));
      assert State().pools == Suspend(w, p, members, rq, place, call).pools;
      assert State().procs == Suspend(w, p, members, rq, place, call).procs;
    }

    /** The engine and the epilogue of a wait: off every queue, and running. */
    method Wake(p: nat)
      requires Valid() && p < |procs|
      requires procs[p].frame.Waiting? ==> MembersOk(State(), procs[p].frame.members)
      modifies resources, procs[p]
      ensures State() == Awaken(old(State()), p)
    {
      assert procs[p].State() == State().procs[p];
      if procs[p].frame.Waiting? {
        CancelEntries(procs[p].frame.members, procs[p].frame.key);
        EnterFrame(p, Idle);
      }
    }

    // ---- acquire and preempt ----

    /** acquire_inner's preempting loop. */
    method Preempt(p: nat, r: nat, claim: nat, rq: Request, ghost slack: seq<nat>) returns (rem: nat)
      requires Valid() && Claiming(State(), p, r, rq, slack) && claim > 0
      modifies this, resources, procs
      ensures rem <= claim && (State(), claim - rem) == PreemptFor(old(State()), p, r, claim, rq)
    {
      hide PreemptFor, Running, PreemptTurn;
      rem := claim;
      while resources[r].holders != [] && resources[r].holders[0].rank < RequestRank(rq, procs[p].State())
        invariant 0 < rem <= claim && Claiming(State(), p, r, rq, slack)
        invariant var (w', got) := PreemptFor(State(), p, r, rem, rq);
          PreemptFor(old(State()), p, r, claim, rq) == (w', claim - rem + got)
        decreases |Delete(resources[r].holders, p)|
      {
        ghost var w := State();
        assert w.pools[r] == resources[r].State() && w.procs[p] == procs[p].State();
        PreemptTurns(w, p, r, rem, rq, slack);
        TurnKeeps(w, p, r, rem, rq, slack);
        TurnShrinks(w, p, r, rem, rq, slack);
        var take := PreemptOnce(p, r, rem, rq, slack);
        assert State().pools[r] == resources[r].State() && State().procs[p] == procs[p].State();
        rem := rem - take;
        if rem == 0 { return; }
      }
      assert State().pools[r] == resources[r].State() && State().procs[p] == procs[p].State();
      PreemptEnds(State(), p, r, rem, rq);
    }

    method PreemptOnce(p: nat, r: nat, rem: nat, rq: Request, ghost slack: seq<nat>) returns (take: nat)
      requires Valid() && Claiming(State(), p, r, rq, slack)
      requires resources[r].holders != [] && resources[r].holders[0].rank < RequestRank(rq, procs[p].State())
      modifies this, resources, procs
      ensures (State(), take) == PreemptTurn(old(State()), p, r, rem, rq)
    {
      hide Evict, TakeUnits;
      ghost var w := State();
      assert w.pools[r] == resources[r].State() && w.procs[p] == procs[p].State();
      TurnVictim(w, p, r, rq, slack);
      assert WaitOk(w, w.pools[r].holders[0].key) && procs[w.pools[r].holders[0].key].State() == w.procs[w.pools[r].holders[0].key];
      PreemptFront(r);
      assert State().pools[r] == resources[r].State();
      var room := if resources[r].inUse < resources[r].capacity then resources[r].capacity - resources[r].inUse else 0;
      take := if room < rem then room else rem;
      if take > 0 { Take(r, p, take, rq); }
    }

    /** One pass of acquire_inner's loop. */
    method TakeClaim(p: nat, r: nat, rq: Request, place: Place, call: Call) returns (out: Outcome)
      requires Valid() && Running(State(), p, [r]) && r < |resources| && ClaimOk(State(), p, r, rq, call)
      requires call.Take? && p < |procs| && State().procs[p].alive && State().procs[p].frame.Idle?
      modifies this, resources, procs
      ensures (State(), out) == Attempt(old(State()), p, r, rq, place, call)
    {
      hide TakeUnits, PreemptFor, SignalGuard, Suspend, Running, Claiming, ClaimOk, Entries, Waits;
      ghost var w := State();
      assert w.pools[r] == resources[r].State();
      ClaimIsPositive(w, p, r, rq, call);
      ClaimBegins(w, p, r, rq, call);
      var rem := call.remaining;
      var available := if resources[r].inUse < resources[r].capacity then resources[r].capacity - resources[r].inUse else 0;
      if available >= rem {
        Take(r, p, rem, rq);
        Signal(r);
        return Returned(Success);
      } else if available > 0 {
        Take(r, p, available, rq);
        rem := rem - available;
      }
      if call.preempt {
        ghost var w1, claim := State(), rem;
        rem := Preempt(p, r, rem, rq, [r]);
        if rem == 0 {
          PreemptLeaves(w1, p, r, claim, rq, [r]);
          Signal(r);
          return Returned(Success);
        }
      }
      Wait(p, [r], rq, place, call.(remaining := rem));
      out := Suspended;
    }

    /** acquire and preempt, at a tracking or an explicit rank. */
    method Acquire(p: nat, r: nat, amount: nat, preempt: bool, rq: Request) returns (out: Outcome)
      requires Valid() && Inv(State()) && Enabled(State(), Step.Acquire(p, r, amount, preempt, rq))
      modifies this, resources, procs
      ensures (State(), out) == StartAcquire(old(State()), p, r, amount, preempt, rq) && Inv(State())
    {
      hide Attempt, Inv, Running;
      ghost var w := State();
      StartAcquireKeeps(w, p, r, amount, preempt, rq);
      if amount == 0 || amount > INT64_MAX { return Abandoned; }
      CallBegins(w, p, r, amount, preempt, rq);
      assert procs[p].State() == w.procs[p] && resources[r].State() == w.pools[r];
      var entry := Find(resources[r].holders, p);
      SetHoldingRank(r, p, RequestRank(rq, procs[p].State()), rq.fixed);
      out := TakeClaim(p, r, rq, Unplaced, Call.Take(amount, amount, preempt, entry));
    }

    method RollBack(p: nat, r: nat, entry: Option<Holding>)
      requires Valid() && p < |procs| && r < |resources| && Running(State(), p, [r]) && State().procs[p].frame.Idle?
      requires entry.Some? ==> 0 < AmountOf(entry) <= Held(State(), r, p)
      modifies this, resources, procs
      ensures State() == Rollback(old(State()), p, r, entry)
    {
      hide GiveBack, SetRank, SignalGuard, SettleTag;
      ghost var w := State();
      assert resources[r].State() == w.pools[r];
      var held := AmountOf(Find(resources[r].holders, p));
      match entry
      case Some(t) =>
        RollbackBegins(w, p, r, t);
        Return(r, p, held - t.item.amount);
        SetHoldingRank(r, p, t.rank, t.item.fixed);
        Signal(r);
        Settle(p, r);
      case None =>
        Return(r, p, held);
        Settle(p, r);
    }

    // ---- acquire_any ----

    /** take_one and settle_tags */
    method TakeOneOf(p: nat, members: seq<nat>, i: nat, rq: Request)
      requires Valid() && Running(State(), p, members) && p < |procs| && State().procs[p].alive && State().procs[p].frame.Idle?
      requires i < |members| && MembersOk(State(), members) && Room(State().pools[members[i]]) > 0
      modifies this, resources, procs
      ensures State() == TakeOne(old(State()), p, members, i, rq)
    {
      hide SetRank, TakeUnits, SignalGuard, SettleTags, Running;
      ghost var w := State();
      var r := members[i];
      assert procs[p].State() == w.procs[p];
      UnitTaken(w, p, r, rq, members);
      SetHoldingRank(r, p, RequestRank(rq, procs[p].State()), rq.fixed);
      Take(r, p, 1, rq);
      Signal(r);
      SettleTagsOf(p, members);
    }

    /** One pass of acquire_any's loop: scan the members for room, else wait in all. */
    method TryAny(p: nat, members: seq<nat>, rq: Request, place: Place) returns (out: Outcome)
      requires Valid() && Running(State(), p, members) && p < |procs| && State().procs[p].alive && State().procs[p].frame.Idle?
      requires MembersOk(State(), members)
      modifies this, resources, procs
      ensures (State(), out) == AttemptAny(old(State()), p, members, rq, place)
    {
      hide TakeOne, Suspend, Running;
      ghost var w := State();
      var i := 0;
      while i < |members|
        invariant i <= |members| && State() == w
        invariant forall j :: 0 <= j < i ==> Room(w.pools[members[j]]) == 0
      {
        assert resources[members[i]].State() == w.pools[members[i]];
        if resources[members[i]].inUse < resources[members[i]].capacity {
          assert FirstWithRoom(w, members) == i;
          TakeOneOf(p, members, i, rq);
          return Index(i);
        }
        i := i + 1;
      }
      assert FirstWithRoom(w, members) == |members|;
      Wait(p, members, rq, place, TakeAny);
      out := Suspended;
    }

    method AcquireAny(p: nat, members: seq<nat>, rq: Request) returns (out: Outcome)
      requires Valid() && Inv(State()) && Enabled(State(), Step.AcquireAny(p, members, rq))
      modifies this, resources, procs
      ensures (State(), out) == StartAcquireAny(old(State()), p, members, rq) && Inv(State())
    {
      hide AttemptAny, Running;
      StartAcquireAnyKeeps(State(), p, members, rq);
      if |members| == 0 { return Abandoned; }
      Unsettled(State(), p, members);
      out := TryAny(p, members, rq, Unplaced);
    }

    /** Signal each distinct member, in listing order. */
    method SignalMembers(members: seq<nat>, p: nat, ghost slack: seq<nat>)
      requires Valid() && Running(State(), p, slack) && p < |procs| && State().procs[p].frame.Idle? && MembersOk(State(), members)
      modifies this, resources, procs
      ensures State() == SignalEach(old(State()), members, 0)
    {
      hide SignalGuard;
      ghost var w := State();
      var i := 0;
      while i < |members|
        invariant i <= |members| && Running(State(), p, slack)
        invariant SignalEach(State(), members, i) == SignalEach(w, members, 0)
      {
        var again := Repeats(members, i);
        if !again {
          SignalKeeps(State(), members[i], p, slack);
          Signal(members[i]);
        }
        i := i + 1;
      }
    }

    // ---- Resuming ----

    /** What a resumption of p starts from: `w` is the state before the event
        that resumes it, if any, was taken off the list. */
    ghost predicate Resumable(p: nat, sig: Signal, w: World)
      reads this, resources, procs
    {
      && Valid() && Inv(w) && State() == w.(events := State().events) && KeepsOthersEvents(w, State().events, p)
      && w.requestSeq < SEQ_MASK && p < |procs| && w.procs[p].frame.Waiting? && FrameOk(w, p)
      && MayResume(w, p, sig)
    }

    /** A waiting acquire or preempt call resumes. */
    method ResumeTake(p: nat, sig: Signal, cancelled: bool, ghost w: World) returns (out: Outcome)
      requires Resumable(p, sig, w) && w.procs[p].frame.call.Take?
      modifies this, resources, procs
      ensures (State(), out) == Resume(old(State()), p, sig, cancelled)
    {
      hide Attempt, Rollback, SettleTag, SignalGuard, Awaken, Running, Inv, ClaimOk, Entries, Waits;
      assert procs[p].State() == State().procs[p];
      var f := procs[p].frame;
      AwakeKeeps(w, p, State().events);
      var r := f.members[0];
      assert resources[r].State() == State().pools[r] && f.members == [r];
      var queued := !cancelled && Find(resources[r].queue, f.key).Some?;
      Wake(p);
      ghost var w0 := State();
      RunningParts(w0, p, f.members);
      if !queued && sig != Success && sig != Cancelled { Signal(r); }
      PassOn(w, w0, State(), p, r);
      if sig == Success {
        out := TakeClaim(p, r, f.rq, f.place, f.call);
      } else if sig == Preempted {
        Settle(p, r);
        out := Returned(sig);
      } else {
        StakeCovers(State(), p, r, f.rq, f.call);
        RollBack(p, r, f.call.entry);
        out := Returned(sig);
      }
    }

    /** A waiting acquire_any call resumes. */
    method ResumeAny(p: nat, sig: Signal, cancelled: bool, ghost w: World) returns (out: Outcome)
      requires Resumable(p, sig, w) && w.procs[p].frame.call.TakeAny?
      modifies this, resources, procs
      ensures (State(), out) == Resume(old(State()), p, sig, cancelled)
    {
      hide AttemptAny, TakeOne, SettleTags, SignalEach, Awaken, Running, Inv;
      assert procs[p].State() == State().procs[p];
      var f := procs[p].frame;
      AwakeKeeps(w, p, State().events);
      Wake(p);
      if sig == Success {
        if f.status.Granted? && f.status.winner < |f.members| && Room(resources[f.members[f.status.winner]].State()) > 0 {
          TakeOneOf(p, f.members, f.status.winner, f.rq);
          out := Index(f.status.winner);
        } else {
          out := TryAny(p, f.members, f.rq, f.place);
        }
      } else {
        if sig != Cancelled { SignalMembers(f.members, p, f.members); }
        SettleTagsOf(p, f.members);
        out := Returned(sig);
      }
    }

    /** The wait of p returns `sig`. */
    method ResumeWait(p: nat, sig: Signal, cancelled: bool, ghost w: World) returns (out: Outcome)
      requires Resumable(p, sig, w)
      modifies this, resources, procs
      ensures (State(), out) == Resume(old(State()), p, sig, cancelled)
    {
      hide Resume, Inv;
      assert procs[p].State() == State().procs[p];
      if procs[p].frame.call.Take? {
        out := ResumeTake(p, sig, cancelled, w);
      } else {
        out := ResumeAny(p, sig, cancelled, w);
      }
    }

    /** A pending event is delivered. */
    method Deliver(e: Wakeup) returns (out: Outcome)
      requires Valid() && Inv(State()) && Enabled(State(), Step.Deliver(e))
      modifies this, resources, procs
      ensures (State(), out) == DeliverEvent(old(State()), e) && Inv(State())
    {
      hide Resume, Inv;
      ghost var w := State();
      StepKeeps(w, Step.Deliver(e));
      events := events - multiset{e};
      assert State() == w.(events := events);
      if e.pid >= |procs| { return Discarded; }
      assert procs[e.pid].State() == w.procs[e.pid];
      var f := procs[e.pid].frame;
      if !f.Waiting? { return Discarded; }
      match e
      case Notice(p, sig) =>
        out := ResumeWait(p, sig, true, w);
      case Grant(p, r, key) =>
        // A grant of another wait is stale, and discarded by its key
        var live := f.key == key && (match f.status
                                     case Queued => r in f.members
                                     case Granted(i) => i < |f.members| && f.members[i] == r
                                     case Evicted => false);
        if live {
          GrantMayResume(w, e);
          out := ResumeWait(p, Success, false, w);
        } else {
          out := Discarded;
        }
    }

    /** A timer, or a bare resume, ends the wait. */
    method TimeOut(p: nat, sig: Signal) returns (out: Outcome)
      requires Valid() && Inv(State()) && Enabled(State(), Step.Timer(p, sig))
      modifies this, resources, procs
      ensures (State(), out) == Resume(old(State()), p, sig, false) && Inv(State())
    {
      hide Resume, Inv;
      StepKeeps(State(), Step.Timer(p, sig));
      out := ResumeWait(p, sig, false, State());
    }

    // ---- The other verbs ----

    method Release(p: nat, r: nat, amount: nat) returns (out: Outcome)
      requires Valid() && Inv(State()) && Enabled(State(), Step.ReleaseUnits(p, r, amount))
      modifies this, resources, procs
      ensures (State(), out) == ResourceModel.Release(old(State()), p, r, amount) && Inv(State())
    {
      hide GiveBack, SettleTag, SignalGuard, Inv, Running;
      ghost var w := State();
      ReleaseKeeps(w, p, r, amount);
      assert resources[r].State() == w.pools[r];
      if amount == 0 || amount > INT64_MAX || amount > AmountOf(Find(resources[r].holders, p)) { return Abandoned; }
      ReleaseBegins(w, p, r, amount);
      Return(r, p, amount);
      Settle(p, r);
      Signal(r);
      out := Done;
    }

    /** The capacity itself, and the largest so far. */
    method Resize(r: nat, value: nat)
      requires Valid() && r < |resources|
      modifies resources[r]
      ensures var pool := old(State()).pools[r];
        State() == SetPool(old(State()), r, pool.(capacity := value,
                                                  maxCapacity := if value > pool.maxCapacity then value else pool.maxCapacity))
    {
      var rp := resources[r];
      rp.capacity := value;
      if value > rp.maxCapacity { rp.maxCapacity := value; }
      assert State().pools == old(State()).pools[r := rp.State()];
    }

    method SetHolders(r: nat, holders: Holders)
      requires Valid() && r < |resources|
      modifies resources[r]
      ensures State() == SetPool(old(State()), r, old(State()).pools[r].(holders := holders))
    {
      resources[r].holders := holders;
      assert State().pools == old(State()).pools[r := resources[r].State()];
    }

    /** set_capacity's loop: throw out from the front until in_use fits, with
        the caller's holding set aside when it comes to the front. */
    method Shed(caller: Option<nat>, r: nat)
      requires Valid() && Inv(State()) && r < |resources|
      modifies this, resources, procs
      ensures State() == ShedOthers(old(State()), caller, r)
    {
      hide ShedOthers, Evict, Inv, Spared, PutBack;
      ghost var w := State();
      var spared: Option<Holding> := None;
      NothingSpared(w, r, caller);
      while resources[r].inUse > resources[r].capacity && resources[r].holders != []
        invariant Spared(State(), r, caller, spared) && Inv(PutBack(State(), r, spared))
        invariant ShedOthers(PutBack(State(), r, spared), caller, r) == ShedOthers(w, caller, r)
        decreases |resources[r].holders|
      {
        ghost var w1 := State();
        assert w1.pools[r] == resources[r].State();
        var front := resources[r].holders[0];
        if Some(front.key) == caller {
          SpareOnce(w1, r, caller, spared);
          SetAside(w1, r, caller);
          SetHolders(r, resources[r].holders[1..]);
          spared := Some(front);
        } else {
          ShedTurn(w1, r, caller, spared);
          assert procs[front.key].State() == w1.procs[front.key];
          PreemptFront(r);
        }
        assert State().pools[r] == resources[r].State();
      }
      assert State().pools[r] == resources[r].State();
      SparedEnds(State(), r, caller, spared);
      PutBackIs(State(), r, spared);
      if spared.Some? { SetHolders(r, Put(resources[r].holders, spared.value, VictimFirst)); }
    }

    method ChangeCapacity(caller: Option<nat>, r: nat, value: int, preempting: bool) returns (out: Outcome)
      requires Valid() && Inv(State()) && Enabled(State(), Step.ChangeCapacity(caller, r, value, preempting))
      modifies this, resources, procs
      ensures (State(), out) == SetCapacity(old(State()), caller, r, value, preempting) && Inv(State())
    {
      hide ShedOthers, SignalGuard, Inv, Running;
      ghost var w := State();
      SetCapacityKeeps(w, caller, r, value, preempting);
      assert resources[r].State() == w.pools[r];
      if value < 0 { return Abandoned; }
      if value == resources[r].capacity { return Done; }
      ResizeKeeps(w, r, value);
      Resize(r, value);
      assert resources[r].State() == State().pools[r];
      if preempting && resources[r].inUse > value {
        ShedKeeps(State(), caller, r);
        Shed(caller, r);
      }
      RunningParts(State(), 0, []) by { InvIsRunning(State()); }
      Signal(r);
      out := Done;
    }

    /** The engine's re-ranking of the waiting entries. */
    method RerankAt(s: nat, key: nat, rank: int)
      requires Valid() && s < |resources|
      modifies resources[s]
      ensures State() == SetPool(old(State()), s, Reranking(old(State()).pools[s], key, rank))
    {
      match Find(resources[s].queue, key)
      case None => assert State().pools == State().pools[s := resources[s].State()];
      case Some(e) =>
        resources[s].queue := Put(resources[s].queue, e.(rank := rank), WaiterFirst);
        assert State().pools == old(State()).pools[s := resources[s].State()];
    }

    method RerankWaits(p: nat, priority: int)
      requires Valid() && p < |procs|
      requires procs[p].frame.Waiting? ==> MembersOk(State(), procs[p].frame.members)
      modifies resources
      ensures State() == RerankEntries(old(State()), p, priority)
    {
      ghost var w := State();
      assert procs[p].State() == w.procs[p];
      if procs[p].frame.Idle? { return; }
      var members, key := procs[p].frame.members, procs[p].frame.key;
      var i := 0;
      while i < |members|
        invariant i <= |members| && State() == w.(pools := State().pools)
        invariant forall s :: 0 <= s < |resources| ==>
          State().pools[s] == (if s in members[..i] then Reranking(w.pools[s], key, priority) else w.pools[s])
      {
        var again := Repeats(members, i);
        if !again { RerankAt(members[i], key, priority); }
        i := i + 1;
      }
      assert members[..i] == members;
      assert State().pools == RerankEntries(w, p, priority).pools;
    }

    /** reprioritize */
    method ReprioritizeAt(p: nat, r: nat, priority: int)
      requires Valid() && p < |procs| && r < |resources|
      modifies resources[r]
      ensures State() == Reprioritize(old(State()), p, r, priority)
    {
      assert resources[r].State() == State().pools[r];
      match Find(resources[r].holders, p) {
        case None =>
        case Some(t) => if !t.item.fixed { SetHoldingRank(r, p, priority, false); }
      }
      ghost var w1 := State();
      assert resources[r].State() == w1.pools[r] && procs[p].State() == w1.procs[p];
      match procs[p].frame
      case Idle =>
      case Waiting(_, key, _, rq, _, _) =>
        match Find(resources[r].queue, key)
        case None =>
        case Some(e) =>
          if rq.fixed && e.rank != rq.rank {
            resources[r].queue := Put(resources[r].queue, e.(rank := rq.rank), WaiterFirst);
            assert State().pools == w1.pools[r := resources[r].State()];
          }
    }

    /** priority_set: the process, its waits, and then each holdable on its list. */
    method ChangePriority(p: nat, priority: int)
      requires Valid() && Inv(State()) && Enabled(State(), Step.ChangePriority(p, priority))
      modifies resources, procs[p]
      ensures State() == SetPriority(old(State()), p, priority) && Inv(State())
    {
      hide Reprioritize, RerankEntries, Inv;
      ghost var w := State();
      SetPriorityKeeps(w, p, priority);
      TagsInRange(w, p);
      assert procs[p].State() == w.procs[p];
      procs[p].priority := priority;
      assert State().procs == w.procs[p := procs[p].State()];
      assert State() == SetProc(w, p, w.procs[p].(priority := priority));
      RerankWaits(p, priority);
      ghost var w2 := State();
      var tags := procs[p].tags;
      var i := 0;
      assert tags[0..] == tags;
      while i < |tags|
        invariant i <= |tags| && ReprioritizeAll(State(), p, tags[i..], priority) == ReprioritizeAll(w2, p, tags, priority)
      {
        ReprioritizeAt(p, tags[i], priority);
        assert tags[i..][1..] == tags[i + 1..];
        i := i + 1;
      }
    }

    /** drop_holder, after the engine has taken the tag off the list. */
    method DropAt(p: nat, r: nat, ghost slack: seq<nat>)
      requires Valid() && Running(State(), p, slack) && p < |procs| && State().procs[p].frame.Idle? && r < |resources| && r in slack
      modifies this, resources, procs
      ensures State() == Drop(old(State()), p, r)
    {
      hide GiveBack, SignalGuard, Running;
      ghost var w := State();
      DropBegins(w, p, r, slack);
      procs[p].tags := DropTag(procs[p].tags, r);
      assert State().procs == w.procs[p := procs[p].State()];
      assert State().pools == w.pools && resources[r].State() == w.pools[r];
      var h := Find(resources[r].holders, p);
      if h.Some? {
        Return(r, p, h.value.item.amount);
        Signal(r);
      }
    }

    /** The engine drops each holdable on the list of a process that ends. */
    method DropEach(p: nat, tags: seq<nat>)
      requires Valid() && Running(State(), p, tags) && p < |procs| && State().procs[p].frame.Idle?
      requires forall i :: 0 <= i < |tags| ==> tags[i] < |resources|
      modifies this, resources, procs
      ensures State() == DropAll(old(State()), p, tags)
    {
      hide Drop, Running, DropAll;
      ghost var w := State();
      var i := 0;
      assert tags[0..] == tags;
      while i < |tags|
        invariant i <= |tags| && Running(State(), p, tags) && State().procs[p].frame.Idle?
        invariant DropAll(State(), p, tags[i..]) == DropAll(w, p, tags)
      {
        DropKeeps(State(), p, tags[i], tags);
        DropAllTurn(State(), p, tags, i);
        DropAt(p, tags[i], tags);
        i := i + 1;
      }
      assert tags[i..] == [];
      DropAllEnds(State(), p);
    }

    method Die(p: nat)
      requires Valid() && p < |procs|
      modifies procs[p]
      ensures State() == SetProc(old(State()), p, old(State()).procs[p].(alive := false))
    {
      procs[p].alive := false;
      assert State().procs == old(State()).procs[p := procs[p].State()];
    }

    /** A process exits or is stopped. */
    method Stop(p: nat)
      requires Valid() && Inv(State()) && Enabled(State(), Step.StopProcess(p))
      modifies this, resources, procs
      ensures State() == ResourceModel.Stop(old(State()), p) && Inv(State())
    {
      hide DropAll, Awaken, Running, Inv;
      ghost var w := State();
      StopKeeps(w, p);
      TagsInRange(w, p);
      assert procs[p].State() == w.procs[p];
      var tags := procs[p].tags;
      StopBegins(w, p);
      Wake(p);
      DropEach(p, tags);
      Die(p);
    }
  }

  lemma DropAllTurn(w: World, p: nat, tags: seq<nat>, i: nat)
    requires p < |w.procs| && i < |tags|
    ensures DropAll(w, p, tags[i..]) == DropAll(Drop(w, p, tags[i]), p, tags[i + 1..])
  {
    assert tags[i..][1..] == tags[i + 1..];
  }

  lemma DropAllEnds(w: World, p: nat)
    requires p < |w.procs|
    ensures DropAll(w, p, []) == w
  {
  }

  // ---- The states that the verbs pass through ----

  lemma RunningParts(w: World, p: nat, slack: seq<nat>)
    requires Running(w, p, slack)
    ensures Entries(w) && Waits(w) && Pools(w)
  {
  }

  /** What is free is taken first; then the claim is ready to preempt. */
  lemma ClaimBegins(w: World, p: nat, r: nat, rq: Request, call: Call)
    requires Running(w, p, [r]) && r < |w.pools| && ClaimOk(w, p, r, rq, call) && w.procs[p].alive && w.procs[p].frame.Idle?
    ensures var first := Min(Room(w.pools[r]), call.remaining); var w1 := if first > 0 then TakeUnits(w, r, p, first, rq) else w;
      && Entries(w1) && Waits(w1) && (first < call.remaining ==> Claiming(w1, p, r, rq, [r]))
  {
    hide TakeUnits, Entries, Waits, Pools, Places, Tags;
    var first := Min(Room(w.pools[r]), call.remaining);
    if first > 0 { TakeKeeps(w, r, p, first, rq, [r]); }
  }

  lemma NothingSpared(w: World, r: nat, caller: Option<nat>)
    requires Inv(w) && r < |w.pools|
    ensures Spared(w, r, caller, None) && PutBack(w, r, None) == w
  {
    assert PoolOk(w.pools[r], |w.procs|);
  }

  /** The caller's one holding comes to the front once. */
  lemma SpareOnce(w: World, r: nat, caller: Option<nat>, spared: Option<Holding>)
    requires Spared(w, r, caller, spared) && w.pools[r].holders != [] && Some(w.pools[r].holders[0].key) == caller
    ensures spared.None? && PutBack(w, r, None) == w
  {
    FrontIsFound(w.pools[r].holders);
    assert Hold(w, r, w.pools[r].holders[0].key).Some?;
  }

  lemma PutBackIs(w: World, r: nat, spared: Option<Holding>)
    requires r < |w.pools|
    ensures PutBack(w, r, spared) == match spared
      case None => w
      case Some(t) => SetPool(w, r, w.pools[r].(holders := Put(w.pools[r].holders, t, VictimFirst)))
  {
  }

  lemma TagsInRange(w: World, p: nat)
    requires Inv(w) && p < |w.procs|
    ensures forall i :: 0 <= i < |w.procs[p].tags| ==> w.procs[p].tags[i] < |w.pools|
    ensures w.procs[p].frame.Waiting? ==> MembersOk(w, w.procs[p].frame.members)
  {
    assert WaitOk(w, p);
    forall i | 0 <= i < |w.procs[p].tags| ensures w.procs[p].tags[i] < |w.pools| {
      assert TagOk(w, p, w.procs[p].tags[i], Slack(w, p, 0, []));
    }
  }

  lemma DropBegins(w: World, p: nat, r: nat, slack: seq<nat>)
    requires Running(w, p, slack) && p < |w.procs| && w.procs[p].frame.Idle? && r in slack
    ensures var w1 := SetProc(w, p, w.procs[p].(tags := DropTag(w.procs[p].tags, r)));
      Hold(w1, r, p).Some? ==> Entries(GiveBack(w1, r, p, Held(w1, r, p))) && Waits(GiveBack(w1, r, p, Held(w1, r, p)))
  {
    var w1 := SetProc(w, p, w.procs[p].(tags := DropTag(w.procs[p].tags, r)));
    if Hold(w1, r, p).Some? {
      hide GiveBack, SettleTag;
      assert Hold(w, r, p).Some? && PoolOk(w.pools[r], |w.procs|);
      GiveBackKeeps(w, r, p, Held(w, r, p), slack);
      SettleTagKeeps(GiveBack(w, r, p, Held(w, r, p)), p, r, slack);
      DropIsSettle(w, p, r);
    }
  }

  lemma StopBegins(w: World, p: nat)
    requires Inv(w) && p < |w.procs|
    ensures Running(Awaken(w, p), p, w.procs[p].tags) && Awaken(w, p).procs[p].frame.Idle?
    ensures Awaken(w, p).procs[p].tags == w.procs[p].tags
  {
    hide Awaken, Running, Inv;
    var tags := w.procs[p].tags;
    if w.procs[p].frame.Waiting? {
      AwakeKeeps(w, p, w.events);
      assert w.(events := w.events) == w;
      WidenSlack(Awaken(w, p), p, w.procs[p].frame.members, tags);
    } else {
      AwakenIdle(w, p);
      Unsettled(w, p, tags);
    }
  }

  lemma ClaimIsPositive(w: World, p: nat, r: nat, rq: Request, call: Call)
    requires ClaimOk(w, p, r, rq, call)
    ensures p < |w.procs| && call.Take? && 1 <= call.remaining
  {
  }

  lemma PreemptLeaves(w: World, p: nat, r: nat, rem: nat, rq: Request, slack: seq<nat>)
    requires Claiming(w, p, r, rq, slack) && rem > 0
    ensures var w' := PreemptFor(w, p, r, rem, rq).0; Entries(w') && Waits(w')
  {
    hide PreemptFor, Entries, Waits, Pools, Places, Tags;
    PreemptKeeps(w, p, r, rem, rq, slack);
  }

  lemma CallBegins(w: World, p: nat, r: nat, amount: nat, preempt: bool, rq: Request)
    requires Inv(w) && CanCall(w, p) && r < |w.pools| && 0 < amount <= INT64_MAX
    ensures var w1 := SetRank(w, r, p, RequestRank(rq, w.procs[p]), rq.fixed);
      && Running(w1, p, [r]) && ClaimOk(w1, p, r, rq, Take(amount, amount, preempt, Hold(w, r, p)))
      && w1.procs[p].alive && w1.procs[p].frame.Idle?
  {
    Unsettled(w, p, [r]);
    assert PoolOk(w.pools[r], |w.procs|);
    SetRankKeeps(w, r, p, RequestRank(rq, w.procs[p]), rq.fixed, [r]);
  }

  lemma RollbackBegins(w: World, p: nat, r: nat, t: Holding)
    requires p < |w.procs| && r < |w.pools| && Running(w, p, [r]) && w.procs[p].frame.Idle?
    requires 0 < t.item.amount <= Held(w, r, p)
    ensures var w2 := SetRank(GiveBack(w, r, p, Held(w, r, p) - t.item.amount), r, p, t.rank, t.item.fixed);
      Entries(w2) && Waits(w2)
  {
    hide GiveBack, SetRank, Entries, Waits, Pools, Places, Tags;
    var w1 := GiveBack(w, r, p, Held(w, r, p) - t.item.amount);
    GiveBackKeeps(w, r, p, Held(w, r, p) - t.item.amount, [r]);
    SetRankKeeps(w1, r, p, t.rank, t.item.fixed, [r]);
  }

  lemma UnitTaken(w: World, p: nat, r: nat, rq: Request, slack: seq<nat>)
    requires Running(w, p, slack) && p < |w.procs| && w.procs[p].alive && w.procs[p].frame.Idle?
    requires r < |w.pools| && Room(w.pools[r]) > 0
    ensures var w2 := TakeUnits(SetRank(w, r, p, RequestRank(rq, w.procs[p]), rq.fixed), r, p, 1, rq);
      Entries(w2) && Waits(w2)
  {
    hide SetRank, TakeUnits, Entries, Waits, Pools, Places, Tags;
    SetRankKeeps(w, r, p, RequestRank(rq, w.procs[p]), rq.fixed, slack);
    TakeKeeps(SetRank(w, r, p, RequestRank(rq, w.procs[p]), rq.fixed), r, p, 1, rq, slack);
  }

  lemma StakeCovers(w: World, p: nat, r: nat, rq: Request, call: Call)
    requires CanRollBack(w, p, r, rq, call)
    ensures call.entry.Some? ==> 0 < AmountOf(call.entry) <= Held(w, r, p)
  {
  }

  lemma ReleaseBegins(w: World, p: nat, r: nat, amount: nat)
    requires Inv(w) && CanCall(w, p) && r < |w.pools| && 0 < amount <= Held(w, r, p)
    ensures var w2 := SettleTag(GiveBack(w, r, p, amount), p, r); Entries(w2) && Waits(w2)
  {
    hide GiveBack, SettleTag;
    var w1 := GiveBack(w, r, p, amount);
    Unsettled(w, p, [r]);
    assert PoolOk(w.pools[r], |w.procs|);
    GiveBackKeeps(w, r, p, amount, [r]);
    SettleTagKeeps(w1, p, r, [r]);
  }

  /** The process has no tag of these pools without units there. */
  ghost predicate AreSettled(w: World, p: nat, members: seq<nat>) {
    p < |w.procs| && forall r :: r in members && Held(w, r, p) == 0 ==> r !in w.procs[p].tags
  }

  /** Settling the next member; a repeated one is settled already. */
  lemma SettleNext(w: World, p: nat, members: seq<nat>, i: nat)
    requires i < |members| && AreSettled(w, p, members[..i])
    ensures SettleTags(w, p, members[i..]) == SettleTags(SettleTag(w, p, members[i]), p, members[i + 1..])
    ensures members[i] in members[..i] ==> SettleTag(w, p, members[i]) == w
    ensures AreSettled(SettleTag(w, p, members[i]), p, members[..i + 1])
  {
    var r := members[i];
    assert members[i..][1..] == members[i + 1..];
    DropTagMembers(w.procs[p].tags, r);
    if r !in w.procs[p].tags {
      DropTagAbsent(w.procs[p].tags, r);
      assert w.procs[p := w.procs[p]] == w.procs;
    }
    assert forall s :: s in members[..i + 1] ==> s in members[..i] || s == r;
    var w' := SettleTag(w, p, r);
    forall s | s in members[..i + 1] && Held(w', s, p) == 0 ensures s !in w'.procs[p].tags { assert Held(w, s, p) == 0; }
  }

  lemma SettleNone(w: World, p: nat)
    requires p < |w.procs|
    ensures SettleTags(w, p, []) == w
  {
  }

  lemma AddTagPresent(tags: seq<nat>, r: nat)
    requires r in tags
    ensures AddTag(tags, r) == tags
  {
  }

  lemma {:induction false} AddTagsLast(tags: seq<nat>, members: seq<nat>, r: nat)
    ensures AddTags(tags, members + [r]) == AddTag(AddTags(tags, members), r)
    decreases |members|
  {
    if members == [] {
    } else {
      assert (members + [r])[1..] == members[1..] + [r];
      AddTagsLast(AddTag(tags, members[0]), members[1..], r);
    }
  }

  lemma {:induction false} DropTagAbsent(tags: seq<nat>, r: nat)
    requires r !in tags
    ensures DropTag(tags, r) == tags
  {
    if tags != [] { DropTagAbsent(tags[1..], r); }
  }

  /** A call that is granted has its holding. */
  lemma GrantMayResume(w: World, e: Wakeup)
    requires Inv(w) && e.Grant? && GrantIsLive(w, e)
    ensures MayResume(w, e.pid, Success)
  {
    assert WaitOk(w, e.pid);
  }
}
