/** Concrete runs in which a promise about resources fails. */
module ResourceExamples {
  import opened HashHeap
  import opened WaitKeys
  import opened ResourceModel
  import opened ResourceInvariant
  import opened ResourceSteps
  import opened ResourceGrants
  import opened ResourceTheorems
  import opened ResourceProgress
  import opened ResourceRuns
  import opened ResourceRanks
  import opened ResourceService
  import opened ResourceKeys

  const Tracking := Request(false, 0)
  const Fresh := Proc(true, 0, [], Idle)
  const Holder := Proc(true, 0, [0], Idle)

  /** The place, key and entry of the n-th request of the run, all at time 0. */
  function PlaceOf(n: nat): Place { Place(n, 0.0, 0) }
  function KeyOf(n: nat): nat { WaitKey(PlaceOf(n)) }
  function EntryOf(n: nat, p: nat): Tag<nat> { Tag(KeyOf(n), 0, 0.0, p) }
  function OneUnit(p: nat): Holding { Tag(p, 0, 0.0, Stake(1, false)) }

  function WaitFor(n: nat, requested: nat, remaining: nat, entry: Option<Holding>): Proc {
    Proc(true, 0, [0], Waiting([0], KeyOf(n), PlaceOf(n), Tracking, Queued, Take(requested, remaining, false, entry)))
  }

  function OnePool(capacity: nat, holders: Holders, queue: Queue, procs: seq<Proc>, requestSeq: nat): World {
    World([Pool(capacity, capacity, Total(holders), holders, queue)], procs, multiset{}, 0.0, requestSeq)
  }

  ghost predicate Acquires(w: World, p: nat, amount: nat, w': World) {
    var s := Acquire(p, 0, amount, false, Tracking);
    Enabled(w, s) && Next(w, s) == w'
  }

  /** An acquire of one free unit, before anybody holds or waits. */
  lemma TakesAtOnce(capacity: nat, procs: seq<Proc>)
    requires capacity > 0 && |procs| > 0 && procs[0] == Fresh
    ensures Acquires(OnePool(capacity, [], [], procs, 0), 0, 1, OnePool(capacity, [OneUnit(0)], [], procs[0 := Holder], 0))
  {
    var w := OnePool(capacity, [], [], procs, 0);
    assert SetRank(w, 0, 0, 0, false) == w;
    assert Put<Stake>([], OneUnit(0), VictimFirst) == [OneUnit(0)];
    var w1 := TakeUnits(w, 0, 0, 1, Tracking);
    assert Total([OneUnit(0)]) == 1;
    assert AddTag(Fresh.tags, 0) == [0];
    assert w1.pools == [Pool(capacity, capacity, 1, [OneUnit(0)], [])];
    assert w1.procs == procs[0 := Holder];
    assert SignalGuard(w1, 0) == w1;
  }

  /** A first wait on the one pool, when it has no room left. */
  lemma Waits1(capacity: nat, holders: Holders, queue: Queue, procs: seq<Proc>, n: nat, p: nat, call: Call)
    requires p < |procs| && procs[p].priority == 0 && procs[p].alive && call.Take? && !call.preempt
    requires AddTag(procs[p].tags, 0) == [0] && n + 1 <= SEQ_MASK
    ensures Suspend(OnePool(capacity, holders, queue, procs, n), p, [0], Tracking, Unplaced, call) ==
      OnePool(capacity, holders, Put(queue, EntryOf(n + 1, p), WaiterFirst),
              procs[p := WaitFor(n + 1, call.requested, call.remaining, call.entry)], n + 1)
  {
  }

  // ---- The quiet rollback ----

  /** A waits with one of the two units it wants, B behind it for one; A is
      interrupted and gives its unit back in silence: B is never granted it. */
  lemma QuietRollbackLosesGrant() returns (ws: seq<World>, steps: seq<Step>)
    ensures Run(ws, steps) && |steps| == 5 && LosesGrant(ws[4], steps[4], 0)
    ensures !Heeded(ws[5], 0) && Room(ws[5].pools[0]) == 1 && ws[5].pools[0].queue != [] && ws[5].events == multiset{}
  {
    hide Enabled, Next, Initial, Run, Heeded, LosesGrant;
    var interrupt := Other(-2);
    var w0 := OnePool(2, [], [], [Fresh, Fresh, Fresh], 0);
    var w1 := OnePool(2, [OneUnit(0)], [], [Holder, Fresh, Fresh], 0);
    var w2 := OnePool(2, [OneUnit(1), OneUnit(0)], [EntryOf(1, 1)], [Holder, WaitFor(1, 2, 1, None), Fresh], 1);
    var w3 := OnePool(2, [OneUnit(1), OneUnit(0)], [EntryOf(1, 1), EntryOf(2, 2)],
                      [Holder, WaitFor(1, 2, 1, None), WaitFor(2, 1, 1, None)], 2);
    var w4 := Interrupted(w3, 1, interrupt);
    var w5 := OnePool(2, [OneUnit(0)], [EntryOf(2, 2)], [Holder, Fresh, WaitFor(2, 1, 1, None)], 2);
    var s0 := Acquire(0, 0, 1, false, Tracking);
    var s1 := Acquire(1, 0, 2, false, Tracking);
    var s2 := Acquire(2, 0, 1, false, Tracking);
    var s3 := Interrupt(1, interrupt);
    var s4 := Deliver(Notice(1, interrupt));
    TakesAtOnce(2, [Fresh, Fresh, Fresh]);
    PartlyServed();
    QueuesBehind();
    RollsBack(w4, w5);
    Interrupts(w3, 1, interrupt);
    StartsWell(2);
    ws, steps := [w0, w1, w2, w3, w4, w5], [s0, s1, s2, s3, s4];
    FiveSteps(w0, w1, w2, w3, w4, w5, s0, s1, s2, s3, s4) by {
      assert [Fresh, Fresh, Fresh][0 := Holder] == [Holder, Fresh, Fresh];
    }
    UnitIsLost(w4, w5);
  }

  function Interrupted(w: World, p: nat, sig: Signal): World {
    w.(events := w.events + multiset{Notice(p, sig)})
  }

  lemma Interrupts(w: World, p: nat, sig: Signal)
    requires p < |w.procs| && w.requestSeq < SEQ_MASK
    ensures Enabled(w, Interrupt(p, sig)) && Next(w, Interrupt(p, sig)) == Interrupted(w, p, sig)
  {
  }

  lemma StartsWell(capacity: nat)
    ensures Initial(OnePool(capacity, [], [], [Fresh, Fresh, Fresh], 0))
  {
  }

  lemma FiveSteps(w0: World, w1: World, w2: World, w3: World, w4: World, w5: World,
                  s0: Step, s1: Step, s2: Step, s3: Step, s4: Step)
    requires Initial(w0) && Enabled(w0, s0) && w1 == Next(w0, s0) && Enabled(w1, s1) && w2 == Next(w1, s1)
    requires Enabled(w2, s2) && w3 == Next(w2, s2) && Enabled(w3, s3) && w4 == Next(w3, s3) && Enabled(w4, s4) && w5 == Next(w4, s4)
    ensures Run([w0, w1, w2, w3, w4, w5], [s0, s1, s2, s3, s4])
  {
    hide Enabled, Next, Initial;
  }

  lemma UnitIsLost(w4: World, w5: World)
    requires w4 == OnePool(2, [OneUnit(1), OneUnit(0)], [EntryOf(1, 1), EntryOf(2, 2)],
                           [Holder, WaitFor(1, 2, 1, None), WaitFor(2, 1, 1, None)], 2).(events := multiset{} + multiset{Notice(1, Other(-2))})
    requires w5 == OnePool(2, [OneUnit(0)], [EntryOf(2, 2)], [Holder, Fresh, WaitFor(2, 1, 1, None)], 2)
    ensures LosesGrant(w4, Deliver(Notice(1, Other(-2))), 0)
    ensures !Heeded(w5, 0) && Room(w5.pools[0]) == 1 && w5.pools[0].queue != [] && w5.events == multiset{}
  {
    assert Total([OneUnit(0)]) == 1 && Total([OneUnit(1), OneUnit(0)]) == 2;
    assert Hold(w4, 0, 1) == Some(OneUnit(1));
    KeyOrder(PlaceOf(1), PlaceOf(2));
    assert Entry(w4, 0, KeyOf(2)) == Some(EntryOf(2, 2));
  }

  lemma RollsBack(w4: World, w5: World)
    requires w4 == OnePool(2, [OneUnit(1), OneUnit(0)], [EntryOf(1, 1), EntryOf(2, 2)],
                           [Holder, WaitFor(1, 2, 1, None), WaitFor(2, 1, 1, None)], 2).(events := multiset{} + multiset{Notice(1, Other(-2))})
    requires w5 == OnePool(2, [OneUnit(0)], [EntryOf(2, 2)], [Holder, Fresh, WaitFor(2, 1, 1, None)], 2)
    ensures Enabled(w4, Deliver(Notice(1, Other(-2)))) && Next(w4, Deliver(Notice(1, Other(-2)))) == w5
  {
    assert Total([OneUnit(1), OneUnit(0)]) == 2 && Total([OneUnit(0)]) == 1;
    assert w4.events - multiset{Notice(1, Other(-2))} == multiset{};
    var w0 := Awaken(w4.(events := multiset{}), 1);
    assert w0.pools == [Pool(2, 2, 2, [OneUnit(1), OneUnit(0)], [EntryOf(2, 2)])];
    assert w0.procs == [Holder, Holder, WaitFor(2, 1, 1, None)];
    assert SignalGuard(w0, 0) == w0;
    var w1 := GiveBack(w0, 0, 1, 1);
    assert w1.pools == [w5.pools[0]];
    assert Rollback(w0, 1, 0, None) == w5;
  }

  lemma PartlyServed()
    ensures Acquires(OnePool(2, [OneUnit(0)], [], [Holder, Fresh, Fresh], 0), 1, 2,
      OnePool(2, [OneUnit(1), OneUnit(0)], [EntryOf(1, 1)], [Holder, WaitFor(1, 2, 1, None), Fresh], 1))
  {
    var procs := [Holder, Fresh, Fresh];
    var w := OnePool(2, [OneUnit(0)], [], procs, 0);
    assert Total([OneUnit(0)]) == 1 && Total([OneUnit(1), OneUnit(0)]) == 2;
    assert SetRank(w, 0, 1, 0, false) == w;
    assert Put([OneUnit(0)], OneUnit(1), VictimFirst) == [OneUnit(1), OneUnit(0)];
    var w1 := TakeUnits(w, 0, 1, 1, Tracking);
    assert AddTag(Fresh.tags, 0) == [0];
    assert w1.pools == [Pool(2, 2, 2, [OneUnit(1), OneUnit(0)], [])];
    assert w1.procs == procs[1 := Holder];
    Waits1(2, [OneUnit(1), OneUnit(0)], [], procs[1 := Holder], 0, 1, Take(2, 1, false, None));
    assert Put<nat>([], EntryOf(1, 1), WaiterFirst) == [EntryOf(1, 1)];
    assert procs[1 := Holder][1 := WaitFor(1, 2, 1, None)] == [Holder, WaitFor(1, 2, 1, None), Fresh];
  }

  lemma QueuesBehind()
    ensures Acquires(OnePool(2, [OneUnit(1), OneUnit(0)], [EntryOf(1, 1)], [Holder, WaitFor(1, 2, 1, None), Fresh], 1), 2, 1,
      OnePool(2, [OneUnit(1), OneUnit(0)], [EntryOf(1, 1), EntryOf(2, 2)],
              [Holder, WaitFor(1, 2, 1, None), WaitFor(2, 1, 1, None)], 2))
  {
    var procs := [Holder, WaitFor(1, 2, 1, None), Fresh];
    var w := OnePool(2, [OneUnit(1), OneUnit(0)], [EntryOf(1, 1)], procs, 1);
    assert Total([OneUnit(0)]) == 1 && Total([OneUnit(1), OneUnit(0)]) == 2;
    assert SetRank(w, 0, 2, 0, false) == w;
    Waits1(2, [OneUnit(1), OneUnit(0)], [EntryOf(1, 1)], procs, 1, 2, Take(1, 1, false, None));
    KeyOrder(PlaceOf(1), PlaceOf(2));
    assert Put([EntryOf(1, 1)], EntryOf(2, 2), WaiterFirst) == [EntryOf(1, 1), EntryOf(2, 2)];
    assert procs[2 := WaitFor(2, 1, 1, None)] == [Holder, WaitFor(1, 2, 1, None), WaitFor(2, 1, 1, None)];
  }

  // ---- A newcomer overtakes a granted request ----

  /** The first request of the run, for one unit, in its (e + 1)-st wait. */
  function Retry(e: nat): Place { Place(1, 0.0, e) }
  function RetryEntry(e: nat): Tag<nat> { Tag(WaitKey(Retry(e)), 0, 0.0, 1) }

  function Retrying(e: nat, status: Status): Proc {
    Proc(true, 0, [0], Waiting([0], WaitKey(Retry(e)), Retry(e), Tracking, status, Take(1, 1, false, None)))
  }

  /** B queues for the only unit, its holder releases it, and before B wakes C
      asks for it with the same rank and gets it: B, first in line, waits on.
      The documentation says that nothing bypasses a waiting request. */
  lemma NewcomerOvertakes() returns (ws: seq<World>, steps: seq<Step>)
    ensures Run(ws, steps) && |steps| == 5
    ensures steps[1] == Acquire(1, 0, 1, false, Tracking) && steps[3] == Acquire(2, 0, 1, false, Tracking)
    ensures |ws[2].procs| == |ws[3].procs| == |ws[5].procs| == 3
    ensures ws[2].procs[1].frame.Waiting? && ws[2].procs[1].frame.status.Queued?
    ensures ws[3].procs[1].frame.Waiting? && ws[3].procs[1].frame.status == Granted(0)
    ensures RankWhileWaiting(ws[3].procs[1]) == PassRank(ws[3], steps[3], 2)
    ensures Enabled(ws[3], steps[3]) && Overtakes(ws[3], steps[3], 2, 1, 0)
    ensures ws[5].procs[1].frame.Waiting? && Held(ws[5], 0, 1) == 0
    ensures ws[3].procs[2].frame.Idle? && Held(ws[5], 0, 2) == 1
  {
    hide Enabled, Next, Initial, Run;
    var key := KeyOf(1);
    var w0 := OnePool(1, [], [], [Fresh, Fresh, Fresh], 0);
    var w1 := OnePool(1, [OneUnit(0)], [], [Holder, Fresh, Fresh], 0);
    var w2 := OnePool(1, [OneUnit(0)], [EntryOf(1, 1)], [Holder, WaitFor(1, 1, 1, None), Fresh], 1);
    var w3 := OnePool(1, [], [], [Fresh, Retrying(0, Granted(0)), Fresh], 1).(events := multiset{Grant(1, 0, key)});
    var w4 := OnePool(1, [OneUnit(2)], [], [Fresh, Retrying(0, Granted(0)), Holder], 1).(events := multiset{Grant(1, 0, key)});
    var w5 := OnePool(1, [OneUnit(2)], [RetryEntry(1)], [Fresh, Retrying(1, Queued), Holder], 1);
    TakesAtOnce(1, [Fresh, Fresh, Fresh]);
    QueuesForIt();
    Releases(0, w2, w3);
    StepsIn(0, w3, w4);
    WaitsAgain(w4, w5);
    StartsWell(1);
    var s1, s3 := Acquire(1, 0, 1, false, Tracking), Acquire(2, 0, 1, false, Tracking);
    ws, steps := [w0, w1, w2, w3, w4, w5], [Acquire(0, 0, 1, false, Tracking), s1, ReleaseUnits(0, 0, 1), s3, Deliver(Grant(1, 0, key))];
    FiveSteps(w0, w1, w2, w3, w4, w5, steps[0], s1, steps[2], s3, steps[4]) by {
      assert [Fresh, Fresh, Fresh][0 := Holder] == [Holder, Fresh, Fresh];
    }
  }

  lemma QueuesForIt()
    ensures Acquires(OnePool(1, [OneUnit(0)], [], [Holder, Fresh, Fresh], 0), 1, 1,
      OnePool(1, [OneUnit(0)], [EntryOf(1, 1)], [Holder, WaitFor(1, 1, 1, None), Fresh], 1))
  {
    var procs := [Holder, Fresh, Fresh];
    var w := OnePool(1, [OneUnit(0)], [], procs, 0);
    assert Total([OneUnit(0)]) == 1;
    assert SetRank(w, 0, 1, 0, false) == w;
    Waits1(1, [OneUnit(0)], [], procs, 0, 1, Take(1, 1, false, None));
    assert Put<nat>([], EntryOf(1, 1), WaiterFirst) == [EntryOf(1, 1)];
    assert procs[1 := WaitFor(1, 1, 1, None)] == [Holder, WaitFor(1, 1, 1, None), Fresh];
  }

  lemma Releases(e: nat, w2: World, w3: World)
    requires w2 == OnePool(1, [OneUnit(0)], [RetryEntry(e)], [Holder, Retrying(e, Queued), Fresh], 1)
    requires w3 == OnePool(1, [], [], [Fresh, Retrying(e, Granted(0)), Fresh], 1).(events := multiset{Grant(1, 0, WaitKey(Retry(e)))})
    ensures Enabled(w2, ReleaseUnits(0, 0, 1)) && Next(w2, ReleaseUnits(0, 0, 1)) == w3
  {
    assert Total([OneUnit(0)]) == 1;
    assert DropTag([0], 0) == [];
    var g := SettleTag(GiveBack(w2, 0, 0, 1), 0, 0);
    assert g.pools == [Pool(1, 1, 0, [], [RetryEntry(e)])];
    assert g.procs == [Fresh, Retrying(e, Queued), Fresh];
    assert Delete([RetryEntry(e)], WaitKey(Retry(e))) == [];
    assert Withdraw(g, [0], WaitKey(Retry(e))).pools == [Pool(1, 1, 0, [], [])];
    assert FirstListing([0], 0) == 0;
  }

  lemma StepsIn(e: nat, w3: World, w4: World)
    requires w3 == OnePool(1, [], [], [Fresh, Retrying(e, Granted(0)), Fresh], 1).(events := multiset{Grant(1, 0, WaitKey(Retry(e)))})
    requires w4 == OnePool(1, [OneUnit(2)], [], [Fresh, Retrying(e, Granted(0)), Holder], 1).(events := multiset{Grant(1, 0, WaitKey(Retry(e)))})
    ensures Acquires(w3, 2, 1, w4)
  {
    assert SetRank(w3, 0, 2, 0, false) == w3;
    assert Put<Stake>([], OneUnit(2), VictimFirst) == [OneUnit(2)];
    assert AddTag(Fresh.tags, 0) == [0] && Total([OneUnit(2)]) == 1;
    var w1 := TakeUnits(w3, 0, 2, 1, Tracking);
    assert w1.pools == [Pool(1, 1, 1, [OneUnit(2)], [])];
    assert w1.procs == [Fresh, Retrying(e, Granted(0)), Holder];
  }

  lemma WaitsAgain(w4: World, w5: World)
    requires w4 == OnePool(1, [OneUnit(2)], [], [Fresh, Retrying(0, Granted(0)), Holder], 1).(events := multiset{Grant(1, 0, KeyOf(1))})
    requires w5 == OnePool(1, [OneUnit(2)], [RetryEntry(1)], [Fresh, Retrying(1, Queued), Holder], 1)
    ensures Enabled(w4, Deliver(Grant(1, 0, KeyOf(1)))) && Next(w4, Deliver(Grant(1, 0, KeyOf(1)))) == w5
  {
    var e := Grant(1, 0, KeyOf(1));
    assert Total([OneUnit(2)]) == 1 && w4.events - multiset{e} == multiset{};
    Retries(w4.(events := multiset{}), w5, 0, Granted(0));
  }

  function LaterEpisode(e: nat): nat { if e < EPISODE_MAX then e + 1 else e }

  /** B is resumed with success though the only unit is taken, and waits again. */
  lemma Retries(w: World, w': World, e: nat, status: Status)
    requires |w.pools| == 1 && |w.procs| == 3 && w.procs[1] == Retrying(e, status) && w.now == 0.0 && w.requestSeq == 1
    requires w.pools[0] == Pool(1, 1, 1, w.pools[0].holders, if status.Queued? then [RetryEntry(e)] else [])
    requires w' == w.(pools := [w.pools[0].(queue := [RetryEntry(LaterEpisode(e))])],
                      procs := w.procs[1 := Retrying(LaterEpisode(e), Queued)])
    ensures Resume(w, 1, Success, false) == (w', Suspended)
  {
    assert Delete([RetryEntry(e)], WaitKey(Retry(e))) == [];
    var w0 := Awaken(w, 1);
    assert w0.pools == [w.pools[0].(queue := [])];
    assert w0.procs == w.procs[1 := Holder];
    assert Put<nat>([], RetryEntry(LaterEpisode(e)), WaiterFirst) == [RetryEntry(LaterEpisode(e))];
    assert AddTags([0], [0]) == [0] by { assert AddTags([0], [0][1..]) == [0]; }
    var w1 := Suspend(w0, 1, [0], Tracking, Retry(e), Take(1, 1, false, None));
    assert w1.pools == w'.pools;
    assert w1.procs == w'.procs;
  }

  // ---- A request that runs out of episodes ----

  lemma RunExtends(ws: seq<World>, steps: seq<Step>, s: Step)
    requires Run(ws, steps) && Enabled(ws[|ws| - 1], s)
    ensures Run(ws + [Next(ws[|ws| - 1], s)], steps + [s])
  {
    hide Enabled, Next, Initial;
    var ws', steps' := ws + [Next(ws[|ws| - 1], s)], steps + [s];
    forall i | 0 <= i < |steps'| ensures Enabled(ws'[i], steps'[i]) && ws'[i + 1] == Next(ws'[i], steps'[i]) {
      if i < |steps| { RunStep(ws, steps, i); }
    }
  }

  function InRetry(e: nat): World {
    OnePool(1, [OneUnit(0)], [RetryEntry(e)], [Holder, Retrying(e, Queued), Fresh], 1)
  }

  lemma TimesOut(e: nat)
    requires e < EPISODE_MAX
    ensures Enabled(InRetry(e), Timer(1, Success)) && Next(InRetry(e), Timer(1, Success)) == InRetry(e + 1)
  {
    assert Total([OneUnit(0)]) == 1;
    assert InRetry(e + 1).procs == InRetry(e).procs[1 := Retrying(e + 1, Queued)];
    Retries(InRetry(e), InRetry(e + 1), e, Queued);
  }

  /** A run in which B has waited e + 1 times for the unit that A holds. */
  lemma {:induction false} RetriesOften(e: nat) returns (ws: seq<World>, steps: seq<Step>)
    requires e <= EPISODE_MAX
    ensures Run(ws, steps) && ws[|ws| - 1] == InRetry(e)
  {
    hide Enabled, Next, Initial, Run, Acquires;
    if e == 0 {
      var w0 := OnePool(1, [], [], [Fresh, Fresh, Fresh], 0);
      TakesAtOnce(1, [Fresh, Fresh, Fresh]);
      assert [Fresh, Fresh, Fresh][0 := Holder] == [Holder, Fresh, Fresh];
      QueuesForIt();
      StartsWell(1);
      ws, steps := [w0], [];
      assert Run(ws, steps) by { NoSteps(w0); }
      ws, steps := Acquired(ws, steps, 0, OnePool(1, [OneUnit(0)], [], [Holder, Fresh, Fresh], 0));
      ws, steps := Acquired(ws, steps, 1, InRetry(0));
    } else {
      ws, steps := RetriesOften(e - 1);
      TimesOut(e - 1);
      ws, steps := Extended(ws, steps, Timer(1, Success), InRetry(e));
    }
  }

  lemma NoSteps(w: World)
    requires Initial(w)
    ensures Run([w], [])
  {
  }

  lemma Extended(ws0: seq<World>, steps0: seq<Step>, s: Step, w: World) returns (ws: seq<World>, steps: seq<Step>)
    requires Run(ws0, steps0) && Enabled(ws0[|ws0| - 1], s) && Next(ws0[|ws0| - 1], s) == w
    ensures Run(ws, steps) && ws == ws0 + [w] && steps == steps0 + [s] && ws[|ws| - 1] == w && |steps| > 0 && steps[|steps| - 1] == s
    ensures |ws| > 1 && ws[|ws| - 2] == ws0[|ws0| - 1]
  {
    hide Enabled, Next;
    RunExtends(ws0, steps0, s);
    ws, steps := ws0 + [w], steps0 + [s];
  }

  lemma Acquired(ws0: seq<World>, steps0: seq<Step>, p: nat, w: World) returns (ws: seq<World>, steps: seq<Step>)
    requires Run(ws0, steps0) && Acquires(ws0[|ws0| - 1], p, 1, w)
    ensures Run(ws, steps) && ws[|ws| - 1] == w
  {
    ws, steps := Extended(ws0, steps0, Acquire(p, 0, 1, false, Tracking), w);
  }

  /** B is in the last wait that has a key of its own when it is granted the
      unit, C takes it, and a timer resumes B: it waits again with the same
      key, and the grant of the wait before is taken for one of this wait. */
  lemma KeyIsReusedAtLast() returns (ws: seq<World>, steps: seq<Step>)
    ensures Run(ws, steps) && |steps| > 0 && |ws| == |steps| + 1
    ensures steps[|steps| - 1] == Timer(1, Success) && ReusesKey(ws[|steps| - 1], steps[|steps| - 1], 1)
    ensures |ws[|steps|].procs| == 3 && ws[|steps|].procs[1].frame.Waiting?
    ensures var w := ws[|steps|]; var f := w.procs[1].frame; var e := Grant(1, 0, f.key);
      f.status.Queued? && f.place.episode == EPISODE_MAX && e in w.events && GrantIsLive(w, e)
  {
    hide Enabled, Next, Initial, Run, Acquires;
    var e := EPISODE_MAX;
    var event := Grant(1, 0, WaitKey(Retry(e)));
    var w3 := OnePool(1, [], [], [Fresh, Retrying(e, Granted(0)), Fresh], 1).(events := multiset{event});
    var w4 := OnePool(1, [OneUnit(2)], [], [Fresh, Retrying(e, Granted(0)), Holder], 1).(events := multiset{event});
    var w5 := OnePool(1, [OneUnit(2)], [RetryEntry(e)], [Fresh, Retrying(e, Queued), Holder], 1).(events := multiset{event});
    ws, steps := RetriesOften(e);
    Releases(e, InRetry(e), w3);
    ws, steps := Extended(ws, steps, ReleaseUnits(0, 0, 1), w3);
    StepsIn(e, w3, w4);
    ws, steps := Acquired(ws, steps, 2, w4);
    SameKeyAgain(w4, w5);
    ws, steps := Extended(ws, steps, Timer(1, Success), w5);
    assert |ws| == |steps| + 1 by { RunLengths(ws, steps); }
  }

  lemma RunLengths(ws: seq<World>, steps: seq<Step>)
    requires Run(ws, steps)
    ensures |ws| == |steps| + 1
  {
  }

  lemma SameKeyAgain(w4: World, w5: World)
    requires w4 == OnePool(1, [OneUnit(2)], [], [Fresh, Retrying(EPISODE_MAX, Granted(0)), Holder], 1)
                   .(events := multiset{Grant(1, 0, WaitKey(Retry(EPISODE_MAX)))})
    requires w5 == OnePool(1, [OneUnit(2)], [RetryEntry(EPISODE_MAX)], [Fresh, Retrying(EPISODE_MAX, Queued), Holder], 1)
                   .(events := multiset{Grant(1, 0, WaitKey(Retry(EPISODE_MAX)))})
    ensures Enabled(w4, Timer(1, Success)) && Next(w4, Timer(1, Success)) == w5 && ReusesKey(w4, Timer(1, Success), 1)
  {
    assert Total([OneUnit(2)]) == 1;
    assert w5.procs == w4.procs[1 := Retrying(EPISODE_MAX, Queued)];
    Retries(w4, w5, EPISODE_MAX, Granted(0));
    assert Grant(1, 0, WaitKey(Retry(EPISODE_MAX))) in w4.events;
  }

  // ---- A preempting set_capacity that stops above the new capacity ----

  function TwoUnits(p: nat): Holding { Tag(p, 0, 0.0, Stake(2, false)) }

  function Lowered(capacity: nat): World {
    World([Pool(capacity, 2, 2, [TwoUnits(0)], [])], [Holder], multiset{}, 0.0, 0)
  }

  lemma TakesBoth()
    ensures Acquires(OnePool(2, [], [], [Fresh], 0), 0, 2, OnePool(2, [TwoUnits(0)], [], [Holder], 0))
    ensures OnePool(2, [TwoUnits(0)], [], [Holder], 0) == Lowered(2)
  {
    var w := OnePool(2, [], [], [Fresh], 0);
    assert SetRank(w, 0, 0, 0, false) == w;
    assert Put<Stake>([], TwoUnits(0), VictimFirst) == [TwoUnits(0)];
    assert Total([TwoUnits(0)]) == 2 && AddTag(Fresh.tags, 0) == [0];
    var w1 := TakeUnits(w, 0, 0, 2, Tracking);
    assert w1.pools == [Pool(2, 2, 2, [TwoUnits(0)], [])] && w1.procs == [Holder];
    assert SignalGuard(w1, 0) == w1;
  }

  /** A process that holds both units lowers the capacity to 1: it is spared,
      and 2 units stay in use. */
  lemma CallerStaysAbove() returns (ws: seq<World>, steps: seq<Step>)
    ensures Run(ws, steps) && |steps| == 2 && steps[1] == ChangeCapacity(Some(0), 0, 1, true)
    ensures |ws[2].pools| == 1 && ws[2].pools[0].capacity == 1 && ws[2].pools[0].inUse == 2
    ensures Held(ws[1], 0, 0) == 2
  {
    hide Enabled, Next, Initial;
    var w0 := OnePool(2, [], [], [Fresh], 0);
    var s0, s1 := Acquire(0, 0, 2, false, Tracking), ChangeCapacity(Some(0), 0, 1, true);
    TakesBoth();
    assert Initial(w0) by { StartsWith(2); }
    LowersItsOwn();
    ws, steps := [w0, Lowered(2), Lowered(1)], [s0, s1];
  }

  lemma LowersItsOwn()
    ensures Enabled(Lowered(2), ChangeCapacity(Some(0), 0, 1, true))
    ensures Next(Lowered(2), ChangeCapacity(Some(0), 0, 1, true)) == Lowered(1)
  {
    assert Delete([TwoUnits(0)], 0) == [];
    var w1 := SetPool(Lowered(2), 0, Lowered(2).pools[0].(capacity := 1));
    assert w1.pools == Lowered(1).pools && ShedOthers(w1, Some(0), 0) == w1;
  }

  lemma LowersTwice()
    ensures Enabled(Lowered(2), ChangeCapacity(None, 0, 1, false))
    ensures Next(Lowered(2), ChangeCapacity(None, 0, 1, false)) == Lowered(1)
    ensures Enabled(Lowered(1), ChangeCapacity(None, 0, 1, true))
    ensures Next(Lowered(1), ChangeCapacity(None, 0, 1, true)) == Lowered(1)
  {
    var w1 := SetPool(Lowered(2), 0, Lowered(2).pools[0].(capacity := 1));
    assert w1.pools == Lowered(1).pools;
  }

  lemma StartsWith(capacity: nat)
    ensures Initial(OnePool(capacity, [], [], [Fresh], 0))
  {
  }

  /** The capacity has been lowered to 1 with 2 units in use left to finish;
      setting it to 1 again, now with preemption, returns at once. */
  lemma SameCapacityStaysAbove() returns (ws: seq<World>, steps: seq<Step>)
    ensures Run(ws, steps) && |steps| == 3 && steps[2] == ChangeCapacity(None, 0, 1, true)
    ensures |ws[2].pools| == |ws[3].pools| == 1 && ws[2].pools[0].capacity == 1 && ws[3].pools[0].inUse == 2
  {
    hide Enabled, Next, Initial;
    var w0 := OnePool(2, [], [], [Fresh], 0);
    var s0, s1, s2 := Acquire(0, 0, 2, false, Tracking), ChangeCapacity(None, 0, 1, false), ChangeCapacity(None, 0, 1, true);
    TakesBoth();
    assert Initial(w0) by { StartsWith(2); }
    LowersTwice();
    ws, steps := [w0, Lowered(2), Lowered(1), Lowered(1)], [s0, s1, s2];
  }

  // ---- An interrupted call brings back a stale rank ----

  /** A holds a unit that follows its priority and waits for one more; its
      priority is raised, and then it is interrupted. The rollback restores the
      rank the holding began with, so it no longer follows the priority. */
  lemma RollbackRestoresStaleRank() returns (ws: seq<World>, steps: seq<Step>)
    ensures Run(ws, steps) && |steps| == 5
    ensures |ws[5].procs| == 1 && ws[5].procs[0].priority == 5 && ws[5].procs[0].frame.Idle?
    ensures Hold(ws[5], 0, 0) == Some(Tag(0, 0, 0.0, Stake(1, false)))
    ensures |ws[4].procs| == 1 && Tracks(ws[4], 0) && RestoresStaleRank(ws[4], steps[4], 0) && !Tracks(ws[5], 0)
  {
    hide Enabled, Next, Initial, Run;
    var w0 := OnePool(1, [], [], [Fresh], 0);
    var w1 := OnePool(1, [OneUnit(0)], [], [Holder], 0);
    var w2 := OnePool(1, [OneUnit(0)], [EntryOf(1, 0)], [WaitFor(1, 1, 1, Some(OneUnit(0)))], 1);
    var w3 := OnePool(1, [Tag(0, 5, 0.0, Stake(1, false))], [Tag(KeyOf(1), 5, 0.0, 0)], [WaitFor(1, 1, 1, Some(OneUnit(0))).(priority := 5)], 1);
    var w4 := Interrupted(w3, 0, Other(-2));
    var w5 := OnePool(1, [OneUnit(0)], [], [Holder.(priority := 5)], 1);
    TakesAtOnce(1, [Fresh]);
    WantsMore(w1, w2);
    Raises(w2, w3);
    Interrupts(w3, 0, Other(-2));
    GoesBack(w4, w5);
    assert Initial(w0) by { StartsWith(1); }
    ws := [w0, w1, w2, w3, w4, w5];
    steps := [Acquire(0, 0, 1, false, Tracking), Acquire(0, 0, 1, false, Tracking), ChangePriority(0, 5),
              Interrupt(0, Other(-2)), Deliver(Notice(0, Other(-2)))];
    FiveSteps(w0, w1, w2, w3, w4, w5, steps[0], steps[1], steps[2], steps[3], steps[4]) by {
      assert [Fresh][0 := Holder] == [Holder];
    }
  }

  lemma WantsMore(w1: World, w2: World)
    requires w1 == OnePool(1, [OneUnit(0)], [], [Holder], 0)
    requires w2 == OnePool(1, [OneUnit(0)], [EntryOf(1, 0)], [WaitFor(1, 1, 1, Some(OneUnit(0)))], 1)
    ensures Acquires(w1, 0, 1, w2)
  {
    assert Total([OneUnit(0)]) == 1;
    assert Put([OneUnit(0)], OneUnit(0), VictimFirst) == [OneUnit(0)];
    assert SetRank(w1, 0, 0, 0, false).pools == w1.pools;
    Waits1(1, [OneUnit(0)], [], [Holder], 0, 0, Take(1, 1, false, Some(OneUnit(0))));
    assert Put<nat>([], EntryOf(1, 0), WaiterFirst) == [EntryOf(1, 0)];
    assert [Holder][0 := WaitFor(1, 1, 1, Some(OneUnit(0)))] == [WaitFor(1, 1, 1, Some(OneUnit(0)))];
  }

  lemma Raises(w2: World, w3: World)
    requires w2 == OnePool(1, [OneUnit(0)], [EntryOf(1, 0)], [WaitFor(1, 1, 1, Some(OneUnit(0)))], 1)
    requires w3 == OnePool(1, [Tag(0, 5, 0.0, Stake(1, false))], [Tag(KeyOf(1), 5, 0.0, 0)],
                           [WaitFor(1, 1, 1, Some(OneUnit(0))).(priority := 5)], 1)
    ensures Enabled(w2, ChangePriority(0, 5)) && Next(w2, ChangePriority(0, 5)) == w3
  {
    var h, h' := OneUnit(0), Tag(0, 5, 0.0, Stake(1, false));
    var e, e' := EntryOf(1, 0), Tag(KeyOf(1), 5, 0.0, 0);
    assert Total([h]) == 1 && Total([h']) == 1;
    assert Put([e], e', WaiterFirst) == [e'] && Put([h], h', VictimFirst) == [h'];
    var a := SetProc(w2, 0, w2.procs[0].(priority := 5));
    var b := RerankEntries(a, 0, 5);
    assert b.pools == [Pool(1, 1, 1, [h], [e'])];
    assert b.procs == w3.procs;
    assert SetRank(b, 0, 0, 5, false).pools == [Pool(1, 1, 1, [h'], [e'])];
    var c := Reprioritize(b, 0, 0, 5);
    assert c.pools == [Pool(1, 1, 1, [h'], [e'])];
    assert ReprioritizeAll(b, 0, [0], 5) == ReprioritizeAll(c, 0, [], 5) by { assert [0][1..] == []; }
  }

  lemma GoesBack(w4: World, w5: World)
    requires w4 == Interrupted(OnePool(1, [Tag(0, 5, 0.0, Stake(1, false))], [Tag(KeyOf(1), 5, 0.0, 0)],
                                       [WaitFor(1, 1, 1, Some(OneUnit(0))).(priority := 5)], 1), 0, Other(-2))
    requires w5 == OnePool(1, [OneUnit(0)], [], [Holder.(priority := 5)], 1)
    ensures Enabled(w4, Deliver(Notice(0, Other(-2)))) && Next(w4, Deliver(Notice(0, Other(-2)))) == w5
  {
    var h' := Tag(0, 5, 0.0, Stake(1, false));
    assert Total([h']) == 1 && Total([OneUnit(0)]) == 1;
    assert Put([h'], h', VictimFirst) == [h'] && Put([h'], OneUnit(0), VictimFirst) == [OneUnit(0)];
    assert Delete([Tag(KeyOf(1), 5, 0.0, 0)], KeyOf(1)) == [];
    var w0 := Awaken(w4.(events := multiset{}), 0);
    assert w0.pools == [Pool(1, 1, 1, [h'], [])];
    assert w0.procs == [Holder.(priority := 5)];
    var w1 := GiveBack(w0, 0, 0, 0);
    assert w1.pools == w0.pools;
    var w2 := SetRank(w1, 0, 0, 0, false);
    assert w2.pools == [Pool(1, 1, 1, [OneUnit(0)], [])];
  }
}
