/** Who is served, and at whose cost: exactly when a process takes units, and
    in which order it throws others out to get them. */
module ResourceService {
  import opened HashHeap
  import opened WaitKeys
  import opened ResourceModel
  import opened ResourceInvariant
  import opened ResourceSteps
  import opened ResourceRuns
  import opened ResourceLoops
  import opened ResourceTheorems

  function Positive(n: int): nat { if n > 0 then n else 0 }

  /** The pass of a claim for `need` units of r by p, at a rank. Throwing out
      the front k of the other holders, in the order of `holder_order`, gives
      the units that are taken: each of the k is strictly below the rank and
      needed, and was to go before all who stay; the rest keep what they hold,
      and if that is not enough no holder below the rank is left. A claim that
      may not preempt throws out nobody. */
  ghost predicate ServedInOrder(w: World, w': World, p: nat, r: nat, rank: int, need: nat, preempt: bool, k: nat)
    requires r < |w.pools| == |w'.pools|
  {
    var h := Others(w.pools[r].holders, Some(p));
    var free := w.pools[r].capacity - w.pools[r].inUse;
    && k <= |h| && (!preempt ==> k == 0)
    && (forall i :: 0 <= i < k ==> h[i].rank < rank && Hold(w', r, h[i].key).None?)
    && (forall i :: k <= i < |h| ==> Hold(w', r, h[i].key) == Some(h[i]))
    && (forall j :: 0 <= j < k ==> free + Total(h[..j]) < need)
    && Held(w', r, p) == Held(w, r, p) + Min(need, Positive(free + Total(h[..k])))
    && (preempt && free + Total(h[..k]) < need ==> forall i :: k <= i < |h| ==> h[i].rank >= rank)
    && VictimsFirst(w, w', r, Some(p))
  }

  // ---- One pass ----

  /** The holders other than p, when the first k are not p. */
  lemma {:induction false} OthersFront(h: Holders, p: nat, k: nat)
    requires k <= |h| && forall i :: 0 <= i < k ==> h[i].key != p
    ensures Delete(h, p) == h[..k] + Delete(h[k..], p)
  {
    if k == 0 {
      assert h[0..] == h;
    } else {
      OthersFront(h[1..], p, k - 1);
      assert h[1..][k - 1..] == h[k..] && [h[0]] + h[1..][..k - 1] == h[..k];
    }
  }

  ghost predicate InTail(h: Holders, k: nat, t: Holding) { exists j :: k <= j < |h| && h[j] == t }

  /** As OthersFront, for two lists d = h[..k] + e. */
  lemma FrontSplit(h: Holders, d: Holders, e: Holders, k: nat)
    requires k <= |h| && d == h[..k] + e && forall i :: 0 <= i < |e| ==> e[i] in h[k..]
    ensures k <= |d| && (forall j :: 0 <= j <= k ==> d[..j] == h[..j]) && (forall i :: 0 <= i < k ==> d[i] == h[i])
    ensures forall i :: k <= i < |d| ==> InTail(h, k, d[i])
  {
    forall j | 0 <= j <= k ensures d[..j] == h[..j] {
      assert forall i :: 0 <= i < j ==> d[i] == h[i];
    }
    forall i | k <= i < |d| ensures InTail(h, k, d[i]) {
      assert d[i] == e[i - k];
      var j :| 0 <= j < |h[k..]| && h[k..][j] == d[i];
      assert h[k + j] == d[i];
    }
  }

  /** Preempting, when nothing is free. */
  lemma PreemptServes(w: World, p: nat, r: nat, rem: nat, rq: Request, slack: seq<nat>) returns (k: nat)
    requires Claiming(w, p, r, rq, slack) && rem > 0
    ensures ServedInOrder(w, PreemptFor(w, p, r, rem, rq).0, p, r, RequestRank(rq, w.procs[p]), rem, true, k)
  {
    hide PreemptFor, Running, HeapOk, Total, Find, Delete, OthersStandBy, SameRunner, Hold;
    k := PreemptionOrder(w, p, r, rem, rq, slack);
    var h := w.pools[r].holders;
    OthersFront(h, p, k);
    DeleteMembers(h[k..], p);
    FrontSplit(h, Delete(h, p), Delete(h[k..], p), k);
    PreemptKeeps(w, p, r, rem, rq, slack);
    OthersHold(w, p, r, slack);
  }

  ghost predicate OthersKeepHolding(w: World, w': World, r: nat, p: nat) {
    forall z: nat :: z != p ==> Hold(w', r, z) == Hold(w, r, z)
  }

  /** What is free goes first; the others are as they were. */
  lemma ServedAfterTake(w: World, w1: World, w2: World, p: nat, r: nat, rank: int, need: nat, n: nat, preempt: bool, k: nat)
    requires r < |w.pools| == |w1.pools| == |w2.pools| && n <= need
    requires Others(w1.pools[r].holders, Some(p)) == Others(w.pools[r].holders, Some(p))
    requires w1.pools[r].inUse == w.pools[r].inUse + n && w1.pools[r].capacity == w.pools[r].capacity
    requires w.pools[r].inUse + n <= w.pools[r].capacity || n == 0
    requires Held(w1, r, p) == Held(w, r, p) + n
    requires ServedInOrder(w1, w2, p, r, rank, need - n, preempt, k) && Total(Others(w.pools[r].holders, Some(p))[..k]) >= 0
    requires OthersKeepHolding(w, w1, r, p)
    ensures ServedInOrder(w, w2, p, r, rank, need, preempt, k)
  {
    hide Others, Hold;
  }

  /** A pass ends with a signal or a wait, which change no holding. */
  lemma ServedAtEnd(w: World, w2: World, w': World, p: nat, r: nat, rank: int, need: nat, preempt: bool, k: nat)
    requires r < |w.pools| == |w2.pools| == |w'.pools| && ServedInOrder(w, w2, p, r, rank, need, preempt, k)
    requires forall z: nat :: Hold(w', r, z) == Hold(w2, r, z)
    ensures ServedInOrder(w, w', p, r, rank, need, preempt, k)
  {
    hide Others;
  }

  lemma {:induction false} TotalPositive(h: Holders)
    requires forall i :: 0 <= i < |h| ==> h[i].item.amount > 0
    ensures Total(h) >= 0
  {
    if h != [] { TotalPositive(h[1..]); }
  }

  lemma OthersHold(w: World, p: nat, r: nat, slack: seq<nat>)
    requires Running(w, p, slack) && r < |w.pools|
    ensures var h := Others(w.pools[r].holders, Some(p));
      && HeapOk(h, VictimFirst)
      && (forall z: nat :: Find(h, z) == if z == p then None else Hold(w, r, z))
      && (forall i :: 0 <= i < |h| ==> h[i].item.amount > 0 && h[i].key != p && Hold(w, r, h[i].key) == Some(h[i]))
      && (forall k :: 0 <= k <= |h| ==> Total(h[..k]) >= 0)
  {
    var h := Others(w.pools[r].holders, Some(p));
    PoolIsOkIn(w, r, p, slack);
    DeleteOk(w.pools[r].holders, p, VictimFirst);
    forall z: nat ensures Find(h, z) == if z == p then None else Hold(w, r, z) { FindDelete(w.pools[r].holders, p, z); }
    forall i | 0 <= i < |h| ensures h[i].item.amount > 0 && h[i].key != p && Hold(w, r, h[i].key) == Some(h[i]) {
      FindAt(h, i);
    }
    forall k | 0 <= k <= |h| ensures Total(h[..k]) >= 0 { TotalPositive(h[..k]); }
  }

  /** The caller's own holding makes no difference to the others. */
  lemma SameOthers(w: World, w': World, p: nat, r: nat, slack: seq<nat>)
    requires Running(w, p, slack) && Running(w', p, slack) && r < |w.pools| == |w'.pools|
    requires forall z: nat :: z != p ==> Hold(w', r, z) == Hold(w, r, z)
    ensures Others(w'.pools[r].holders, Some(p)) == Others(w.pools[r].holders, Some(p))
  {
    OthersHold(w, p, r, slack);
    OthersHold(w', p, r, slack);
    hide Others, Hold, Running;
    SameHolders(Others(w'.pools[r].holders, Some(p)), Others(w.pools[r].holders, Some(p)));
  }

  /** Nothing is taken, and nobody is thrown out. */
  lemma ServedNothing(w: World, p: nat, r: nat, rank: int, need: nat, preempt: bool, slack: seq<nat>)
    requires Running(w, p, slack) && r < |w.pools|
    requires if need == 0 then w.pools[r].inUse <= w.pools[r].capacity else !preempt && Room(w.pools[r]) == 0
    ensures ServedInOrder(w, w, p, r, rank, need, preempt, 0)
  {
    OthersHold(w, p, r, slack);
    hide Others, Running;
  }

  /** The first share, what is free. */
  lemma FreeShare(w: World, p: nat, r: nat, rq: Request, call: Call)
    requires Running(w, p, [r]) && p < |w.procs| && r < |w.pools| && ClaimOk(w, p, r, rq, call) && w.procs[p].alive && w.procs[p].frame.Idle?
    ensures var n := Min(Room(w.pools[r]), call.remaining); var w1 := if n > 0 then TakeUnits(w, r, p, n, rq) else w;
      && Running(w1, p, [r]) && |w1.pools| == |w.pools| && SameRunner(w, w1, p)
      && w1.pools[r].inUse == w.pools[r].inUse + n && w1.pools[r].capacity == w.pools[r].capacity
      && Others(w1.pools[r].holders, Some(p)) == Others(w.pools[r].holders, Some(p))
      && OthersKeepHolding(w, w1, r, p)
      && Held(w1, r, p) == Held(w, r, p) + n && (n > 0 ==> w1.pools[r].inUse <= w1.pools[r].capacity)
      && (Hold(w1, r, p).Some? ==> Hold(w1, r, p).value.rank == RequestRank(rq, w.procs[p]))
  {
    hide TakeUnits, Running, Others;
    var n := Min(Room(w.pools[r]), call.remaining);
    if n > 0 {
      TakeKeeps(w, r, p, n, rq, [r]);
      SameOthers(w, TakeUnits(w, r, p, n, rq), p, r, [r]);
    }
  }

  /** One pass of acquire_inner's loop serves the claim in order. */
  lemma AttemptServes(w: World, p: nat, r: nat, rq: Request, place: Place, call: Call) returns (k: nat)
    requires Running(w, p, [r]) && p < |w.procs| && r < |w.pools| && ClaimOk(w, p, r, rq, call)
    requires w.procs[p].alive && w.procs[p].frame.Idle?
    ensures ServedInOrder(w, Attempt(w, p, r, rq, place, call).0, p, r, RequestRank(rq, w.procs[p]), call.remaining, call.preempt, k)
  {
    hide PreemptFor, TakeUnits, Running, Others, Hold, ServedInOrder, StakeOk, OthersStandBy, SignalGuard, Suspend;
    var rank := RequestRank(rq, w.procs[p]);
    var n := Min(Room(w.pools[r]), call.remaining);
    var w1 := if n > 0 then TakeUnits(w, r, p, n, rq) else w;
    var rem := call.remaining - n;
    FreeShare(w, p, r, rq, call);
    OthersHold(w, p, r, [r]);
    hide Total;
    if rem == 0 {
      k := 0;
      ServedNothing(w1, p, r, rank, 0, call.preempt, [r]);
      ServedAfterTake(w, w1, w1, p, r, rank, call.remaining, n, call.preempt, 0);
      EndOfPass(w, w1, p, r, rq, place, call, 0, 0);
    } else if !call.preempt {
      k := 0;
      ServedNothing(w1, p, r, rank, rem, false, [r]);
      ServedAfterTake(w, w1, w1, p, r, rank, call.remaining, n, false, 0);
      EndOfPass(w, w1, p, r, rq, place, call, rem, 0);
    } else {
      k := PreemptServes(w1, p, r, rem, rq, [r]);
      var (w2, got) := PreemptFor(w1, p, r, rem, rq);
      PreemptKeeps(w1, p, r, rem, rq, [r]);
      ServedSome(w1, w2, p, r, rank, rem, true, k);
      ServedAfterTake(w, w1, w2, p, r, rank, call.remaining, n, true, k);
      EndOfPass(w, w2, p, r, rq, place, call, rem - got, k);
    }
  }

  lemma ServedSome(w: World, w': World, p: nat, r: nat, rank: int, need: nat, preempt: bool, k: nat)
    requires r < |w.pools| == |w'.pools| && ServedInOrder(w, w', p, r, rank, need, preempt, k)
    ensures k <= |Others(w.pools[r].holders, Some(p))|
  {
  }

  lemma EndOfPass(w: World, w2: World, p: nat, r: nat, rq: Request, place: Place, call: Call, rem: nat, k: nat)
    requires Running(w2, p, [r]) && p < |w.procs| == |w2.procs| && r < |w.pools| == |w2.pools| && call.Take?
    requires ServedInOrder(w, w2, p, r, RequestRank(rq, w.procs[p]), call.remaining, call.preempt, k)
    ensures ServedInOrder(w, SignalGuard(w2, r), p, r, RequestRank(rq, w.procs[p]), call.remaining, call.preempt, k)
    ensures ServedInOrder(w, Suspend(w2, p, [r], rq, place, call.(remaining := rem)), p, r, RequestRank(rq, w.procs[p]), call.remaining, call.preempt, k)
  {
    hide ServedInOrder;
    SignalKeeps(w2, r, p, [r]);
    ServedAtEnd(w, w2, SignalGuard(w2, r), p, r, RequestRank(rq, w.procs[p]), call.remaining, call.preempt, k);
    var w3 := Suspend(w2, p, [r], rq, place, call.(remaining := rem));
    forall z: nat ensures Hold(w3, r, z) == Hold(w2, r, z) {
      assert w3.pools[r].holders == w2.pools[r].holders;
    }
    ServedAtEnd(w, w2, w3, p, r, RequestRank(rq, w.procs[p]), call.remaining, call.preempt, k);
  }

  // ---- The steps that pass ----

  lemma StartServes(w: World, p: nat, r: nat, amount: nat, preempt: bool, rq: Request) returns (k: nat)
    requires Inv(w) && CanCall(w, p) && r < |w.pools| && 0 < amount <= INT64_MAX
    ensures ServedInOrder(w, StartAcquire(w, p, r, amount, preempt, rq).0, p, r, RequestRank(rq, w.procs[p]), amount, preempt, k)
  {
    hide Attempt, SetRank, Running, Others, ServedInOrder;
    var rank := RequestRank(rq, w.procs[p]);
    var w1 := SetRank(w, r, p, rank, rq.fixed);
    var call := Take(amount, amount, preempt, Hold(w, r, p));
    Unsettled(w, p, [r]);
    PoolIsOk(w, r);
    SetRankKeeps(w, r, p, rank, rq.fixed, [r]);
    SameOthers(w, w1, p, r, [r]);
    k := AttemptServes(w1, p, r, rq, Unplaced, call);
    ServedAlike(w, w1, Attempt(w1, p, r, rq, Unplaced, call).0, p, r, rank, amount, preempt, k);
  }

  lemma ServedAlike(w: World, w1: World, w': World, p: nat, r: nat, rank: int, need: nat, preempt: bool, k: nat)
    requires r < |w.pools| == |w1.pools| == |w'.pools| && ServedInOrder(w1, w', p, r, rank, need, preempt, k)
    requires Others(w1.pools[r].holders, Some(p)) == Others(w.pools[r].holders, Some(p)) && Held(w1, r, p) == Held(w, r, p)
    requires w1.pools[r].inUse == w.pools[r].inUse && w1.pools[r].capacity == w.pools[r].capacity
    requires OthersKeepHolding(w, w1, r, p)
    ensures ServedInOrder(w, w', p, r, rank, need, preempt, k)
  {
    hide Others, Hold;
  }

  lemma ResumeServes(w: World, p: nat, cancelled: bool, events: multiset<Wakeup>) returns (k: nat)
    requires Inv(w) && p < |w.procs| && w.procs[p].frame.Waiting? && w.procs[p].frame.call.Take?
    requires KeepsOthersEvents(w, events, p) && FrameOk(w, p) && MayResume(w, p, Success)
    ensures var f := w.procs[p].frame;
      ServedInOrder(w, Resume(w.(events := events), p, Success, cancelled).0, p, f.members[0], RequestRank(f.rq, w.procs[p]),
                    f.call.remaining, f.call.preempt, k)
  {
    hide Attempt, Awaken, Running, Others, ServedInOrder, SignalGuard;
    var f := w.procs[p].frame;
    var r := f.members[0];
    var w0 := Awaken(w.(events := events), p);
    AwakeKeeps(w, p, events);
    assert f.members == [r];
    k := AttemptServes(w0, p, r, f.rq, f.place, f.call);
    ServedAlike(w, w0, Attempt(w0, p, r, f.rq, f.place, f.call).0, p, r, RequestRank(f.rq, w.procs[p]), f.call.remaining, f.call.preempt, k);
  }

  /** In step s, p runs a pass of an acquire or preempt on pool r. */
  ghost predicate TakePass(w: World, s: Step, p: nat, r: nat) {
    && p < |w.procs| && r < |w.pools|
    && ((s.Acquire? && s.p == p && s.r == r && 0 < s.amount <= INT64_MAX)
        || (Resumes(w, s, p) && SignalOf(s) == Success && w.procs[p].frame.call.Take? && w.procs[p].frame.members == [r]))
  }

  /** The rank, the units still wanted and the right to preempt of that pass. */
  function PassRank(w: World, s: Step, p: nat): int
    requires p < |w.procs|
  {
    if s.Acquire? || s.AcquireAny? then RequestRank(s.rq, w.procs[p])
    else if w.procs[p].frame.Waiting? then RequestRank(w.procs[p].frame.rq, w.procs[p]) else 0
  }

  function PassNeed(w: World, s: Step, p: nat): nat
    requires p < |w.procs|
  {
    if s.Acquire? then s.amount
    else if w.procs[p].frame.Waiting? && w.procs[p].frame.call.Take? then w.procs[p].frame.call.remaining else 0
  }

  function PassPreempts(w: World, s: Step, p: nat): bool
    requires p < |w.procs|
  {
    if s.Acquire? then s.preempt else w.procs[p].frame.Waiting? && w.procs[p].frame.call.Take? && w.procs[p].frame.call.preempt
  }

  lemma PassServes(w: World, s: Step, p: nat, r: nat) returns (k: nat)
    requires Inv(w) && Enabled(w, s) && TakePass(w, s, p, r)
    ensures |Next(w, s).pools| == |w.pools| && PassNeed(w, s, p) > 0
    ensures ServedInOrder(w, Next(w, s), p, r, PassRank(w, s, p), PassNeed(w, s, p), PassPreempts(w, s, p), k)
  {
    hide Inv, ServedInOrder, StartAcquire, Resume;
    if s.Acquire? {
      k := StartServes(w, p, r, s.amount, s.preempt, s.rq);
    } else {
      var events, cancelled := ResumingStep(w, s, p);
      k := ResumeServes(w, p, cancelled, events);
      InCallHolds(w, p, r);
    }
  }

  /** Preemption in every run. Whenever an acquire or preempt passes over its
      pool, on its first try or after any wait, with whatever priorities have
      changed meanwhile, it serves itself in order. */
  lemma PreemptsInOrder(ws: seq<World>, steps: seq<Step>, i: nat, p: nat, r: nat) returns (k: nat)
    requires Run(ws, steps) && i + 1 < |ws| && i < |steps| && TakePass(ws[i], steps[i], p, r)
    ensures r < |ws[i + 1].pools| == |ws[i].pools|
    ensures ServedInOrder(ws[i], ws[i + 1], p, r, PassRank(ws[i], steps[i], p), PassNeed(ws[i], steps[i], p),
                          PassPreempts(ws[i], steps[i], p), k)
  {
    RunStep(ws, steps, i);
    RunKeeps(ws, steps, i);
    k := PassServes(ws[i], steps[i], p, r);
  }

  // ---- Exactly when ----

  /** The units held strictly below a rank. */
  function Below(h: Holders, rank: int): int {
    if h == [] then 0 else (if h[0].rank < rank then h[0].item.amount else 0) + Below(h[1..], rank)
  }

  lemma {:induction false} BelowFront(h: Holders, rank: int, k: nat)
    requires k <= |h| && forall i :: 0 <= i < |h| ==> h[i].item.amount > 0
    requires forall i :: 0 <= i < k ==> h[i].rank < rank
    ensures Below(h, rank) >= Total(h[..k])
    ensures (forall i :: k <= i < |h| ==> h[i].rank >= rank) ==> Below(h, rank) == Total(h[..k])
  {
    if h != [] {
      BelowFront(h[1..], rank, if k > 0 then k - 1 else 0);
      if k > 0 { assert h[..k][1..] == h[1..][..k - 1]; }
    }
  }

  /** Some unit is free, or throwing out everybody below the rank frees some. */
  predicate CanTake(w: World, p: nat, r: nat, rank: int, preempt: bool)
    requires r < |w.pools|
  {
    var pool := w.pools[r];
    Room(pool) > 0 || (preempt && pool.inUse - Below(Others(pool.holders, Some(p)), rank) < pool.capacity)
  }

  lemma ServedIffCanTake(w: World, w': World, p: nat, r: nat, rank: int, need: nat, preempt: bool, k: nat)
    requires Inv(w) && r < |w.pools| == |w'.pools| && need > 0 && ServedInOrder(w, w', p, r, rank, need, preempt, k)
    ensures Held(w', r, p) > Held(w, r, p) <==> CanTake(w, p, r, rank, preempt)
  {
    OthersHold(w, p, r, []) by { Unsettled(w, p, []); }
    hide Others, Inv, Hold;
    BelowFront(Others(w.pools[r].holders, Some(p)), rank, k);
  }

  /** In step s, p runs a pass of acquire_any over these members. */
  ghost predicate AnyPass(w: World, s: Step, p: nat, members: seq<nat>) {
    && p < |w.procs| && members != [] && MembersOk(w, members)
    && ((s.AcquireAny? && s.p == p && s.members == members)
        || (Resumes(w, s, p) && SignalOf(s) == Success && w.procs[p].frame.call.TakeAny? && w.procs[p].frame.members == members))
  }

  /** The member it takes from: its grant's, if that has room, or else the
      first with room; |members| if there is none. */
  function AnyChoice(w: World, s: Step, p: nat, members: seq<nat>): nat
    requires p < |w.procs| && MembersOk(w, members)
  {
    var f := w.procs[p].frame;
    if !s.AcquireAny? && f.Waiting? && f.status.Granted? && f.status.winner < |members| && Room(w.pools[members[f.status.winner]]) > 0
    then f.status.winner else FirstWithRoom(w, members)
  }

  /** The steps in which p takes units of r. */
  ghost predicate Serves(w: World, s: Step, p: nat, r: nat) {
    || (TakePass(w, s, p, r) && CanTake(w, p, r, PassRank(w, s, p), PassPreempts(w, s, p)))
    || (exists members :: AnyPass(w, s, p, members) && AnyChoice(w, s, p, members) < |members| && members[AnyChoice(w, s, p, members)] == r)
  }

  /** What a pass of acquire_any returns. */
  lemma AnyOutcome(w: World, s: Step, p: nat, members: seq<nat>)
    requires Inv(w) && Enabled(w, s) && AnyPass(w, s, p, members)
    ensures Exec(w, s).1 == if AnyChoice(w, s, p, members) < |members| then Index(AnyChoice(w, s, p, members)) else Suspended
  {
    hide Inv, TakeOne, Suspend, Awaken, FirstWithRoom;
    if !s.AcquireAny? {
      var events, cancelled := ResumingStep(w, s, p);
      AwakeKeeps(w, p, events);
      SameFirstWithRoom(w, Awaken(w.(events := events), p), members);
    }
  }

  lemma AnyServes(w: World, s: Step, p: nat, members: seq<nat>, r: nat)
    requires Inv(w) && Enabled(w, s) && AnyPass(w, s, p, members)
    ensures Held(Next(w, s), r, p) > Held(w, r, p) <==>
      AnyChoice(w, s, p, members) < |members| && members[AnyChoice(w, s, p, members)] == r
  {
    AnyOutcome(w, s, p, members);
    hide Inv, Exec, Enabled, FirstWithRoom, AnyChoice, OthersStandBy;
    if s.AcquireAny? {
      StartAcquireAnyKeeps(w, p, members, s.rq) by { AnyCall(w, s, p); }
      AnyCall(w, s, p);
    } else {
      ResumeStepKeeps(w, s, p);
    }
  }

  lemma AnyCall(w: World, s: Step, p: nat)
    requires Enabled(w, s) && s.AcquireAny? && s.p == p
    ensures CanCall(w, p) && MembersOk(w, s.members) && w.requestSeq < SEQ_MASK
    ensures Exec(w, s) == StartAcquireAny(w, p, s.members, s.rq)
  {
  }

  lemma HeldNotNegative(w: World, r: nat, p: nat)
    requires Inv(w)
    ensures Held(w, r, p) >= 0
  {
    if r < |w.pools| { PoolIsOk(w, r); }
  }

  /** A step in which p runs no pass gives it no unit. */
  lemma NoPassNoUnit(w: World, s: Step, p: nat, r: nat)
    requires Inv(w) && Enabled(w, s) && p < |w.procs| && r < |w.pools|
    requires !TakePass(w, s, p, r) && forall members :: !AnyPass(w, s, p, members)
    ensures Held(Next(w, s), r, p) <= Held(w, r, p)
  {
    HeldNotNegative(w, r, p);
    if Actor(w, s) != p {
      StepKeeps(w, s);
      assert Bystander(w, Next(w, s), p);
    } else if Resumes(w, s, p) {
      NoPassResumed(w, s, p, r);
    } else {
      match s
      case Acquire(_, r', amount, preempt, rq) =>
        StartAcquireKeeps(w, p, r', amount, preempt, rq);
      case AcquireAny(_, members, rq) =>
        assert members != [] ==> AnyPass(w, s, p, members);
        StartAcquireAnyKeeps(w, p, members, rq);
      case ReleaseUnits(_, r', amount) => ReleaseKeeps(w, p, r', amount);
      case StopProcess(_) => StopKeeps(w, p);
      case Deliver(_) =>
        EventStepKeeps(w, s);
        SamePools(w, Next(w, s));
      case _ =>
    }
  }

  lemma NoPassResumed(w: World, s: Step, p: nat, r: nat)
    requires Inv(w) && Enabled(w, s) && r < |w.pools| && Resumes(w, s, p)
    requires !TakePass(w, s, p, r) && forall members :: !AnyPass(w, s, p, members)
    ensures Held(Next(w, s), r, p) <= Held(w, r, p)
  {
    HeldNotNegative(w, r, p);
    if w.procs[p].frame.call.TakeAny? {
      AnyIsPass(w, s, p);
      ReturnsSignal(w, s, p);
      ResumeStepKeeps(w, s, p);
      hide Inv, Exec, Enabled, OthersStandBy;
    } else {
      TakeIsPass(w, s, p);
      NoMoreThanBefore(w, s, p, r);
    }
  }

  /** A resumed call at another pool, or one that ends with another signal than success. */
  lemma NoMoreThanBefore(w: World, s: Step, p: nat, r: nat)
    requires Inv(w) && Enabled(w, s) && r < |w.pools| && Resumes(w, s, p) && w.procs[p].frame.call.Take?
    requires |w.procs[p].frame.members| == 1 && (SignalOf(s) != Success || w.procs[p].frame.members[0] != r)
    ensures Held(Next(w, s), r, p) <= Held(w, r, p)
  {
    hide Inv, Exec, Enabled, OthersStandBy;
    TakeIsPass(w, s, p);
    ResumeStepKeeps(w, s, p);
    InCallHolds(w, p, w.procs[p].frame.members[0]);
    HeldNotNegative(w, r, p);
    EvictedOnly(w, s, p);
  }

  lemma TakeIsPass(w: World, s: Step, p: nat)
    requires Inv(w) && Resumes(w, s, p) && w.procs[p].frame.call.Take?
    ensures |w.procs[p].frame.members| == 1 && w.procs[p].frame.members == [w.procs[p].frame.members[0]] && w.procs[p].frame.members[0] < |w.pools|
    ensures SignalOf(s) == Success ==> TakePass(w, s, p, w.procs[p].frame.members[0])
  {
    assert WaitOk(w, p);
  }

  lemma AnyIsPass(w: World, s: Step, p: nat)
    requires Inv(w) && Resumes(w, s, p) && w.procs[p].frame.call.TakeAny?
    ensures SignalOf(s) == Success ==> AnyPass(w, s, p, w.procs[p].frame.members)
  {
    assert WaitOk(w, p);
  }

  lemma EvictedOnly(w: World, s: Step, p: nat)
    requires Inv(w) && Enabled(w, s) && Resumes(w, s, p)
    ensures MayResume(w, p, SignalOf(s))
  {
    var _, _ := ResumingStep(w, s, p);
  }

  /** Exactly when a step gives p units of r: when p runs a pass of an acquire
      or preempt there, and a unit is free or, if it may preempt, others below
      its rank hold enough to free one; or when p runs a pass of acquire_any
      and r is the member chosen. Who else waits for r makes no difference. */
  lemma ServedIff(w: World, s: Step, p: nat, r: nat)
    requires Inv(w) && Enabled(w, s) && p < |w.procs| && r < |w.pools|
    ensures Held(Next(w, s), r, p) > Held(w, r, p) <==> Serves(w, s, p, r)
  {
    hide Inv, Enabled, Next, CanTake, AnyChoice, ServedInOrder;
    if TakePass(w, s, p, r) {
      forall members ensures !AnyPass(w, s, p, members) { OnePass(w, s, p, r, members); }
      var k := PassServes(w, s, p, r);
      ServedIffCanTake(w, Next(w, s), p, r, PassRank(w, s, p), PassNeed(w, s, p), PassPreempts(w, s, p), k);
    } else if members :| AnyPass(w, s, p, members) {
      AnyServes(w, s, p, members, r);
      forall other | AnyPass(w, s, p, other) ensures other == members { OneAnyPass(w, s, p, members, other); }
    } else {
      NoPassNoUnit(w, s, p, r);
    }
  }

  lemma OnePass(w: World, s: Step, p: nat, r: nat, members: seq<nat>)
    requires TakePass(w, s, p, r)
    ensures !AnyPass(w, s, p, members)
  {
  }

  lemma OneAnyPass(w: World, s: Step, p: nat, a: seq<nat>, b: seq<nat>)
    requires AnyPass(w, s, p, a) && AnyPass(w, s, p, b)
    ensures a == b
  {
  }

  // ---- Overtaking ----

  /** q waits for r, queued there or already granted it, at this rank or above. */
  ghost predicate WaitsAhead(w: World, q: nat, r: nat, rank: int) {
    q < |w.procs| && w.procs[q].frame.Waiting? &&
    var f := w.procs[q].frame;
    && r in f.members && RankWhileWaiting(w.procs[q]) >= rank
    && (f.status.Queued? || (f.status.Granted? && f.status.winner < |f.members| && f.members[f.status.winner] == r))
  }

  /** p takes units of r in step s past q, which has waited for them. */
  ghost predicate Overtakes(w: World, s: Step, p: nat, q: nat, r: nat)
    requires Enabled(w, s) && p < |w.procs|
  {
    p != q && WaitsAhead(w, q, r, PassRank(w, s, p)) && Held(Next(w, s), r, p) > Held(w, r, p)
  }

  /** Overtaking, in every run: p gets units that q waits for at no lower rank
      exactly when p runs a pass there and, as it starts, a unit is free or
      preemption frees one. */
  lemma OvertakesIff(ws: seq<World>, steps: seq<Step>, i: nat, p: nat, q: nat, r: nat)
    requires Run(ws, steps) && i < |steps| && p < |ws[i].procs| && p != q && r < |ws[i].pools|
    ensures Enabled(ws[i], steps[i])
    ensures Overtakes(ws[i], steps[i], p, q, r) <==>
      WaitsAhead(ws[i], q, r, PassRank(ws[i], steps[i], p)) && Serves(ws[i], steps[i], p, r)
  {
    RunStep(ws, steps, i);
    RunKeeps(ws, steps, i);
    ServedIff(ws[i], steps[i], p, r);
  }
}
