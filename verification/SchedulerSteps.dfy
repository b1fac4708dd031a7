/** The steps of a scheduler thread in DEQUEUECOMPLLIST and EXECUTEUMSTHREAD keep the invariant. */
module SchedulerSteps {
  import opened Totals
  import opened Protocol
  import opened Invariant
  import opened Frames

  // ---- DEQUEUECOMPLLIST ----

  /** An up worker on l makes threads_ready(l) positive. */
  lemma UpIsReady(st: State, l: Clid, t: Tid)
    requires l in st.lists && ReadyOk(st, l) && t in st.workers
    ensures 0 <= UpCount(st, l, t) <= st.lists[l].ready
  {
    TotalAtLeast(UpMap(st, l), t);
  }

  /** When the wait condition of l is false, some worker on l is held by a thread that will wake l. */
  lemma FindGuarantor(st: State, l: Clid) returns (t: Tid)
    requires AllWorkers(st) && l in st.lists && ListOk(st, l) && ReadyOk(st, l)
    requires !(st.lists[l].ready > 0 || st.lists[l].nthreads == 0)
    ensures Guards(st, t, l)
  {
    assert st.lists[l].queue != multiset{};
    t :| t in st.lists[l].queue;
    assert QueueOk(st, l, t);
    assert WorkerOk(st, t);
    UpIsReady(st, l, t);
    assert UpCount(st, l, t) == 0;
  }

  /** A position at which the thread holds nothing looks the same as any other such position. */
  lemma HoldNothing(st: State, s: Tid, a: PC, b: PC)
    requires Held(a) == Held(b) == [] && !b.Dec?
    ensures SameHold(st, s, a, b)
  {}

  lemma HoldBatch(st: State, s: Tid, a: PC, b: PC)
    requires Held(a) == Held(b) && !a.Exec? && !b.Exec? && !b.Dec?
    requires a.Dec? ==> PhaseOk(st, s, a) && a.k == |st.workers[a.got[|a.got| - 1]].clids|
    ensures SameHold(st, s, a, b)
  {}

  lemma PhaseAt(st: State, s: Tid)
    requires AllScheds(st) && s in st.scheds
    ensures PhaseOk(st, s, st.scheds[s].pc)
  {
    assert SchedOk(st, s);
  }

  lemma HoldExec(st: State, s: Tid, t: Tid, b: seq<Tid>, p: Phase, q: Phase)
    requires PhaseOk(st, s, Exec(t, b, p)) && PhaseOk(st, s, Exec(t, b, q))
    requires
      || (p == Waiting && st.workers[t].state != Running && q == Timing)
      || (p == Waiting && q == Asleep)
      || (p == Asleep && q == Waiting)
      || (p.Inc? && p.k == |st.workers[t].clids| && q == Wake(0))
    ensures SameHold(st, s, Exec(t, b, p), Exec(t, b, q))
  {
    assert st.workers[t].clids[..|st.workers[t].clids|] == st.workers[t].clids;
  }

  lemma KeepCallDequeue(st: State, s: Tid)
    requires Inv(st) && s in st.scheds && st.scheds[s].pc == InUser([])
    ensures Inv(At(st, s, Checking))
  {
    hide AllScheds, AllWorkers, AllLists, AllReady, AllSleep, SchedOk, SameHold, PhaseOk, Guards;
    HoldNothing(st, s, st.scheds[s].pc, Checking);
    KeepMove(st, s, Checking);
  }

  lemma KeepCheckReady(st: State, s: Tid)
    requires Inv(st) && s in st.scheds && st.scheds[s].pc.Checking? && st.scheds[s].clid in st.lists
    ensures Inv(DoCheckReady(st, s))
  {
    var l := st.scheds[s].clid;
    HoldNothing(st, s, Checking, Entering);
    HoldNothing(st, s, Checking, Sleeping);
    if st.lists[l].ready > 0 || st.lists[l].nthreads == 0 {
      hide AllScheds, AllWorkers, AllLists, AllReady, AllSleep, SchedOk, SameHold, PhaseOk, Held, Guards;
      KeepMove(st, s, Entering);
    } else {
      hide AllScheds, AllSleep, SchedOk, SameHold, PhaseOk, Held, WorkerOk, ListOk, ReadyOk;
      var t := FindGuarantor(st, l);
      KeepMove(st, s, Sleeping);
    }
  }

  lemma KeepBeginScan(st: State, s: Tid)
    requires Inv(st) && s in st.scheds && st.scheds[s].pc.Entering? && st.scheds[s].clid in st.lists
    ensures Inv(DoBeginScan(st, s))
  {
    hide AllScheds, AllWorkers, AllLists, AllReady, AllSleep, SchedOk, SameHold, PhaseOk, Guards;
    var q := st.lists[st.scheds[s].clid];
    var pc := if q.nthreads == 0 then Leaving else Scanning(q.queue, []);
    HoldNothing(st, s, st.scheds[s].pc, pc);
    KeepMove(st, s, pc);
  }

  lemma KeepEndScan(st: State, s: Tid)
    requires Inv(st) && s in st.scheds && st.scheds[s].pc.Scanning?
    ensures Inv(DoEndScan(st, s))
  {
    hide AllScheds, AllWorkers, AllLists, AllReady, AllSleep, SchedOk, SameHold, PhaseOk, Guards;
    var got := st.scheds[s].pc.got;
    var pc := if got == [] then Checking else InUser(got);
    HoldBatch(st, s, st.scheds[s].pc, pc);
    KeepMove(st, s, pc);
  }

  lemma KeepDecDone(st: State, s: Tid)
    requires Inv(st) && DecWorker(st, s) && st.scheds[s].pc.k == |DecClids(st, s)|
    ensures Inv(DoDecDone(st, s))
  {
    hide AllScheds, AllWorkers, AllLists, AllReady, AllSleep, SchedOk, SameHold, PhaseOk, Held, Guards;
    var pc := Scanning(st.scheds[s].pc.rest, st.scheds[s].pc.got);
    DecDoneHold(st, s);
    KeepMove(st, s, pc);
  }

  lemma DecDoneHold(st: State, s: Tid)
    requires AllScheds(st) && DecWorker(st, s) && st.scheds[s].pc.k == |DecClids(st, s)|
    ensures SameHold(st, s, st.scheds[s].pc, Scanning(st.scheds[s].pc.rest, st.scheds[s].pc.got))
  {
    hide AllScheds, SameHold;
    PhaseAt(st, s);
    HoldBatch(st, s, st.scheds[s].pc, Scanning(st.scheds[s].pc.rest, st.scheds[s].pc.got));
  }

  lemma KeepSignal(st: State, s: Tid)
    requires Inv(st) && s in st.scheds && st.scheds[s].pc.Sleeping?
    ensures Inv(At(st, s, Entering))
  {
    hide AllScheds, AllWorkers, AllLists, AllReady, AllSleep, SchedOk, SameHold, PhaseOk, Guards;
    HoldNothing(st, s, Sleeping, Entering);
    KeepMove(st, s, Entering);
  }

  lemma WakeHold(st: State, s: Tid)
    requires AllScheds(st) && s in st.scheds && Woken(st.scheds[s].pc) != st.scheds[s].pc
    ensures SameHold(st, s, st.scheds[s].pc, Woken(st.scheds[s].pc))
  {
    hide AllScheds, SameHold;
    PhaseAt(st, s);
    match st.scheds[s].pc
    case Sleeping => HoldNothing(st, s, Sleeping, Checking);
    case Exec(t, b, _) => HoldExec(st, s, t, b, Asleep, Waiting);
  }

  /** Waking a scheduler thread that waits for its worker, or for a list, is always harmless. */
  lemma KeepWake(st: State, s: Tid)
    requires Inv(st) && s in st.scheds
    ensures Inv(st.(scheds := WakeThread(st.scheds, s)))
  {
    hide AllScheds, AllWorkers, AllLists, AllReady, AllSleep, SchedOk, SameHold, PhaseOk, Held, Guards;
    if Woken(st.scheds[s].pc) != st.scheds[s].pc {
      WakeHold(st, s);
      KeepMove(st, s, Woken(st.scheds[s].pc));
    } else {
      assert WakeThread(st.scheds, s) == st.scheds;
    }
  }

  // ---- EXECUTEUMSTHREAD ----

  lemma WaitCheckHold(st: State, s: Tid)
    requires AllScheds(st) && InPhase(st, s) && st.scheds[s].pc.ph == Waiting
    ensures SameHold(st, s, st.scheds[s].pc, DoWaitCheck(st, s).scheds[s].pc)
  {
    hide AllScheds, SameHold;
    PhaseAt(st, s);
    var Exec(t, b, _) := st.scheds[s].pc;
    HoldExec(st, s, t, b, Waiting, if st.workers[t].state == Running then Asleep else Timing);
  }

  lemma KeepWaitCheck(st: State, s: Tid)
    requires Inv(st) && InPhase(st, s) && st.scheds[s].pc.ph == Waiting
    ensures Inv(DoWaitCheck(st, s))
  {
    hide AllScheds, AllWorkers, AllLists, AllReady, AllSleep, SchedOk, SameHold, PhaseOk, Held, Guards;
    WaitCheckHold(st, s);
    KeepMove(st, s, DoWaitCheck(st, s).scheds[s].pc);
  }

  lemma IncDoneHold(st: State, s: Tid)
    requires AllScheds(st) && InPhase(st, s) && st.scheds[s].pc.ph.Inc? && st.scheds[s].pc.ph.k == |ExecClids(st, s)|
    ensures SameHold(st, s, st.scheds[s].pc, st.scheds[s].pc.(ph := Wake(0)))
  {
    hide AllScheds, SameHold;
    PhaseAt(st, s);
    HoldExec(st, s, st.scheds[s].pc.t, st.scheds[s].pc.batch, st.scheds[s].pc.ph, Wake(0));
  }

  lemma KeepIncDone(st: State, s: Tid)
    requires Inv(st) && InPhase(st, s) && st.scheds[s].pc.ph.Inc? && st.scheds[s].pc.ph.k == |ExecClids(st, s)|
    ensures Inv(DoIncDone(st, s))
  {
    hide AllScheds, AllWorkers, AllLists, AllReady, AllSleep, SchedOk, SameHold, PhaseOk, Held, Guards;
    IncDoneHold(st, s);
    KeepMove(st, s, st.scheds[s].pc.(ph := Wake(0)));
  }

  lemma KeepMiss(st: State, s: Tid, t: Tid)
    requires Inv(st) && s in st.scheds && st.scheds[s].pc.Scanning?
    ensures Inv(At(st, s, Scanning(st.scheds[s].pc.rest - multiset{t}, st.scheds[s].pc.got)))
  {
    hide AllScheds, AllWorkers, AllLists, AllReady, AllSleep, SchedOk, SameHold, PhaseOk, Guards;
    var pc := Scanning(st.scheds[s].pc.rest - multiset{t}, st.scheds[s].pc.got);
    HoldBatch(st, s, st.scheds[s].pc, pc);
    KeepMove(st, s, pc);
  }

  // ---- steps on a worker in hand ----

  lemma TailCount(c: seq<Clid>, k: nat, l: Clid)
    requires k < |c|
    ensures multiset(c[k..])[l] == multiset(c[k + 1..])[l] + if c[k] == l then 1 else 0
  {
    assert c[k..] == [c[k]] + c[k + 1..];
  }

  lemma HeadCount(c: seq<Clid>, k: nat, l: Clid)
    requires k < |c|
    ensures multiset(c[..k + 1])[l] == multiset(c[..k])[l] + if c[k] == l then 1 else 0
  {
    assert c[..k + 1] == c[..k] + [c[k]];
  }

  /** Scheduler s is about to lock the idle worker t it meets in the queue. */
  predicate Taking(st: State, s: Tid, t: Tid) {
    && s in st.scheds && st.scheds[s].pc.Scanning? && st.scheds[s].clid in st.lists
    && t in st.workers && st.workers[t].state == Idle && CanTake(st, s, t)
    && st.scheds[s].clid in st.workers[t].clids
  }

  lemma TakeSched(st: State, s: Tid, t: Tid)
    requires Taking(st, s, t) && SchedOk(st, s)
    ensures SchedOk(DoVisit(st, s, t), s)
  {}

  lemma TakeWorker(st: State, s: Tid, t: Tid)
    requires Taking(st, s, t) && WorkerOk(st, t)
    ensures WorkerOk(DoVisit(st, s, t), t)
  {}

  lemma TakeReady(st: State, s: Tid, t: Tid)
    requires Taking(st, s, t) && AllReady(st) && SchedOk(st, s)
    ensures AllReady(DoVisit(st, s, t))
  {
    assert st.workers[t].clids[0..] == st.workers[t].clids;
    TouchReady(st, DoVisit(st, s, t), s, t);
  }

  lemma TakeSleep(st: State, s: Tid, t: Tid)
    requires Taking(st, s, t) && AllSleep(st)
    ensures AllSleep(DoVisit(st, s, t))
  {
    TouchSleep(st, DoVisit(st, s, t), s, t);
  }

  lemma TakeTouches(st: State, s: Tid, t: Tid)
    requires Taking(st, s, t)
    ensures var st' := DoVisit(st, s, t);
      Touches(st, st', s, t) && SameQueues(st, st', t)
      && forall u :: Follows(st.scheds[s].pc, st'.scheds[s].pc, u)
  {}

  lemma KeepTake(st: State, s: Tid, t: Tid)
    requires Inv(st) && Taking(st, s, t)
    ensures Inv(DoVisit(st, s, t))
  {
    hide SchedOk, WorkerOk, AllScheds, AllWorkers, AllLists, AllReady, AllSleep, Touches, SameQueues, Follows;
    var st' := DoVisit(st, s, t);
    SchedAt(st, s);
    WorkerAt(st, t);
    TakeSched(st, s, t);
    TakeWorker(st, s, t);
    TakeReady(st, s, t);
    TakeSleep(st, s, t);
    TakeTouches(st, s, t);
    KeepTouch(st, st', s, t);
  }

  /** Scheduler s is inside the decrement loop for the worker it locked last. */
  predicate Decrementing(st: State, s: Tid) {
    && DecWorker(st, s) && st.scheds[s].pc.k < |DecClids(st, s)|
    && DecClids(st, s)[st.scheds[s].pc.k] in st.lists
    && st.workers[DecTid(st, s)].lock == s
  }

  lemma DecOneRecords(st: State, s: Tid)
    requires Decrementing(st, s) && SchedOk(st, s) && WorkerOk(st, DecTid(st, s))
    ensures var st', t := DoDecOne(st, s), DecTid(st, s);
      && Touches(st, st', s, t) && SameQueues(st, st', t)
      && (forall u :: Follows(st.scheds[s].pc, st'.scheds[s].pc, u))
      && SchedOk(st', s) && WorkerOk(st', t)
  {}

  lemma DecOneReady(st: State, s: Tid)
    requires Decrementing(st, s) && AllReady(st) && SchedOk(st, s)
    ensures AllReady(DoDecOne(st, s))
  {
    var st', t := DoDecOne(st, s), DecTid(st, s);
    DecTouches(st, s);
    hide AllReady, Touches, UpCount;
    forall l | l in st.lists ensures st'.lists[l].ready == st.lists[l].ready + UpCount(st', l, t) - UpCount(st, l, t) {
      DecCount(st, s, l);
    }
    TouchReady(st, st', s, t);
  }

  lemma DecTouches(st: State, s: Tid)
    requires Decrementing(st, s) && SchedOk(st, s)
    ensures var st', t := DoDecOne(st, s), DecTid(st, s);
      Touches(st, st', s, t) && st'.lists.Keys == st.lists.Keys && forall u :: Follows(st.scheds[s].pc, st'.scheds[s].pc, u)
  {}

  /** One decrement lowers list l by as much as the worker's entries for l that are still up. */
  lemma DecCount(st: State, s: Tid, l: Clid)
    requires Decrementing(st, s) && SchedOk(st, s) && l in st.lists
    ensures var st', t := DoDecOne(st, s), DecTid(st, s);
      st'.lists[l].ready == st.lists[l].ready + UpCount(st', l, t) - UpCount(st, l, t)
  {
    var t, k := DecTid(st, s), st.scheds[s].pc.k;
    assert st.workers[t].state == Idle;
    hide SchedOk;
    TailCount(st.workers[t].clids, k, l);
  }

  lemma DecOneSleep(st: State, s: Tid)
    requires Decrementing(st, s) && AllSleep(st)
    ensures AllSleep(DoDecOne(st, s))
  {
    TouchSleep(st, DoDecOne(st, s), s, DecTid(st, s));
  }

  lemma KeepDecOne(st: State, s: Tid)
    requires Inv(st) && Decrementing(st, s)
    ensures Inv(DoDecOne(st, s))
  {
    hide SchedOk, WorkerOk, AllScheds, AllWorkers, AllLists, AllReady, AllSleep, Touches, SameQueues, Follows;
    var st', t := DoDecOne(st, s), DecTid(st, s);
    SchedAt(st, s);
    WorkerAt(st, t);
    DecOneRecords(st, s);
    DecOneReady(st, s);
    DecOneSleep(st, s);
    KeepTouch(st, st', s, t);
  }

  /** Scheduler s is in EXECUTEUMSTHREAD on a worker whose mutex it holds. */
  predicate Executing(st: State, s: Tid) {
    InPhase(st, s) && st.workers[st.scheds[s].pc.t].lock == s
  }

  predicate Incrementing(st: State, s: Tid) {
    && Executing(st, s) && st.scheds[s].pc.ph.Inc? && st.scheds[s].pc.ph.k < |ExecClids(st, s)|
    && ExecClids(st, s)[st.scheds[s].pc.ph.k] in st.lists
  }

  lemma IncOneRecords(st: State, s: Tid)
    requires Incrementing(st, s) && SchedOk(st, s) && WorkerOk(st, st.scheds[s].pc.t)
    ensures var st', t := DoIncOne(st, s), st.scheds[s].pc.t;
      && Touches(st, st', s, t) && SameQueues(st, st', t)
      && (forall u :: u in st.workers && u != t ==> Follows(st.scheds[s].pc, st'.scheds[s].pc, u))
      && SchedOk(st', s) && WorkerOk(st', t)
  {}

  lemma IncOneReady(st: State, s: Tid)
    requires Incrementing(st, s) && AllReady(st) && SchedOk(st, s)
    ensures AllReady(DoIncOne(st, s))
  {
    var st', t := DoIncOne(st, s), st.scheds[s].pc.t;
    IncTouches(st, s);
    hide AllReady, Touches, UpCount;
    forall l | l in st.lists ensures st'.lists[l].ready == st.lists[l].ready + UpCount(st', l, t) - UpCount(st, l, t) {
      IncCount(st, s, l);
    }
    TouchReady(st, st', s, t);
  }

  lemma IncTouches(st: State, s: Tid)
    requires Incrementing(st, s) && SchedOk(st, s)
    ensures var st', t := DoIncOne(st, s), st.scheds[s].pc.t;
      && Touches(st, st', s, t) && st'.lists.Keys == st.lists.Keys
      && forall u :: u in st.workers && u != t ==> Follows(st.scheds[s].pc, st'.scheds[s].pc, u)
  {}

  lemma IncCount(st: State, s: Tid, l: Clid)
    requires Incrementing(st, s) && SchedOk(st, s) && l in st.lists
    ensures var st', t := DoIncOne(st, s), st.scheds[s].pc.t;
      st'.lists[l].ready == st.lists[l].ready + UpCount(st', l, t) - UpCount(st, l, t)
  {
    var t, k := st.scheds[s].pc.t, st.scheds[s].pc.ph.k;
    assert st.workers[t].state == Idle;
    hide SchedOk;
    HeadCount(st.workers[t].clids, k, l);
  }

  lemma IncOneSleep(st: State, s: Tid)
    requires Incrementing(st, s) && AllSleep(st)
    ensures AllSleep(DoIncOne(st, s))
  {
    TouchSleep(st, DoIncOne(st, s), s, st.scheds[s].pc.t);
  }

  lemma KeepIncOne(st: State, s: Tid)
    requires Inv(st) && Incrementing(st, s)
    ensures Inv(DoIncOne(st, s))
  {
    hide SchedOk, WorkerOk, AllScheds, AllWorkers, AllLists, AllReady, AllSleep, Touches, SameQueues, Follows;
    var st', t := DoIncOne(st, s), st.scheds[s].pc.t;
    SchedAt(st, s);
    WorkerAt(st, t);
    IncOneRecords(st, s);
    IncOneReady(st, s);
    IncOneSleep(st, s);
    KeepTouch(st, st', s, t);
  }

  predicate AtTiming(st: State, s: Tid) {
    Executing(st, s) && st.scheds[s].pc.ph.Timing?
  }

  lemma UpdateTimeRecords(st: State, s: Tid)
    requires AtTiming(st, s) && SchedOk(st, s) && WorkerOk(st, st.scheds[s].pc.t)
    ensures var st', t := DoUpdateTime(st, s), st.scheds[s].pc.t;
      && Touches(st, st', s, t) && SameQueues(st, st', t)
      && (forall u :: u in st.workers && u != t ==> Follows(st.scheds[s].pc, st'.scheds[s].pc, u))
      && SchedOk(st', s) && WorkerOk(st', t)
  {}

  lemma UpdateTimeReady(st: State, s: Tid)
    requires AtTiming(st, s) && AllReady(st) && SchedOk(st, s)
    ensures AllReady(DoUpdateTime(st, s))
  {
    TouchReady(st, DoUpdateTime(st, s), s, st.scheds[s].pc.t);
  }

  lemma UpdateTimeSleep(st: State, s: Tid)
    requires AtTiming(st, s) && AllSleep(st)
    ensures AllSleep(DoUpdateTime(st, s))
  {
    TouchSleep(st, DoUpdateTime(st, s), s, st.scheds[s].pc.t);
  }

  lemma KeepUpdateTime(st: State, s: Tid)
    requires Inv(st) && AtTiming(st, s)
    ensures Inv(DoUpdateTime(st, s))
  {
    hide SchedOk, WorkerOk, AllScheds, AllWorkers, AllLists, AllReady, AllSleep, Touches, SameQueues, Follows;
    var st', t := DoUpdateTime(st, s), st.scheds[s].pc.t;
    SchedAt(st, s);
    WorkerAt(st, t);
    UpdateTimeRecords(st, s);
    UpdateTimeReady(st, s);
    UpdateTimeSleep(st, s);
    KeepTouch(st, st', s, t);
  }

  predicate Unlocking(st: State, s: Tid) {
    Executing(st, s) && st.scheds[s].pc.ph.Wake? && st.scheds[s].pc.ph.k == |ExecClids(st, s)|
  }

  lemma UnlockSched(st: State, s: Tid)
    requires Unlocking(st, s) && SchedOk(st, s)
    ensures SchedOk(DoUnlock(st, s), s)
  {
    var t, b := st.scheds[s].pc.t, st.scheds[s].pc.batch;
    TailDistinct(t, b);
    assert forall u :: u in b ==> u in [t] + b;
  }

  lemma TailDistinct(t: Tid, b: seq<Tid>)
    requires Distinct([t] + b)
    ensures Distinct(b) && t !in b
  {
    var held := [t] + b;
    forall i | 0 <= i < |b| ensures b[i] != t {
      assert held[0] == t && held[i + 1] == b[i];
    }
    forall i, j | 0 <= i < j < |b| ensures b[i] != b[j] {
      assert held[i + 1] == b[i] && held[j + 1] == b[j];
    }
  }

  lemma UnlockRecords(st: State, s: Tid)
    requires Unlocking(st, s) && SchedOk(st, s) && WorkerOk(st, st.scheds[s].pc.t)
    ensures var st', t := DoUnlock(st, s), st.scheds[s].pc.t;
      && Touches(st, st', s, t) && SameQueues(st, st', t)
      && (forall u :: u in st.workers && u != t ==> Follows(st.scheds[s].pc, st'.scheds[s].pc, u))
      && SchedOk(st', s) && WorkerOk(st', t)
  {
    UnlockSched(st, s);
    assert st.workers[st.scheds[s].pc.t].state != Running;
    hide SchedOk;
  }

  lemma UnlockReady(st: State, s: Tid)
    requires Unlocking(st, s) && AllReady(st) && SchedOk(st, s)
    ensures AllReady(DoUnlock(st, s))
  {
    UnlockCounts(st, s);
    hide SchedOk, AllReady, Touches, OthersUp, UpCount;
    TouchReady(st, DoUnlock(st, s), s, st.scheds[s].pc.t);
  }

  /** The worker counts as before: it was counted whole in the wake loop. */
  lemma UnlockCounts(st: State, s: Tid)
    requires Unlocking(st, s) && SchedOk(st, s)
    ensures var st', t := DoUnlock(st, s), st.scheds[s].pc.t;
      && Touches(st, st', s, t) && OthersUp(st, st', s, t)
      && forall l :: l in st.lists ==> st'.lists[l].ready == st.lists[l].ready && UpCount(st', l, t) == UpCount(st, l, t)
  {}

  lemma UnlockSleep(st: State, s: Tid)
    requires Unlocking(st, s) && AllSleep(st)
    ensures AllSleep(DoUnlock(st, s))
  {
    TouchSleep(st, DoUnlock(st, s), s, st.scheds[s].pc.t);
  }

  lemma KeepUnlock(st: State, s: Tid)
    requires Inv(st) && Unlocking(st, s)
    ensures Inv(DoUnlock(st, s))
  {
    hide SchedOk, WorkerOk, AllScheds, AllWorkers, AllLists, AllReady, AllSleep, Touches, SameQueues, Follows;
    var st', t := DoUnlock(st, s), st.scheds[s].pc.t;
    SchedAt(st, s);
    WorkerAt(st, t);
    UnlockRecords(st, s);
    UnlockReady(st, s);
    UnlockSleep(st, s);
    KeepTouch(st, st', s, t);
  }

  // ---- the start of EXECUTEUMSTHREAD ----

  lemma WithoutKeeps(b: seq<Tid>, i: nat)
    requires i < |b| && Distinct(b)
    ensures Distinct([b[i]] + Without(b, i))
    ensures forall u :: u in Without(b, i) <==> u in b && u != b[i]
  {
    var r := Without(b, i);
    assert forall j :: 0 <= j < |r| ==> r[j] == b[if j < i then j else j + 1];
    assert forall j :: 0 <= j < |b| && j != i ==> b[j] == r[if j < i then j else j - 1];
  }

  predicate AtExecute(st: State, s: Tid, i: nat) {
    && s in st.scheds && st.scheds[s].pc.InUser? && i < |st.scheds[s].pc.batch|
    && st.scheds[s].pc.batch[i] in st.workers && st.workers[st.scheds[s].pc.batch[i]].lock == s
  }

  lemma ExecuteSched(st: State, s: Tid, i: nat)
    requires AtExecute(st, s, i) && SchedOk(st, s)
    ensures SchedOk(DoExecute(st, s, i), s)
  {
    WithoutKeeps(st.scheds[s].pc.batch, i);
  }

  lemma ExecuteRecords(st: State, s: Tid, i: nat)
    requires AtExecute(st, s, i) && SchedOk(st, s) && WorkerOk(st, st.scheds[s].pc.batch[i])
    ensures var st', t := DoExecute(st, s, i), st.scheds[s].pc.batch[i];
      && Touches(st, st', s, t) && SameQueues(st, st', t)
      && (forall u :: u in st.workers && u != t ==> Follows(st.scheds[s].pc, st'.scheds[s].pc, u))
      && SchedOk(st', s) && WorkerOk(st', t)
  {
    ExecuteSched(st, s, i);
    WithoutKeeps(st.scheds[s].pc.batch, i);
    assert st.workers[st.scheds[s].pc.batch[i]].state == Idle;
    hide SchedOk;
  }

  lemma ExecuteReady(st: State, s: Tid, i: nat)
    requires AtExecute(st, s, i) && AllReady(st) && SchedOk(st, s)
    ensures AllReady(DoExecute(st, s, i))
  {
    TouchReady(st, DoExecute(st, s, i), s, st.scheds[s].pc.batch[i]);
  }

  lemma ExecuteSleep(st: State, s: Tid, i: nat)
    requires AtExecute(st, s, i) && AllSleep(st) && Distinct(st.scheds[s].pc.batch)
    ensures AllSleep(DoExecute(st, s, i))
  {
    WithoutKeeps(st.scheds[s].pc.batch, i);
    TouchSleep(st, DoExecute(st, s, i), s, st.scheds[s].pc.batch[i]);
  }

  lemma KeepExecute(st: State, s: Tid, i: nat)
    requires Inv(st) && AtExecute(st, s, i)
    ensures Inv(DoExecute(st, s, i))
  {
    hide SchedOk, WorkerOk, AllScheds, AllWorkers, AllLists, AllReady, AllSleep, Touches, SameQueues, Follows;
    var st', t := DoExecute(st, s, i), st.scheds[s].pc.batch[i];
    SchedAt(st, s);
    assert Distinct(st.scheds[s].pc.batch) by { BatchDistinct(st, s); }
    WorkerAt(st, t);
    ExecuteRecords(st, s, i);
    ExecuteReady(st, s, i);
    ExecuteSleep(st, s, i);
    KeepTouch(st, st', s, t);
  }

  lemma BatchDistinct(st: State, s: Tid)
    requires s in st.scheds && st.scheds[s].pc.InUser? && SchedOk(st, s)
    ensures Distinct(st.scheds[s].pc.batch)
  {}

  // ---- the wake loop ----

  lemma KeepWakeList(st: State, l: Clid)
    requires Inv(st)
    ensures Inv(st.(scheds := WakeList(st.scheds, l)))
  {
    hide SchedOk, WorkerOk, SleepOk, ListOk, ReadyOk;
    var st' := st.(scheds := WakeList(st.scheds, l));
    forall x | x in st'.scheds ensures SchedOk(st', x) {
      WakeListSched(st, l, x);
    }
    forall t | t in st'.workers ensures WorkerOk(st', t) {
      WorkerFrame(st, st', t);
    }
    ListsFrame(st, st');
    ReadySame(st, st');
    SleepFrame(st, st');
  }

  lemma WakeListSched(st: State, l: Clid, x: Tid)
    requires x in st.scheds && SchedOk(st, x)
    ensures SchedOk(st.(scheds := WakeList(st.scheds, l)), x)
  {}

  predicate Waking(st: State, s: Tid) {
    && Executing(st, s) && st.scheds[s].pc.ph.Wake? && st.scheds[s].pc.ph.k < |ExecClids(st, s)|
  }

  /** After the wake on list clids[k], with nobody asleep there, s moves on to k + 1. */
  function PastWake(st: State, s: Tid): State
    requires Waking(st, s)
  {
    At(st, s, Exec(st.scheds[s].pc.t, st.scheds[s].pc.batch, Wake(st.scheds[s].pc.ph.k + 1)))
  }

  lemma PastWakeRecords(st: State, s: Tid)
    requires Waking(st, s) && SchedOk(st, s) && WorkerOk(st, st.scheds[s].pc.t)
    ensures var st', t := PastWake(st, s), st.scheds[s].pc.t;
      && Touches(st, st', s, t) && SameQueues(st, st', t)
      && (forall u :: u in st.workers && u != t ==> Follows(st.scheds[s].pc, st'.scheds[s].pc, u))
      && SchedOk(st', s) && WorkerOk(st', t)
  {}

  lemma PastWakeReady(st: State, s: Tid)
    requires Waking(st, s) && AllReady(st)
    ensures AllReady(PastWake(st, s))
  {
    hide AllReady, ReadyOk;
    var st' := PastWake(st, s);
    assert forall t :: t in st.workers ==> Up(st'.workers[t], t, st'.scheds) == Up(st.workers[t], t, st.scheds);
    ReadyKept(st, st');
  }

  lemma PastWakeSleep(st: State, s: Tid)
    requires Waking(st, s) && AllSleep(st)
    requires forall x :: x in st.scheds && st.scheds[x].clid == ExecClids(st, s)[st.scheds[s].pc.ph.k] ==> !st.scheds[x].pc.Sleeping?
    ensures AllSleep(PastWake(st, s))
  {
    var c, k := ExecClids(st, s), st.scheds[s].pc.ph.k;
    assert c[k..] == [c[k]] + c[k + 1..];
    SleepFrame(st, PastWake(st, s));
  }

  lemma KeepPastWake(st: State, s: Tid)
    requires Inv(st) && Waking(st, s)
    requires forall x :: x in st.scheds && st.scheds[x].clid == ExecClids(st, s)[st.scheds[s].pc.ph.k] ==> !st.scheds[x].pc.Sleeping?
    ensures Inv(PastWake(st, s))
  {
    hide SchedOk, WorkerOk, AllScheds, AllWorkers, AllLists, AllReady, AllSleep, Touches, SameQueues, Follows;
    SchedAt(st, s);
    WorkerAt(st, st.scheds[s].pc.t);
    PastWakeRecords(st, s);
    PastWakeReady(st, s);
    PastWakeSleep(st, s);
    KeepTouch(st, PastWake(st, s), s, st.scheds[s].pc.t);
  }

  lemma KeepWakeOne(st: State, s: Tid)
    requires Inv(st) && Waking(st, s)
    ensures Inv(DoWakeOne(st, s))
  {
    hide Inv;
    var mid := st.(scheds := WakeList(st.scheds, ExecClids(st, s)[st.scheds[s].pc.ph.k]));
    KeepWakeList(st, ExecClids(st, s)[st.scheds[s].pc.ph.k]);
    KeepPastWake(mid, s);
    assert PastWake(mid, s) == DoWakeOne(st, s);
  }
}
