/** What the invariant says to a reader, for every reachable state. */
module Theorems {
  import opened Totals
  import opened Protocol
  import opened Invariant
  import opened Safety
  import Frames

  // ---- sleeping and waking ----

  /**
   No stranded sleeper: whoever sleeps on the wait queue of l is owed a wake by another scheduler, which
   holds a worker of l, is not asleep on any wait queue, and has yet to reach l in that worker's wake loop.
   */
  lemma NoStrandedSleeper(st: State, s: Tid)
    requires Reachable(st) && s in st.scheds && st.scheds[s].pc.Sleeping?
    ensures exists t :: Guards(st, t, st.scheds[s].clid) && st.workers[t].lock != s && !st.scheds[st.workers[t].lock].pc.Sleeping?
  {
    ReachableInv(st);
    assert SleepOk(st, s);
    var t :| Guards(st, t, st.scheds[s].clid);
  }

  /** wake_up on l leaves nobody asleep on l. */
  lemma WakeLeavesNobody(st: State, s: Tid)
    requires Reachable(st) && Enabled(st, WakeOne(s))
    ensures var l, st' := ExecClids(st, s)[st.scheds[s].pc.ph.k], Apply(st, WakeOne(s));
      forall x :: x in st'.scheds && st'.scheds[x].clid == l ==> !st'.scheds[x].pc.Sleeping?
  {}

  /**
   The worker and the scheduler that runs it name each other; a scheduler asleep in wait_worker_thread has
   a worker that is still running and will wake it.
   */
  lemma RunningPair(st: State, t: Tid)
    requires Reachable(st) && t in st.workers
    ensures var w := st.workers[t];
      && (w.state == Running <==> w.currSched != NO_SCHED)
      && (w.state == Running ==>
            && !w.asleep && w.currSched in st.scheds
            && st.scheds[w.currSched].running && st.scheds[w.currSched].wtRunning == t
            && Awaiting(st.scheds[w.currSched].pc, t))
  {
    hide Reachable;
    WorkerFact(st, t);
    if st.workers[t].state == Running {
      SchedFact(st, st.workers[t].currSched);
    }
  }

  lemma AsleepIsNamed(st: State, s: Tid)
    requires Reachable(st) && s in st.scheds && st.scheds[s].pc.Exec? && st.scheds[s].pc.ph.Asleep?
    ensures var t := st.scheds[s].pc.t;
      t in st.workers && st.workers[t].state == Running && st.workers[t].currSched == s
  {
    hide Reachable;
    SchedFact(st, s);
  }

  /** Worker t runs, and the scheduler it names waits for it. */
  predicate RunsUnder(st: State, t: Tid) {
    && t in st.workers && st.workers[t].currSched in st.scheds
    && Awaiting(st.scheds[st.workers[t].currSched].pc, t)
  }

  lemma ThreadRunsUnder(st: State, t: Tid)
    requires Reachable(st) && ThreadRuns(st, t)
    ensures RunsUnder(st, t)
  {
    hide Reachable;
    WorkerFact(st, t);
  }

  /** A yield or an exit wakes the scheduler that waits for this worker, and no other thread moves. */
  lemma StopWakesItsScheduler(st: State, step: Step, t: Tid)
    requires Reachable(st) && (step == Yield(t) || step == Exit(t)) && Enabled(st, step)
    ensures RunsUnder(st, t)
    ensures var s, st' := st.workers[t].currSched, Apply(st, step);
      && st'.scheds.Keys == st.scheds.Keys
      && st'.scheds[s].pc == Exec(t, st.scheds[s].pc.batch, Waiting)
      && forall x :: x in st.scheds && x != s ==> st'.scheds[x] == st.scheds[x]
  {
    hide Reachable;
    ThreadRunsUnder(st, t);
  }

  // ---- ownership ----

  /** No two schedulers ever hold the same worker, whatever lists they took it from, and none holds it twice. */
  lemma ExclusiveOwnership(st: State, s: Tid, t: Tid)
    requires Reachable(st) && s in st.scheds && t in Held(st.scheds[s].pc)
    ensures t in st.workers && st.workers[t].lock == s && st.scheds[s].clid in st.workers[t].clids
    ensures forall x :: x in st.scheds && x != s ==> t !in Held(st.scheds[x].pc)
    ensures multiset(Held(st.scheds[s].pc))[t] == 1
  {
    hide Reachable;
    HeldFact(st, s, t);
    forall x | x in st.scheds && t in Held(st.scheds[x].pc) ensures x == s {
      HeldFact(st, x, t);
    }
    SchedFact(st, s);
    DistinctOnce(Held(st.scheds[s].pc), t);
  }

  lemma DistinctOnce(h: seq<Tid>, t: Tid)
    requires Distinct(h) && t in h
    ensures multiset(h)[t] == 1
  {
    var i :| 0 <= i < |h| && h[i] == t;
    assert h == h[..i] + [t] + h[i + 1..];
    assert t !in h[..i] && t !in h[i + 1..];
  }

  /** Locked is the same as held, and what is held and not in execution is idle. */
  lemma LockedIffHeld(st: State, t: Tid)
    requires Reachable(st) && t in st.workers
    ensures st.workers[t].lock != FREE <==> exists s :: s in st.scheds && t in Held(st.scheds[s].pc)
    ensures st.workers[t].lock == FREE ==> st.workers[t].state != Running
  {
    hide Reachable;
    WorkerFact(st, t);
    forall s | s in st.scheds && t in Held(st.scheds[s].pc) ensures st.workers[t].lock == s {
      HeldFact(st, s, t);
    }
  }

  /** What a scheduler holds without running it is idle. */
  lemma PendingIdle(st: State, s: Tid, t: Tid)
    requires Reachable(st) && s in st.scheds && t in Pending(st.scheds[s].pc)
    ensures t in st.workers && st.workers[t].state == Idle
  {
    hide Reachable;
    SchedFact(st, s);
  }

  lemma BatchIdle(st: State, s: Tid, i: nat)
    requires Reachable(st) && s in st.scheds && st.scheds[s].pc.InUser? && i < |st.scheds[s].pc.batch|
    ensures st.scheds[s].pc.batch[i] in st.workers && st.workers[st.scheds[s].pc.batch[i]].state == Idle
  {
    hide Reachable;
    PendingIdle(st, s, st.scheds[s].pc.batch[i]);
  }

  /** A worker whose thread is up is RUNNING. */
  lemma RunsRunning(st: State, t: Tid)
    requires Reachable(st) && ThreadRuns(st, t)
    ensures st.workers[t].state == Running
  {
    hide Reachable;
    WorkerFact(st, t);
  }

  lemma RoomForOne(st: State)
    requires Reachable(st)
    ensures st.maxWt >= 1
  {
    hide Reachable;
    ReachableInv(st);
  }

  // ---- counters and indexes ----

  /** Every t has l in clid_list as often as l has t in its queue; the exited are on no queue. */
  lemma CrossIndex(st: State, t: Tid, l: Clid)
    requires Reachable(st) && l in st.lists
    ensures st.lists[l].queue[t] ==
      if t in st.workers && st.workers[t].state != Exiting then multiset(st.workers[t].clids)[l] else 0
  {
    hide Reachable;
    ListFact(st, l);
    assert QueueOk(st, l, t);
  }

  ghost function LiveMap(st: State, l: Clid): map<Tid, int> {
    map t | t in st.workers :: LiveCount(st, l, t)
  }

  /** nthreads(l) is the number of queue elements and the number of occurrences of l at live workers. */
  lemma LiveExact(st: State, l: Clid)
    requires Reachable(st) && l in st.lists
    ensures st.lists[l].nthreads == |st.lists[l].queue| == Total(LiveMap(st, l))
  {
    hide Reachable;
    ListFact(st, l);
    assert st.lists[l].nthreads == |st.lists[l].queue|;
    QueueTotal(st, l);
  }

  lemma QueueTotal(st: State, l: Clid)
    requires l in st.lists && forall t: Tid :: QueueOk(st, l, t)
    ensures |st.lists[l].queue| == Total(LiveMap(st, l))
  {
    var q := st.lists[l].queue;
    forall t: Tid ensures q[t] == LiveCount(st, l, t) { assert QueueOk(st, l, t); }
    hide LiveCount;
    assert LiveMap(st, l) == CountMap<Tid>(q, st.workers.Keys);
    forall t: Tid | t in q ensures t in st.workers.Keys { LiveIsWorker(st, l, t); }
    TotalOfMultiset<Tid>(q, st.workers.Keys);
  }

  lemma LiveIsWorker(st: State, l: Clid, t: Tid)
    requires LiveCount(st, l, t) > 0
    ensures t in st.workers
  {}

  /** threads_ready(l) is the number of occurrences of l that are up, at every single step. */
  lemma ReadyExact(st: State, l: Clid)
    requires Reachable(st) && l in st.lists
    ensures st.lists[l].ready == Total(UpMap(st, l))
    ensures 0 <= st.lists[l].ready <= st.lists[l].nthreads
  {
    hide Reachable, ListOk, UpMap, LiveMap;
    ListFact(st, l);
    LiveExact(st, l);
    UpTotal(st, l);
  }

  lemma UpTotal(st: State, l: Clid)
    ensures 0 <= Total(UpMap(st, l)) <= Total(LiveMap(st, l))
  {
    hide Up, LiveCount;
    TotalNonNegative(UpMap(st, l));
    forall t | t in st.workers ensures UpMap(st, l)[t] <= LiveMap(st, l)[t] {
      UpWithinLive(st, t, l);
    }
    TotalBound(UpMap(st, l), LiveMap(st, l));
  }

  lemma UpWithinLive(st: State, t: Tid, l: Clid)
    requires t in st.workers
    ensures multiset(Up(st.workers[t], t, st.scheds))[l] <= LiveCount(st, l, t)
  {
    var w := st.workers[t];
    if w.lock in st.scheds {
      match st.scheds[w.lock].pc
      case Dec(_, _, k) => if k <= |w.clids| { assert w.clids == w.clids[..k] + w.clids[k..]; }
      case Exec(_, _, Inc(k)) => if k <= |w.clids| { assert w.clids == w.clids[..k] + w.clids[k..]; }
      case _ =>
    }
  }

  /** A list whose threads_ready is 0 has no live worker that is unlocked. */
  lemma ZeroReadyAllLocked(st: State, l: Clid, t: Tid)
    requires Reachable(st) && l in st.lists && st.lists[l].ready == 0
    requires t in st.workers && st.workers[t].state != Exiting && l in st.workers[t].clids
    ensures st.workers[t].lock in st.scheds
  {
    hide Reachable;
    WorkerFact(st, t);
    ListFact(st, l);
    TotalAtLeast(UpMap(st, l), t);
  }

  /** No scheduler is in a decrement loop, or between the first increment of an execute and the unlock. */
  ghost predicate Settled(st: State) {
    forall s :: s in st.scheds ==>
      var pc := st.scheds[s].pc;
      !pc.Dec? && !(pc.Exec? && (pc.ph.Inc? || pc.ph.Wake?))
  }

  /** Then threads_ready(l) counts exactly the unlocked live workers, however many others are in execution. */
  lemma ReadyBetweenHandlers(st: State, l: Clid)
    requires Reachable(st) && l in st.lists
    requires Settled(st)
    ensures st.lists[l].ready == Total(UnlockedMap(st, l))
  {
    hide Reachable, ListOk;
    ListFact(st, l);
    forall t | t in st.workers ensures UpMap(st, l)[t] == UnlockedMap(st, l)[t] {
      QuietUp(st, t, l);
    }
    assert UpMap(st, l) == UnlockedMap(st, l);
  }

  ghost function UnlockedMap(st: State, l: Clid): map<Tid, int> {
    map t | t in st.workers :: if st.workers[t].lock == FREE then LiveCount(st, l, t) else 0
  }

  lemma QuietUp(st: State, t: Tid, l: Clid)
    requires Reachable(st) && t in st.workers
    requires Settled(st)
    ensures multiset(Up(st.workers[t], t, st.scheds))[l] == if st.workers[t].lock == FREE then LiveCount(st, l, t) else 0
  {
    hide Reachable;
    WorkerFact(st, t);
  }

  // ---- identifiers ----

  /** The worker a thread has in hand in EXECUTEUMSTHREAD is a live record that it has locked, in the phase's state. */
  lemma ExecHasWorker(st: State, s: Tid)
    requires Reachable(st) && s in st.scheds && st.scheds[s].pc.Exec?
    ensures InPhase(st, s) && st.workers[st.scheds[s].pc.t].lock == s
    ensures PhaseOk(st, s, st.scheds[s].pc)
  {
    hide Reachable;
    SchedFact(st, s);
    ReachableInv(st);
    hide Inv;
    ExecHolds(st, s);
  }

  /** So is the worker whose lists a scan is decrementing. */
  lemma DecHasWorker(st: State, s: Tid)
    requires Reachable(st) && s in st.scheds && st.scheds[s].pc.Dec?
    ensures DecWorker(st, s) && st.workers[DecTid(st, s)].lock == s && st.scheds[s].pc.k <= |DecClids(st, s)|
  {
    hide Reachable;
    SchedFact(st, s);
  }

  /** Every other tid and every clid that a request follows resolves to a live record. */
  lemma NoDangling(st: State, step: Step)
    requires Reachable(st) && Guard(st, step)
    ensures Resolves(st, step)
  {
    hide Reachable, SchedOk, WorkerOk;
    match step
    case CheckReady(s) => OwnList(st, s);
    case BeginScan(s) => OwnList(st, s);
    case Visit(s, t) => 
      OwnList(st, s);
      if t in st.lists[st.scheds[s].clid].queue { QueuedLives(st, st.scheds[s].clid, t); }
    case DecOne(s) => ListedLives(st, s, DecTid(st, s));
    case Execute(s, i) => HeldFact(st, s, st.scheds[s].pc.batch[i]);
    case IncOne(s) => ListedLives(st, s, st.scheds[s].pc.t);
    case WakeOne(s) => ListedLives(st, s, st.scheds[s].pc.t);
    case Yield(t) => RunnerLives(st, t);
    case Exit(t) => RunnerLives(st, t); ListedLives(st, st.workers[t].currSched, t);
    case _ =>
  }

  lemma OwnList(st: State, s: Tid)
    requires Reachable(st) && s in st.scheds
    ensures st.scheds[s].clid in st.lists
  {
    hide Reachable;
    SchedFact(st, s);
  }

  lemma QueuedLives(st: State, l: Clid, t: Tid)
    requires Reachable(st) && l in st.lists && t in st.lists[l].queue
    ensures t in st.workers && st.workers[t].state != Exiting
  {
    CrossIndex(st, t, l);
  }

  /** While a scheduler is left, the clid_list of every worker names live lists. */
  lemma ListedLives(st: State, s: Tid, t: Tid)
    requires Reachable(st) && s in st.scheds && t in st.workers
    ensures forall c :: c in st.workers[t].clids ==> c in st.lists
  {
    hide Reachable, SchedOk;
    SchedFact(st, s);
    WorkerFact(st, t);
  }

  lemma RunnerLives(st: State, t: Tid)
    requires Reachable(st) && ThreadRuns(st, t)
    ensures st.workers[t].currSched in st.scheds
  {
    hide Reachable;
    WorkerFact(st, t);
  }
}
