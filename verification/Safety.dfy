/** The invariant holds in every reachable state, and what follows from it. */
module Safety {
  import opened Protocol
  import opened Invariant
  import opened SchedulerSteps
  import opened WorkerSteps
  import opened ClientSteps

  // ---- the invariant is inductive ----

  lemma HeldLock(st: State, s: Tid, t: Tid)
    requires AllScheds(st) && s in st.scheds && t in Held(st.scheds[s].pc)
    ensures t in st.workers && st.workers[t].lock == s
  {
    assert SchedOk(st, s);
  }

  /** A thread inside EXECUTEUMSTHREAD on t holds the mutex of t. */
  lemma ExecHolds(st: State, s: Tid)
    requires AllScheds(st) && s in st.scheds && st.scheds[s].pc.Exec?
    ensures Executing(st, s)
  {
    var held := Held(st.scheds[s].pc);
    assert held[0] in held;
    HeldLock(st, s, held[0]);
  }

  lemma KeepVisit(st: State, s: Tid, t: Tid)
    requires Inv(st) && Enabled(st, Visit(s, t))
    ensures Inv(DoVisit(st, s, t))
  {
    if CanTake(st, s, t) {
      assert st.workers[t].state == Idle && st.scheds[s].clid in st.workers[t].clids by {
        assert QueueOk(st, st.scheds[s].clid, t) by { assert ListOk(st, st.scheds[s].clid); }
        assert WorkerOk(st, t);
      }
      hide Inv;
      KeepTake(st, s, t);
    } else {
      hide AllScheds, AllWorkers, AllLists, AllReady, AllSleep;
      KeepMiss(st, s, t);
    }
  }

  predicate Dequeues(step: Step) {
    step.CallDequeue? || step.CheckReady? || step.BeginScan? || step.Visit? || step.EndScan? || step.DecOne? || step.DecDone?
  }

  predicate Executes(step: Step) {
    || step.Execute? || step.WaitCheck? || step.UpdateTime? || step.IncOne? || step.IncDone? || step.WakeOne?
    || step.Unlock? || step.Spurious? || step.Signal?
  }

  lemma KeepDequeueing(st: State, step: Step)
    requires Inv(st) && Dequeues(step) && Enabled(st, step)
    ensures Inv(Apply(st, step))
  {
    hide AllWorkers, AllLists, AllReady, AllSleep, SchedOk;
    match step
    case CallDequeue(s) => KeepCallDequeue(st, s);
    case CheckReady(s) => KeepCheckReady(st, s);
    case BeginScan(s) => KeepBeginScan(st, s);
    case Visit(s, t) => KeepVisit(st, s, t);
    case EndScan(s) => KeepEndScan(st, s);
    case DecOne(s) =>
      HeldLock(st, s, DecTid(st, s));
      KeepDecOne(st, s);
    case DecDone(s) => KeepDecDone(st, s);
  }

  lemma KeepExecuting(st: State, step: Step)
    requires Inv(st) && Executes(step) && Enabled(st, step)
    ensures Inv(Apply(st, step))
  {
    hide AllWorkers, AllLists, AllReady, AllSleep, SchedOk;
    match step
    case Execute(s, i) =>
      HeldLock(st, s, st.scheds[s].pc.batch[i]);
      KeepExecute(st, s, i);
    case WaitCheck(s) => KeepWaitCheck(st, s);
    case UpdateTime(s) => ExecHolds(st, s); KeepUpdateTime(st, s);
    case IncOne(s) => ExecHolds(st, s); KeepIncOne(st, s);
    case IncDone(s) => KeepIncDone(st, s);
    case WakeOne(s) => ExecHolds(st, s); KeepWakeOne(st, s);
    case Unlock(s) => ExecHolds(st, s); KeepUnlock(st, s);
    case Spurious(s) => KeepWake(st, s);
    case Signal(s) => KeepSignal(st, s);
  }

  lemma KeepOther(st: State, step: Step)
    requires Inv(st) && !Dequeues(step) && !Executes(step) && Enabled(st, step)
    ensures Inv(Apply(st, step))
  {
    hide AllScheds, AllWorkers, AllLists, AllReady, AllSleep;
    match step
    case InitList => KeepInitList(st);
    case Create(t, budget) => KeepCreate(st, t, budget);
    case Add(t, l, late) => KeepAdd(st, t, l, late);
    case Enter(s, l) => KeepEnter(st, s, l);
    case Yield(t) => KeepYield(st, t);
    case Exit(t) => KeepExit(st, t);
    case Leave(s) => KeepLeave(st, s);
    case Tick(d) => KeepTick(st, d);
    case DestroyList(l) => KeepDestroyList(st, l);
    case DestroyWorker(t) => KeepDestroyWorker(st, t);
  }

  lemma KeepStep(st: State, step: Step)
    requires Inv(st) && Enabled(st, step)
    ensures Inv(Apply(st, step))
  {
    hide Inv;
    if Dequeues(step) { KeepDequeueing(st, step); }
    else if Executes(step) { KeepExecuting(st, step); }
    else { KeepOther(st, step); }
  }

  lemma {:induction false} KeepRun(st: State, steps: seq<Step>)
    requires Inv(st) && ValidRun(st, steps)
    ensures Inv(After(st, steps))
    decreases |steps|
  {
    hide Inv;
    if steps != [] {
      KeepStep(st, steps[0]);
      KeepRun(Apply(st, steps[0]), steps[1..]);
    }
  }

  lemma ReachableInv(st: State)
    requires Reachable(st)
    ensures Inv(st)
  {
    var init, steps :| Init(init) && ValidRun(init, steps) && After(init, steps) == st;
    assert Inv(init);
    KeepRun(init, steps);
  }

  // ---- the parts of the invariant, one by one ----

  lemma SchedFact(st: State, s: Tid)
    requires Reachable(st) && s in st.scheds
    ensures SchedOk(st, s) && !st.closing
  {
    hide Reachable;
    ReachableInv(st);
  }

  lemma WorkerFact(st: State, t: Tid)
    requires Reachable(st) && t in st.workers
    ensures WorkerOk(st, t)
  {
    hide Reachable;
    ReachableInv(st);
  }

  lemma ListFact(st: State, l: Clid)
    requires Reachable(st) && l in st.lists
    ensures ListOk(st, l) && ReadyOk(st, l)
  {
    hide Reachable;
    ReachableInv(st);
  }

  lemma HeldFact(st: State, s: Tid, t: Tid)
    requires Reachable(st) && s in st.scheds && t in Held(st.scheds[s].pc)
    ensures t in st.workers && st.workers[t].lock == s
  {
    SchedFact(st, s);
  }

  lemma ReachableStep(st: State, step: Step)
    requires Reachable(st) && Enabled(st, step)
    ensures Reachable(Apply(st, step))
  {
    var init, steps :| Init(init) && ValidRun(init, steps) && After(init, steps) == st;
    hide Enabled, Apply;
    OneStep(st, step);
    RunConcat(init, steps, [step]);
  }

  lemma {:induction false} ReachableRun(st: State, steps: seq<Step>)
    requires Reachable(st) && ValidRun(st, steps)
    ensures Reachable(After(st, steps))
    decreases |steps|
  {
    hide Reachable;
    if steps != [] {
      ReachableStep(st, steps[0]);
      ReachableRun(Apply(st, steps[0]), steps[1..]);
    }
  }
}
