/** The steps of worker threads and of the client keep the invariant. */
module WorkerSteps {
  import opened Protocol
  import opened Invariant
  import opened Frames
  import SchedulerSteps

  // ---- UMSTHREADTYIELD ----

  /** Worker t runs, and the scheduler that runs it is awake in wait_worker_thread. */
  predicate Stopping(st: State, t: Tid) {
    && t in st.workers && st.workers[t].state == Running && st.workers[t].currSched in st.scheds
    && st.workers[t].lock == st.workers[t].currSched
    && st.scheds[st.workers[t].currSched].pc.Exec? && st.scheds[st.workers[t].currSched].pc.t == t
    && st.scheds[st.workers[t].currSched].pc.ph == Waiting
  }

  function Yielded(st: State, t: Tid): State
    requires t in st.workers && st.workers[t].left > 0
  {
    var w := st.workers[t];
    st.(workers := st.workers[t := w.(nswitches := w.nswitches + 1, state := Idle, currSched := NO_SCHED,
                                      asleep := true, left := w.left - 1)])
  }

  lemma YieldRecords(st: State, t: Tid)
    requires Stopping(st, t) && st.workers[t].left > 0
    requires SchedOk(st, st.workers[t].currSched) && WorkerOk(st, t)
    ensures var st', s := Yielded(st, t), st.workers[t].currSched;
      && Touches(st, st', s, t) && SameQueues(st, st', t)
      && (forall u :: Follows(st.scheds[s].pc, st'.scheds[s].pc, u))
      && SchedOk(st', s) && WorkerOk(st', t)
  {}

  lemma YieldReady(st: State, t: Tid)
    requires Stopping(st, t) && st.workers[t].left > 0 && AllReady(st)
    ensures AllReady(Yielded(st, t))
  {
    hide AllReady, ReadyOk;
    var st' := Yielded(st, t);
    assert forall u :: u in st.workers ==> Up(st'.workers[u], u, st'.scheds) == Up(st.workers[u], u, st.scheds);
    ReadyKept(st, st');
  }

  lemma YieldSleep(st: State, t: Tid)
    requires Stopping(st, t) && st.workers[t].left > 0 && AllSleep(st)
    ensures AllSleep(Yielded(st, t))
  {
    SleepFrame(st, Yielded(st, t));
  }

  lemma KeepYielded(st: State, t: Tid)
    requires Inv(st) && Stopping(st, t) && st.workers[t].left > 0
    ensures Inv(Yielded(st, t))
  {
    hide SchedOk, WorkerOk, AllScheds, AllWorkers, AllLists, AllReady, AllSleep, Touches, SameQueues, Follows;
    SchedAt(st, st.workers[t].currSched);
    WorkerAt(st, t);
    YieldRecords(st, t);
    YieldReady(st, t);
    YieldSleep(st, t);
    KeepTouch(st, Yielded(st, t), st.workers[t].currSched, t);
  }

  /** Whose own thread is awake is running, under a scheduler that waits for exactly this worker. */
  lemma AwakeIsRunning(st: State, t: Tid)
    requires AllWorkers(st) && ThreadRuns(st, t)
    ensures st.workers[t].state == Running && st.workers[t].currSched == st.workers[t].lock
    ensures st.workers[t].currSched in st.scheds && Awaiting(st.scheds[st.workers[t].currSched].pc, t)
  {
    assert WorkerOk(st, t);
  }

  lemma YieldMid(st: State, t: Tid)
    requires t in st.workers && st.workers[t].left > 0 && st.workers[t].state == Running
    requires st.workers[t].currSched == st.workers[t].lock
    requires st.workers[t].currSched in st.scheds && Awaiting(st.scheds[st.workers[t].currSched].pc, t)
    ensures var mid := st.(scheds := WakeThread(st.scheds, st.workers[t].currSched));
      Stopping(mid, t) && Yielded(mid, t) == DoYield(st, t)
  {}

  lemma KeepYield(st: State, t: Tid)
    requires Inv(st) && ThreadRuns(st, t) && st.workers[t].left > 0 && st.workers[t].currSched in st.scheds
    ensures Inv(DoYield(st, t))
  {
    assert AllWorkers(st);
    hide Inv, AllWorkers, Awaiting, WakeThread, Stopping;
    AwakeIsRunning(st, t);
    var mid := st.(scheds := WakeThread(st.scheds, st.workers[t].currSched));
    SchedulerSteps.KeepWake(st, st.workers[t].currSched);
    YieldMid(st, t);
    KeepYielded(mid, t);
  }

  // ---- WORKERTHREADEXIT ----

  function Exited(st: State, t: Tid): State
    requires t in st.workers
  {
    st.(workers := st.workers[t := st.workers[t].(state := Exiting, currSched := NO_SCHED)],
        lists := ExitLists(st.lists, t, st.workers[t].clids))
  }

  lemma ExitRecords(st: State, t: Tid)
    requires Stopping(st, t) && st.workers[t].left == 0
    requires SchedOk(st, st.workers[t].currSched) && WorkerOk(st, t)
    ensures var st', s := Exited(st, t), st.workers[t].currSched;
      && Touches(st, st', s, t)
      && (forall u :: Follows(st.scheds[s].pc, st'.scheds[s].pc, u))
      && SchedOk(st', s) && WorkerOk(st', t)
  {}

  /** One visit deletes every element of t, each visit decrements once: together they agree again. */
  lemma ExitQueues(st: State, t: Tid)
    requires t in st.workers && st.workers[t].state != Exiting && AllLists(st)
    ensures AllLists(Exited(st, t))
  {
    var st' := Exited(st, t);
    forall l | l in st'.lists ensures ListOk(st', l) {
      assert ListOk(st, l);
      assert QueueOk(st, l, t);
      forall u: Tid ensures QueueOk(st', l, u) { assert QueueOk(st, l, u); }
    }
  }

  lemma ExitReady(st: State, t: Tid)
    requires Stopping(st, t) && AllReady(st)
    ensures AllReady(Exited(st, t))
  {
    var st' := Exited(st, t);
    assert forall u :: u in st.workers ==> Up(st'.workers[u], u, st'.scheds) == Up(st.workers[u], u, st.scheds);
    ReadySame(st, st');
  }

  lemma ExitSleep(st: State, t: Tid)
    requires Stopping(st, t) && AllSleep(st)
    ensures AllSleep(Exited(st, t))
  {
    SleepFrame(st, Exited(st, t));
  }

  lemma KeepExited(st: State, t: Tid)
    requires Inv(st) && Stopping(st, t) && st.workers[t].left == 0
    ensures Inv(Exited(st, t))
  {
    hide SchedOk, WorkerOk, AllScheds, AllWorkers, AllLists, AllReady, AllSleep, Touches, SameQueues, Follows;
    var st', s := Exited(st, t), st.workers[t].currSched;
    SchedAt(st, s);
    WorkerAt(st, t);
    ExitRecords(st, t);
    OtherScheds(st, st', s, t);
    OtherWorkers(st, st', s, t);
    ExitQueues(st, t);
    ExitReady(st, t);
    ExitSleep(st, t);
  }

  lemma ExitMid(st: State, t: Tid)
    requires t in st.workers && st.workers[t].left == 0 && st.workers[t].state == Running
    requires st.workers[t].currSched == st.workers[t].lock
    requires st.workers[t].currSched in st.scheds && Awaiting(st.scheds[st.workers[t].currSched].pc, t)
    ensures var mid := st.(scheds := WakeThread(st.scheds, st.workers[t].currSched));
      Stopping(mid, t) && Exited(mid, t) == DoExit(st, t)
  {}

  lemma KeepExit(st: State, t: Tid)
    requires Inv(st) && ThreadRuns(st, t) && st.workers[t].left == 0 && st.workers[t].currSched in st.scheds
    ensures Inv(DoExit(st, t))
  {
    assert AllWorkers(st);
    hide Inv, AllWorkers, Awaiting, WakeThread, Stopping;
    AwakeIsRunning(st, t);
    var mid := st.(scheds := WakeThread(st.scheds, st.workers[t].currSched));
    SchedulerSteps.KeepWake(st, st.workers[t].currSched);
    ExitMid(st, t);
    KeepExited(mid, t);
  }
}
