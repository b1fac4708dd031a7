/** Every step that is not a pause makes the measure smaller. */
module Descent {
  import opened Totals
  import opened Protocol
  import opened Safety
  import opened Theorems
  import opened Measure

  /** What the measure owes a step. */
  ghost predicate Descends(st: State, step: Step)
    requires Enabled(st, step)
  {
    if Pauses(st, step) then Same(st, Apply(st, step)) else Smaller(st, Apply(st, step))
  }

  // ---- DEQUEUECOMPLLIST ----

  lemma VisitDescends(st: State, s: Tid, t: Tid)
    requires Reachable(st) && Enabled(st, Visit(s, t))
    ensures Descends(st, Visit(s, t))
  {
    hide Reachable;
    var Scanning(rest, got) := st.scheds[s].pc;
    if CanTake(st, s, t) {
      TakeDescends(st, s, t);
    } else {
      RankedAlike(st, s, Scanning(rest - multiset{t}, got));
    }
  }

  lemma TakeDescends(st: State, s: Tid, t: Tid)
    requires Reachable(st) && Enabled(st, Visit(s, t)) && CanTake(st, s, t)
    ensures Drops(st, DoVisit(st, s, t))
  {
    hide Reachable;
    QueuedLives(st, st.scheds[s].clid, t);
    WorkerFact(st, t);
    WorkDrops(st, DoVisit(st, s, t), t);
  }

  lemma DecOneDescends(st: State, s: Tid)
    requires Reachable(st) && Enabled(st, DecOne(s))
    ensures Drops(st, DoDecOne(st, s))
  {
    hide Reachable;
    HeldFact(st, s, DecTid(st, s));
    PendingIdle(st, s, DecTid(st, s));
    WorkDrops(st, DoDecOne(st, s), DecTid(st, s));
  }

  lemma DecDoneDescends(st: State, s: Tid)
    requires Reachable(st) && Enabled(st, DecDone(s))
    ensures Drops(st, DoDecDone(st, s))
  {
    hide Reachable;
    HeldFact(st, s, DecTid(st, s));
    PendingIdle(st, s, DecTid(st, s));
    WorkDrops(st, DoDecDone(st, s), DecTid(st, s));
  }

  lemma CheckDescends(st: State, s: Tid)
    requires Enabled(st, CheckReady(s))
    ensures Descends(st, CheckReady(s))
  {
    RankedAlike(st, s, DoCheckReady(st, s).scheds[s].pc);
  }

  lemma BeginDescends(st: State, s: Tid)
    requires Enabled(st, BeginScan(s))
    ensures Descends(st, BeginScan(s))
  {
    RankedAlike(st, s, DoBeginScan(st, s).scheds[s].pc);
  }

  lemma EndDescends(st: State, s: Tid)
    requires Enabled(st, EndScan(s))
    ensures Descends(st, EndScan(s))
  {
    RankedAlike(st, s, DoEndScan(st, s).scheds[s].pc);
  }

  lemma DequeueDescends(st: State, step: Step)
    requires Reachable(st) && Dequeues(step) && Enabled(st, step)
    ensures Descends(st, step)
  {
    hide Reachable;
    match step
    case CallDequeue(s) => RankedAlike(st, s, Checking);
    case CheckReady(s) => CheckDescends(st, s);
    case BeginScan(s) => BeginDescends(st, s);
    case Visit(s, t) => VisitDescends(st, s, t);
    case EndScan(s) => EndDescends(st, s);
    case DecOne(s) => DecOneDescends(st, s);
    case DecDone(s) => DecDoneDescends(st, s);
  }

  // ---- EXECUTEUMSTHREAD ----

  lemma ExecuteDescends(st: State, s: Tid, i: nat)
    requires Reachable(st) && Enabled(st, Execute(s, i))
    ensures Drops(st, DoExecute(st, s, i))
  {
    hide Reachable;
    var t := st.scheds[s].pc.batch[i];
    HeldFact(st, s, t);
    PendingIdle(st, s, t);
    WorkDrops(st, DoExecute(st, s, i), t);
  }

  lemma WaitCheckDescends(st: State, s: Tid)
    requires Reachable(st) && Enabled(st, WaitCheck(s))
    ensures Smaller(st, DoWaitCheck(st, s))
    ensures if st.workers[st.scheds[s].pc.t].state == Running then Coarse(DoWaitCheck(st, s)) == Coarse(st) else Drops(st, DoWaitCheck(st, s))
  {
    hide Reachable;
    ExecHasWorker(st, s);
    var t := st.scheds[s].pc.t;
    if st.workers[t].state == Running {
      RankedAlike(st, s, DoWaitCheck(st, s).scheds[s].pc);
    } else {
      WorkDrops(st, DoWaitCheck(st, s), t);
    }
  }

  lemma UpdateTimeDescends(st: State, s: Tid)
    requires Reachable(st) && Enabled(st, UpdateTime(s))
    ensures Drops(st, DoUpdateTime(st, s))
  {
    hide Reachable;
    ExecHasWorker(st, s);
    WorkDrops(st, DoUpdateTime(st, s), st.scheds[s].pc.t);
  }

  lemma IncOneDescends(st: State, s: Tid)
    requires Reachable(st) && Enabled(st, IncOne(s))
    ensures Drops(st, DoIncOne(st, s))
  {
    hide Reachable;
    ExecHasWorker(st, s);
    WorkDrops(st, DoIncOne(st, s), st.scheds[s].pc.t);
  }

  lemma IncDoneDescends(st: State, s: Tid)
    requires Reachable(st) && Enabled(st, IncDone(s))
    ensures Drops(st, DoIncDone(st, s))
  {
    hide Reachable;
    ExecHasWorker(st, s);
    WorkDrops(st, DoIncDone(st, s), st.scheds[s].pc.t);
  }

  lemma UnlockDescends(st: State, s: Tid)
    requires Reachable(st) && Enabled(st, Unlock(s))
    ensures Drops(st, DoUnlock(st, s))
  {
    hide Reachable;
    ExecHasWorker(st, s);
    WorkDrops(st, DoUnlock(st, s), st.scheds[s].pc.t);
  }

  lemma WakeOneDescends(st: State, s: Tid)
    requires Reachable(st) && Enabled(st, WakeOne(s))
    ensures Drops(st, DoWakeOne(st, s))
  {
    hide Reachable;
    ExecHasWorker(st, s);
    WorkDrops(st, DoWakeOne(st, s), st.scheds[s].pc.t);
  }

  // ---- workers and leaving ----

  lemma YieldDescends(st: State, t: Tid)
    requires Reachable(st) && Enabled(st, Yield(t))
    ensures Drops(st, DoYield(st, t))
  {
    hide Reachable;
    WorkerFact(st, t);
    var w, st' := st.workers[t], DoYield(st, t);
    var k := Cycle(|w.clids|);
    assert w.left * k == (w.left - 1) * k + k;
    WorkDrops(st, st', t);
  }

  lemma ExitDescends(st: State, t: Tid)
    requires Reachable(st) && Enabled(st, Exit(t))
    ensures Drops(st, DoExit(st, t))
  {
    hide Reachable;
    WorkerFact(st, t);
    WorkDrops(st, DoExit(st, t), t);
  }

  lemma LeaveDescends(st: State, s: Tid)
    requires Reachable(st) && Enabled(st, Leave(s))
    ensures Smaller(st, DoLeave(st, s)) && Coarse(DoLeave(st, s)) == Coarse(st)
  {
    hide Reachable;
    var st' := DoLeave(st, s);
    forall t | t in st.workers ensures Work(st'.workers[t], t, st'.scheds) == Work(st.workers[t], t, st.scheds) {
      WorkerFact(st, t);
    }
    assert WorkMap(st') == WorkMap(st);
    assert StageMap(st') == StageMap(st) - {s};
    TotalRemove(StageMap(st), s);
  }

  lemma TickSame(st: State, d: nat)
    ensures Same(st, st.(now := st.now + d))
  {
    var st' := st.(now := st.now + d);
    assert WorkMap(st') == WorkMap(st) && StageMap(st') == StageMap(st);
  }

  /** The measure theorem. */
  lemma StepDescends(st: State, step: Step)
    requires Reachable(st) && Closed(step) && Enabled(st, step)
    ensures Descends(st, step)
  {
    hide Reachable, Same, Smaller;
    if Dequeues(step) {
      DequeueDescends(st, step);
    } else {
      match step
      case Execute(s, i) => ExecuteDescends(st, s, i);
      case WaitCheck(s) => WaitCheckDescends(st, s);
      case UpdateTime(s) => UpdateTimeDescends(st, s);
      case IncOne(s) => IncOneDescends(st, s);
      case IncDone(s) => IncDoneDescends(st, s);
      case Unlock(s) => UnlockDescends(st, s);
      case WakeOne(s) => WakeOneDescends(st, s);
      case Yield(t) => YieldDescends(st, t);
      case Exit(t) => ExitDescends(st, t);
      case Leave(s) => LeaveDescends(st, s);
      case Tick(d) => TickSame(st, d);
    }
  }
}
