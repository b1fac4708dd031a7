/** What whole runs look like from a list's and from a worker's point of view. */
module History {
  import opened Protocol
  import opened Invariant
  import opened Safety
  import opened Theorems
  import Refinement

  // ---- the answers of DEQUEUECOMPLLIST ----

  /** No live worker belongs to list l. */
  ghost predicate Gone(st: State, l: Clid) {
    forall t :: t in st.workers && st.workers[t].state != Exiting ==> l !in st.workers[t].clids
  }

  /** The handler answers -1 exactly when no live worker belongs to the list. */
  lemma MinusOneIffGone(st: State, s: Tid)
    requires Reachable(st) && Enabled(st, BeginScan(s))
    ensures Apply(st, BeginScan(s)).scheds[s].pc == Leaving <==> Gone(st, st.scheds[s].clid)
  {
    hide Reachable;
    var l := st.scheds[s].clid;
    LiveExact(st, l);
    if st.lists[l].nthreads == 0 {
      forall t | t in st.workers && st.workers[t].state != Exiting ensures l !in st.workers[t].clids {
        CrossIndex(st, t, l);
      }
    } else {
      assert st.lists[l].queue != multiset{};
      var t :| t in st.lists[l].queue;
      CrossIndex(st, t, l);
    }
  }

  /**
   A scan that ends answers with a batch of 1 to MAX_WT distinct idle workers of the list, which are exactly
   the ones the caller has locked, or goes back to waiting. It never answers 0.
   */
  lemma PositiveAnswer(st: State, s: Tid)
    requires Reachable(st) && Enabled(st, EndScan(s))
    ensures var st' := Apply(st, EndScan(s));
      match st'.scheds[s].pc
      case InUser(batch) =>
        && 1 <= |batch| <= st.maxWt && Distinct(batch)
        && (forall t :: t in st'.workers ==> (t in batch <==> st'.workers[t].lock == s))
        && forall t :: t in batch ==>
             t in st'.workers && st'.workers[t].state == Idle && st.scheds[s].clid in st'.workers[t].clids
      case Checking => st.scheds[s].pc.got == []
      case _ => false
  {
    hide Reachable;
    SchedFact(st, s);
    forall t | t in st.workers && st.workers[t].lock == s ensures t in st.scheds[s].pc.got {
      WorkerFact(st, t);
    }
  }

  lemma GoneStep(st: State, step: Step, l: Clid)
    requires Gone(st, l) && Enabled(st, step) && (step.Add? ==> step.l != l)
    requires Reachable(st)
    ensures Gone(Apply(st, step), l)
  {
    hide Reachable;
    var st' := Apply(st, step);
    forall t | t in st'.workers && st'.workers[t].state != Exiting ensures l !in st'.workers[t].clids {
      if t in st.workers {
        WorkerMoves(st, step, t);
        AddOnly(st, step, t, l);
      }
    }
  }

  lemma AddOnly(st: State, step: Step, t: Tid, l: Clid)
    requires Enabled(st, step) && t in st.workers && t in Apply(st, step).workers && (step.Add? ==> step.l != l)
    ensures l in Apply(st, step).workers[t].clids <==> l in st.workers[t].clids
  {
    if !step.Add? { SameMembership(st, step, t); }
  }

  lemma SameMembership(st: State, step: Step, t: Tid)
    requires Enabled(st, step) && t in st.workers && t in Apply(st, step).workers && !step.Add?
    ensures Apply(st, step).workers[t].clids == st.workers[t].clids
  {
    if Dequeues(step) {
    } else if Executes(step) {
    } else {
    }
  }

  lemma {:induction false} GoneRun(st: State, steps: seq<Step>, l: Clid)
    requires Reachable(st) && Gone(st, l) && ValidRun(st, steps)
    requires forall i :: 0 <= i < |steps| && steps[i].Add? ==> steps[i].l != l
    ensures Gone(After(st, steps), l)
    decreases |steps|
  {
    hide Reachable, Gone;
    if steps != [] {
      GoneStep(st, steps[0], l);
      ReachableStep(st, steps[0]);
      assert forall i :: 0 <= i < |steps[1..]| ==> steps[1..][i] == steps[i + 1];
      GoneRun(Apply(st, steps[0]), steps[1..], l);
    }
  }

  /** Once a list answers -1 it answers -1 forever, to every scheduler, unless a worker is added to it. */
  lemma MinusOneForever(st: State, s: Tid, steps: seq<Step>, x: Tid)
    requires Reachable(st) && Enabled(st, BeginScan(s)) && Apply(st, BeginScan(s)).scheds[s].pc == Leaving
    requires ValidRun(st, steps) && forall i :: 0 <= i < |steps| && steps[i].Add? ==> steps[i].l != st.scheds[s].clid
    requires Enabled(After(st, steps), BeginScan(x)) && After(st, steps).scheds[x].clid == st.scheds[s].clid
    ensures Apply(After(st, steps), BeginScan(x)).scheds[x].pc == Leaving
  {
    hide Reachable, Gone;
    MinusOneIffGone(st, s);
    GoneRun(st, steps, st.scheds[s].clid);
    ReachableRun(st, steps);
    MinusOneIffGone(After(st, steps), x);
  }

  // ---- the life of a worker ----

  /** IDLE to RUNNING by an execute, RUNNING to IDLE by a yield, RUNNING to EXITING by an exit. */
  predicate LegalMove(a: WorkerState, b: WorkerState) {
    (a == Idle && b == Running) || (a == Running && b == Idle) || (a == Running && b == Exiting)
  }

  /** What one step may do to worker t. */
  predicate Moves(a: Worker, b: Worker) {
    if b.state == a.state then b.nswitches == a.nswitches && b.left == a.left && b.execs == a.execs
    else
      && LegalMove(a.state, b.state)
      && b.execs == a.execs + (if b.state == Running then 1 else 0)
      && b.nswitches == a.nswitches + (if b.state == Idle then 1 else 0)
      && b.left + b.nswitches == a.left + a.nswitches
      && (b.state == Exiting ==> b.left == 0)
  }

  lemma DequeueMoves(st: State, step: Step, t: Tid)
    requires Enabled(st, step) && Dequeues(step) && t in st.workers && t in Apply(st, step).workers
    ensures Moves(st.workers[t], Apply(st, step).workers[t])
  {}

  lemma ExecuteMoves(st: State, step: Step, t: Tid)
    requires Reachable(st) && Enabled(st, step) && Executes(step) && t in st.workers && t in Apply(st, step).workers
    ensures Moves(st.workers[t], Apply(st, step).workers[t])
  {
    hide Reachable;
    if step.Execute? {
      BatchIdle(st, step.s, step.i);
    } else {
      RunMoves(st, step, t);
    }
  }

  lemma RunMoves(st: State, step: Step, t: Tid)
    requires Enabled(st, step) && Executes(step) && !step.Execute? && t in st.workers && t in Apply(st, step).workers
    ensures Moves(st.workers[t], Apply(st, step).workers[t])
  {}

  lemma WorkerMoves(st: State, step: Step, t: Tid)
    requires Reachable(st) && Enabled(st, step) && t in st.workers && t in Apply(st, step).workers
    ensures Moves(st.workers[t], Apply(st, step).workers[t])
  {
    hide Reachable;
    if Dequeues(step) { DequeueMoves(st, step, t); }
    else if Executes(step) { ExecuteMoves(st, step, t); }
    else { OtherMoves(st, step, t); }
  }

  lemma OtherMoves(st: State, step: Step, t: Tid)
    requires Reachable(st) && Enabled(st, step) && !Dequeues(step) && !Executes(step)
    requires t in st.workers && t in Apply(st, step).workers
    ensures Moves(st.workers[t], Apply(st, step).workers[t])
  {
    hide Reachable;
    match step
    case Yield(u) => RunsRunning(st, u);
    case Exit(u) => RunsRunning(st, u);
    case _ =>
  }

  predicate NeverDestroyed(steps: seq<Step>, t: Tid) {
    forall i :: 0 <= i < |steps| ==> steps[i] != DestroyWorker(t)
  }

  lemma StaysInTable(st: State, step: Step, t: Tid)
    requires Enabled(st, step) && t in st.workers && step != DestroyWorker(t)
    ensures t in Apply(st, step).workers
  {
    if Dequeues(step) {
    } else if Executes(step) {
    } else {
    }
  }

  /** The states worker t enters during a run, in order. */
  ghost function StatesEntered(st: State, steps: seq<Step>, t: Tid): seq<WorkerState>
    requires ValidRun(st, steps) && t in st.workers && NeverDestroyed(steps, t)
    decreases |steps|
  {
    if |steps| == 0 then []
    else
      StaysInTable(st, steps[0], t);
      assert NeverDestroyed(steps[1..], t) by { assert forall i :: 0 <= i < |steps[1..]| ==> steps[1..][i] == steps[i + 1]; }
      var st' := Apply(st, steps[0]);
      var more := StatesEntered(st', steps[1..], t);
      if st'.workers[t].state == st.workers[t].state then more else [st'.workers[t].state] + more
  }

  /** From state a the states in h are entered one after the other, each by a legal move. */
  predicate LegalLife(a: WorkerState, h: seq<WorkerState>)
    decreases |h|
  {
    |h| == 0 || (LegalMove(a, h[0]) && LegalLife(h[0], h[1..]))
  }

  /**
   Every worker's life is IDLE (RUNNING IDLE)* [RUNNING [EXITING]]; it is switched out once for every return
   to IDLE, executed once for every RUNNING, and yields exactly as often as its routine wants.
   */
  lemma {:induction false} WorkerLife(st: State, steps: seq<Step>, t: Tid)
    requires Reachable(st) && ValidRun(st, steps) && t in st.workers && NeverDestroyed(steps, t)
    ensures t in After(st, steps).workers
    ensures var h, a, b := StatesEntered(st, steps, t), st.workers[t], After(st, steps).workers[t];
      && LegalLife(a.state, h)
      && b.state == (if h == [] then a.state else h[|h| - 1])
      && b.nswitches == a.nswitches + multiset(h)[Idle]
      && b.execs == a.execs + multiset(h)[Running]
      && b.left + b.nswitches == a.left + a.nswitches
    decreases |steps|
  {
    hide Reachable;
    if steps != [] {
      var st' := Apply(st, steps[0]);
      StaysInTable(st, steps[0], t);
      assert forall i :: 0 <= i < |steps[1..]| ==> steps[1..][i] == steps[i + 1];
      ReachableStep(st, steps[0]);
      WorkerMoves(st, steps[0], t);
      WorkerLife(st', steps[1..], t);
      LifeGoesOn(st.workers[t].state, st'.workers[t].state, StatesEntered(st', steps[1..], t));
    }
  }

  lemma LifeGoesOn(a: WorkerState, b: WorkerState, more: seq<WorkerState>)
    requires LegalLife(b, more)
    ensures LegalMove(a, b) ==> LegalLife(a, [b] + more)
    ensures multiset([b] + more)[Idle] == multiset(more)[Idle] + if b == Idle then 1 else 0
    ensures multiset([b] + more)[Running] == multiset(more)[Running] + if b == Running then 1 else 0
    ensures ([b] + more)[|more|] == if more == [] then b else more[|more| - 1]
  {
    assert ([b] + more)[1..] == more;
  }

  /** A worker whose routine yields n times exits after n switches and n + 1 executions. */
  lemma RoutineRunsOut(st: State, t: Tid, n: nat, steps: seq<Step>)
    requires Reachable(st) && Enabled(st, Create(t, n))
    requires ValidRun(Apply(st, Create(t, n)), steps) && NeverDestroyed(steps, t)
    ensures t in After(Apply(st, Create(t, n)), steps).workers
    ensures var w := After(Apply(st, Create(t, n)), steps).workers[t];
      && w.nswitches <= n
      && (w.state == Exiting ==> w.nswitches == n && w.execs == n + 1)
  {
    hide Reachable;
    var born := Apply(st, Create(t, n));
    ReachableStep(st, Create(t, n));
    WorkerLife(born, steps, t);
    ReachableRun(born, steps);
    WorkerFact(After(born, steps), t);
    var h := StatesEntered(born, steps, t);
    if h != [] && h[|h| - 1] == Exiting { ExitedLife(Idle, h); }
  }

  /** Before it exits a life alternates, so it has one RUNNING more than it has IDLE, or as many if it began RUNNING. */
  lemma {:induction false} ExitedLife(a: WorkerState, h: seq<WorkerState>)
    requires LegalLife(a, h) && h != [] && h[|h| - 1] == Exiting
    ensures multiset(h)[Running] == multiset(h)[Idle] + if a == Idle then 1 else 0
    ensures a != Exiting
    decreases |h|
  {
    assert h == [h[0]] + h[1..];
    if |h| > 1 {
      ExitedLife(h[0], h[1..]);
    } else {
      assert h == [Exiting];
    }
  }

  /** From the end of the wait to the unlock nothing changes the state of the worker in hand. */
  lemma FrozenInTail(st: State, s: Tid, step: Step)
    requires Reachable(st) && Enabled(st, step)
    requires s in st.scheds && st.scheds[s].pc.Exec? && !st.scheds[s].pc.ph.Waiting? && !st.scheds[s].pc.ph.Asleep?
    ensures var t := st.scheds[s].pc.t;
      t in st.workers && t in Apply(st, step).workers && Apply(st, step).workers[t].state == st.workers[t].state
  {
    hide Reachable;
    var t := st.scheds[s].pc.t;
    ExecHasWorker(st, s);
    SchedFact(st, s);
    WorkerFact(st, t);
    match step
    case Execute(x, i) => HeldFact(st, x, st.scheds[x].pc.batch[i]);
    case _ =>
  }
}
