/** Conservation: switches and running time are the same seen from schedulers and from workers. */
module Accounts {
  import opened Totals
  import opened Protocol
  import opened Invariant
  import opened Safety
  import opened Theorems

  // ---- the accounts ----

  ghost function WorkerSwitches(st: State): map<Tid, int> { map t | t in st.workers :: SwitchesOf(st.workers[t]) }

  ghost function SchedSwitches(st: State): map<Tid, int> { map s | s in st.scheds :: st.scheds[s].nswitches as int }

  ghost function WorkerTime(st: State): map<Tid, int> { map t | t in st.workers :: st.workers[t].totalMeasured }

  ghost function SliceTime(st: State): map<Tid, int> { map s | s in st.scheds :: st.scheds[s].sliceSum }

  ghost function SchedAge(st: State): map<Tid, int> { map s | s in st.scheds :: st.now - st.scheds[s].entered }

  ghost predicate SwitchesBalance(st: State) {
    Total(SchedSwitches(st)) + st.ledger.schedSwitches == Total(WorkerSwitches(st)) + st.ledger.workerSwitches
  }

  ghost predicate TimeBalances(st: State) {
    Total(WorkerTime(st)) + st.ledger.workerTime == Total(SliceTime(st)) + st.ledger.sliceSum
  }

  /** One scheduler: its slices lie one after the other between its entry and now. */
  predicate SchedClock(st: State, s: Tid)
    requires s in st.scheds
  {
    var x := st.scheds[s];
    && x.entered <= x.sliceEnd <= st.now
    && 0 <= x.sliceSum <= x.sliceEnd - x.entered
    && (Measuring(x.pc) ==>
          && x.pc.t in st.workers && st.workers[x.pc.t].execs > 0
          && x.sliceEnd <= x.sliceStart == st.workers[x.pc.t].lastMeasured <= st.now)
  }

  /** One worker: its slices lie one after the other since its birth. */
  predicate WorkerClock(st: State, t: Tid)
    requires t in st.workers
  {
    var w := st.workers[t];
    && w.born <= st.now
    && 0 <= w.totalMeasured
    && w.execs == SwitchesOf(w)
    && (w.execs == 0 ==> w.totalMeasured == 0)
    && (w.execs > 0 ==> w.lastMeasured <= st.now && w.totalMeasured <= w.lastMeasured - w.born)
  }

  ghost predicate Books(st: State) {
    && SwitchesBalance(st) && TimeBalances(st)
    && (forall s :: s in st.scheds ==> SchedClock(st, s))
    && (forall t :: t in st.workers ==> WorkerClock(st, t))
    && st.ledger.sliceSum <= st.ledger.schedTime
  }

  // ---- frames ----

  lemma SameSwitches(st: State, st': State)
    requires SwitchesBalance(st) && st'.ledger == st.ledger
    requires st'.workers.Keys == st.workers.Keys && st'.scheds.Keys == st.scheds.Keys
    requires forall t :: t in st.workers ==> SwitchesOf(st'.workers[t]) == SwitchesOf(st.workers[t])
    requires forall s :: s in st.scheds ==> st'.scheds[s].nswitches == st.scheds[s].nswitches
    ensures SwitchesBalance(st')
  {
    assert WorkerSwitches(st') == WorkerSwitches(st);
    assert SchedSwitches(st') == SchedSwitches(st);
  }

  lemma SameTime(st: State, st': State)
    requires TimeBalances(st) && st'.ledger == st.ledger
    requires st'.workers.Keys == st.workers.Keys && st'.scheds.Keys == st.scheds.Keys
    requires forall t :: t in st.workers ==> st'.workers[t].totalMeasured == st.workers[t].totalMeasured
    requires forall s :: s in st.scheds ==> st'.scheds[s].sliceSum == st.scheds[s].sliceSum
    ensures TimeBalances(st')
  {
    assert WorkerTime(st') == WorkerTime(st);
    assert SliceTime(st') == SliceTime(st);
  }

  predicate SameEntry(a: Worker, b: Worker) {
    && b.totalMeasured == a.totalMeasured && b.lastMeasured == a.lastMeasured && b.born == a.born
    && b.execs == a.execs && SwitchesOf(b) == SwitchesOf(a)
  }

  predicate SameSlices(a: Sched, b: Sched) {
    && b.nswitches == a.nswitches && b.entered == a.entered && b.sliceStart == a.sliceStart && b.sliceEnd == a.sliceEnd && b.sliceSum == a.sliceSum
    && (Measuring(b.pc) ==> Measuring(a.pc) && b.pc.t == a.pc.t)
  }

  /** Nothing these books record has changed, and no slice has begun or ended. */
  predicate SameBooks(st: State, st': State) {
    && st'.ledger == st.ledger && st'.now >= st.now
    && st'.workers.Keys == st.workers.Keys && st'.scheds.Keys == st.scheds.Keys
    && (forall t :: t in st.workers ==> SameEntry(st.workers[t], st'.workers[t]))
    && (forall s :: s in st.scheds ==> SameSlices(st.scheds[s], st'.scheds[s]))
  }

  lemma KeepBooks(st: State, st': State)
    requires Books(st) && SameBooks(st, st')
    ensures Books(st')
  {
    SameSwitches(st, st');
    SameTime(st, st');
    forall s | s in st'.scheds ensures SchedClock(st', s) { assert SchedClock(st, s); }
    forall t | t in st'.workers ensures WorkerClock(st', t) { assert WorkerClock(st, t); }
  }

  // ---- steps that book something ----

  lemma ExecuteClocks(st: State, s: Tid, i: nat)
    requires Books(st) && Reachable(st) && Enabled(st, Execute(s, i)) && st.workers[st.scheds[s].pc.batch[i]].state == Idle
    ensures forall x :: x in st.scheds ==> SchedClock(DoExecute(st, s, i), x)
    ensures forall u :: u in st.workers ==> WorkerClock(DoExecute(st, s, i), u)
  {
    hide Reachable;
    var st', t := DoExecute(st, s, i), st.scheds[s].pc.batch[i];
    forall x | x in st.scheds ensures SchedClock(st', x) {
      assert SchedClock(st, x);
      if x != s { NotMeasured(st, s, t, x); }
    }
    forall u | u in st.workers ensures WorkerClock(st', u) { assert WorkerClock(st, u); }
  }

  lemma BookExecute(st: State, s: Tid, i: nat)
    requires Books(st) && Reachable(st) && Enabled(st, Execute(s, i))
    ensures Books(DoExecute(st, s, i))
  {
    hide Reachable, SchedClock, WorkerClock;
    BatchIdle(st, s, i);
    ExecuteSwitches(st, s, i);
    SameTime(st, DoExecute(st, s, i));
    ExecuteClocks(st, s, i);
  }

  /** A worker in the hands of s is measured by no other scheduler. */
  lemma NotMeasured(st: State, s: Tid, t: Tid, x: Tid)
    requires Reachable(st) && s in st.scheds && t in Held(st.scheds[s].pc) && x in st.scheds && x != s
    ensures Measuring(st.scheds[x].pc) ==> st.scheds[x].pc.t != t
  {
    hide Reachable;
    HeldFact(st, s, t);
    if st.scheds[x].pc.Exec? {
      var held := Held(st.scheds[x].pc);
      assert held[0] in held;
      HeldFact(st, x, held[0]);
    }
  }

  lemma ExecuteSwitches(st: State, s: Tid, i: nat)
    requires SwitchesBalance(st) && Enabled(st, Execute(s, i)) && st.workers[st.scheds[s].pc.batch[i]].state == Idle
    ensures SwitchesBalance(DoExecute(st, s, i))
  {
    var st', t := DoExecute(st, s, i), st.scheds[s].pc.batch[i];
    assert WorkerSwitches(st') == WorkerSwitches(st)[t := SwitchesOf(st.workers[t]) + 1];
    assert SchedSwitches(st') == SchedSwitches(st)[s := st.scheds[s].nswitches + 1];
    TotalSet(WorkerSwitches(st), t, SwitchesOf(st.workers[t]) + 1);
    TotalSet(SchedSwitches(st), s, st.scheds[s].nswitches + 1);
  }

  lemma UpdateClocks(st: State, s: Tid)
    requires Books(st) && Reachable(st) && Enabled(st, UpdateTime(s))
    ensures forall x :: x in st.scheds ==> SchedClock(DoUpdateTime(st, s), x)
    ensures forall u :: u in st.workers ==> WorkerClock(DoUpdateTime(st, s), u)
  {
    hide Reachable, SchedClock, WorkerClock;
    forall x | x in st.scheds ensures SchedClock(DoUpdateTime(st, s), x) {
      UpdateSchedClock(st, s, x);
    }
    forall u | u in st.workers ensures WorkerClock(DoUpdateTime(st, s), u) {
      UpdateWorkerClock(st, s, u);
    }
  }

  lemma UpdateSchedClock(st: State, s: Tid, x: Tid)
    requires Books(st) && Reachable(st) && Enabled(st, UpdateTime(s)) && x in st.scheds
    ensures SchedClock(DoUpdateTime(st, s), x)
  {
    hide Reachable, SwitchesBalance, TimeBalances;
    var t := st.scheds[s].pc.t;
    assert SchedClock(st, s) && WorkerClock(st, t) && SchedClock(st, x);
    if x != s {
      ExecHasWorker(st, s);
      NotMeasured(st, s, t, x);
    }
  }

  lemma UpdateWorkerClock(st: State, s: Tid, u: Tid)
    requires Books(st) && Enabled(st, UpdateTime(s)) && u in st.workers
    ensures WorkerClock(DoUpdateTime(st, s), u)
  {
    hide SwitchesBalance, TimeBalances;
    assert WorkerClock(st, u) && SchedClock(st, s);
  }

  lemma BookUpdateTime(st: State, s: Tid)
    requires Books(st) && Reachable(st) && Enabled(st, UpdateTime(s))
    ensures Books(DoUpdateTime(st, s))
  {
    hide Reachable, SchedClock, WorkerClock;
    SameSwitches(st, DoUpdateTime(st, s));
    SameClock(st, s);
    UpdateTotals(st, s);
    UpdateClocks(st, s);
  }

  /** The worker's stamp is still the one its scheduler took: nobody else put it in execution meanwhile. */
  lemma SameClock(st: State, s: Tid)
    requires Books(st) && Enabled(st, UpdateTime(s))
    ensures st.workers[st.scheds[s].pc.t].lastMeasured == st.scheds[s].sliceStart
  {
    hide SwitchesBalance, TimeBalances, WorkerClock;
    assert SchedClock(st, s);
  }

  lemma UpdateTotals(st: State, s: Tid)
    requires TimeBalances(st) && Enabled(st, UpdateTime(s))
    requires st.workers[st.scheds[s].pc.t].lastMeasured == st.scheds[s].sliceStart
    ensures TimeBalances(DoUpdateTime(st, s))
  {
    var st', t := DoUpdateTime(st, s), st.scheds[s].pc.t;
    var slice := st.now - st.workers[t].lastMeasured;
    assert WorkerTime(st') == WorkerTime(st)[t := st.workers[t].totalMeasured + slice];
    assert SliceTime(st') == SliceTime(st)[s := st.scheds[s].sliceSum + slice];
    TotalSet(WorkerTime(st), t, st.workers[t].totalMeasured + slice);
    TotalSet(SliceTime(st), s, st.scheds[s].sliceSum + slice);
  }

  // ---- records that come and go ----

  lemma CreateTotals(st: State, t: Tid, budget: nat)
    requires SwitchesBalance(st) && TimeBalances(st) && t !in st.workers
    ensures SwitchesBalance(DoCreate(st, t, budget)) && TimeBalances(DoCreate(st, t, budget))
  {
    var st' := DoCreate(st, t, budget);
    assert WorkerSwitches(st') == WorkerSwitches(st)[t := 0];
    assert SchedSwitches(st') == SchedSwitches(st);
    assert WorkerTime(st') == WorkerTime(st)[t := 0];
    assert SliceTime(st') == SliceTime(st);
    TotalSet(WorkerSwitches(st), t, 0);
    TotalSet(WorkerTime(st), t, 0);
  }

  lemma BookCreate(st: State, t: Tid, budget: nat)
    requires Books(st) && t !in st.workers
    ensures Books(DoCreate(st, t, budget))
  {
    var st' := DoCreate(st, t, budget);
    CreateTotals(st, t, budget);
    hide SwitchesBalance, TimeBalances;
    forall x | x in st'.scheds ensures SchedClock(st', x) { assert SchedClock(st, x); }
    forall u | u in st'.workers ensures WorkerClock(st', u) { assert u != t ==> WorkerClock(st, u); }
  }

  lemma BookEnter(st: State, s: Tid, l: Clid)
    requires Books(st) && s !in st.scheds
    ensures Books(DoEnter(st, s, l))
  {
    var st' := DoEnter(st, s, l);
    assert WorkerSwitches(st') == WorkerSwitches(st);
    assert SchedSwitches(st') == SchedSwitches(st)[s := 0];
    assert WorkerTime(st') == WorkerTime(st);
    assert SliceTime(st') == SliceTime(st)[s := 0];
    TotalSet(SchedSwitches(st), s, 0);
    TotalSet(SliceTime(st), s, 0);
    forall x | x in st'.scheds ensures SchedClock(st', x) { assert x != s ==> SchedClock(st, x); }
    forall u | u in st'.workers ensures WorkerClock(st', u) { assert WorkerClock(st, u); }
  }

  lemma BookLeave(st: State, s: Tid)
    requires Books(st) && s in st.scheds
    ensures Books(DoLeave(st, s))
  {
    var st' := DoLeave(st, s);
    assert SchedClock(st, s);
    assert WorkerSwitches(st') == WorkerSwitches(st);
    assert SchedSwitches(st') == SchedSwitches(st) - {s};
    assert WorkerTime(st') == WorkerTime(st);
    assert SliceTime(st') == SliceTime(st) - {s};
    TotalRemove(SchedSwitches(st), s);
    TotalRemove(SliceTime(st), s);
    forall x | x in st'.scheds ensures SchedClock(st', x) { assert SchedClock(st, x); }
    forall u | u in st'.workers ensures WorkerClock(st', u) { assert WorkerClock(st, u); }
  }

  lemma BookDestroyWorker(st: State, t: Tid)
    requires Books(st) && t in st.workers && st.scheds == map[]
    ensures Books(DoDestroyWorker(st, t))
  {
    var st' := DoDestroyWorker(st, t);
    assert WorkerSwitches(st') == WorkerSwitches(st) - {t};
    assert SchedSwitches(st') == SchedSwitches(st);
    assert WorkerTime(st') == WorkerTime(st) - {t};
    assert SliceTime(st') == SliceTime(st);
    TotalRemove(WorkerSwitches(st), t);
    TotalRemove(WorkerTime(st), t);
    forall u | u in st'.workers ensures WorkerClock(st', u) { assert WorkerClock(st, u); }
  }

  /** One scheduler moves, without beginning or ending a slice. */
  lemma QuietMove(st: State, s: Tid, pc: PC)
    requires s in st.scheds
    requires Measuring(pc) ==> Measuring(st.scheds[s].pc) && pc.t == st.scheds[s].pc.t
    ensures SameBooks(st, At(st, s, pc))
  {}

  lemma QuietDequeue(st: State, step: Step)
    requires Enabled(st, step) && Dequeues(step)
    ensures SameBooks(st, Apply(st, step))
  {
    hide SameBooks;
    match step
    case CallDequeue(s) => QuietMove(st, s, Checking);
    case CheckReady(s) => QuietMove(st, s, DoCheckReady(st, s).scheds[s].pc);
    case BeginScan(s) => QuietMove(st, s, DoBeginScan(st, s).scheds[s].pc);
    case Visit(s, t) => QuietVisit(st, s, t);
    case EndScan(s) => QuietMove(st, s, DoEndScan(st, s).scheds[s].pc);
    case DecOne(s) => QuietLoops(st, step);
    case DecDone(s) => QuietMove(st, s, DoDecDone(st, s).scheds[s].pc);
  }

  lemma QuietVisit(st: State, s: Tid, t: Tid)
    requires Enabled(st, Visit(s, t))
    ensures SameBooks(st, DoVisit(st, s, t))
  {}

  lemma QuietLoops(st: State, step: Step)
    requires Enabled(st, step) && (step.DecOne? || step.IncOne? || step.WakeOne? || step.Unlock?)
    ensures SameBooks(st, Apply(st, step))
  {}

  lemma QuietExecute(st: State, step: Step)
    requires Enabled(st, step) && Executes(step) && !step.Execute? && !step.UpdateTime?
    ensures SameBooks(st, Apply(st, step))
  {
    hide SameBooks;
    match step
    case WaitCheck(s) => QuietMove(st, s, DoWaitCheck(st, s).scheds[s].pc);
    case IncDone(s) => QuietMove(st, s, DoIncDone(st, s).scheds[s].pc);
    case Spurious(s) => QuietMove(st, s, Woken(st.scheds[s].pc));
    case Signal(s) => QuietMove(st, s, Entering);
    case _ => QuietLoops(st, step);
  }

  /** The steps no account takes notice of. */
  lemma QuietBooks(st: State, step: Step)
    requires Reachable(st) && Enabled(st, step)
    requires !step.Execute? && !step.UpdateTime? && !step.Create? && !step.Enter? && !step.Leave? && !step.DestroyWorker?
    ensures SameBooks(st, Apply(st, step))
  {
    hide Reachable;
    if Dequeues(step) { QuietDequeue(st, step); }
    else if Executes(step) { QuietExecute(st, step); }
    else { QuietOther(st, step); }
  }

  lemma QuietOther(st: State, step: Step)
    requires Reachable(st) && Enabled(st, step) && !Dequeues(step) && !Executes(step)
    requires !step.Create? && !step.Enter? && !step.Leave? && !step.DestroyWorker?
    ensures SameBooks(st, Apply(st, step))
  {
    hide Reachable;
    match step
    case Yield(t) => RunsRunning(st, t);
    case Exit(t) => RunsRunning(st, t);
    case _ =>
  }

  lemma BooksStep(st: State, step: Step)
    requires Reachable(st) && Books(st) && Enabled(st, step)
    ensures Books(Apply(st, step))
  {
    hide Reachable, Books, SameBooks;
    match step
    case Execute(s, i) => BookExecute(st, s, i);
    case UpdateTime(s) => BookUpdateTime(st, s);
    case Create(t, budget) => BookCreate(st, t, budget);
    case Enter(s, l) => BookEnter(st, s, l);
    case Leave(s) => BookLeave(st, s);
    case DestroyWorker(t) => BookDestroyWorker(st, t);
    case _ =>
      QuietBooks(st, step);
      KeepBooks(st, Apply(st, step));
  }

  lemma {:induction false} BooksRun(st: State, steps: seq<Step>)
    requires Reachable(st) && Books(st) && ValidRun(st, steps)
    ensures Books(After(st, steps))
    decreases |steps|
  {
    hide Reachable, Books;
    if steps != [] {
      BooksStep(st, steps[0]);
      ReachableStep(st, steps[0]);
      BooksRun(Apply(st, steps[0]), steps[1..]);
    }
  }

  lemma ReachableBooks(st: State)
    requires Reachable(st)
    ensures Books(st)
  {
    var init, steps :| Init(init) && ValidRun(init, steps) && After(init, steps) == st;
    assert ValidRun(init, []) && After(init, []) == init;
    assert Reachable(init);
    InitBooks(init);
    hide Reachable, Books;
    BooksRun(init, steps);
  }

  lemma InitBooks(st: State)
    requires Init(st)
    ensures Books(st)
  {
    assert WorkerSwitches(st).Keys == {} && SchedSwitches(st).Keys == {};
    assert WorkerTime(st).Keys == {} && SliceTime(st).Keys == {};
  }

  // ---- what the books say ----

  /** Every switch a scheduler made is a yield, an exit, or a worker still running. */
  lemma SwitchConservation(st: State)
    requires Reachable(st)
    ensures Total(SchedSwitches(st)) + st.ledger.schedSwitches == Total(WorkerSwitches(st)) + st.ledger.workerSwitches
  {
    hide Reachable;
    ReachableBooks(st);
  }

  /** The workers' running times are the schedulers' slices, which fit in the time spent in UMS mode. */
  lemma TimeConservation(st: State)
    requires Reachable(st)
    ensures Total(WorkerTime(st)) + st.ledger.workerTime == Total(SliceTime(st)) + st.ledger.sliceSum
    ensures Total(WorkerTime(st)) + st.ledger.workerTime <= Total(SchedAge(st)) + st.ledger.schedTime
  {
    hide Reachable;
    ReachableBooks(st);
    forall s | s in st.scheds ensures SliceTime(st)[s] <= SchedAge(st)[s] { assert SchedClock(st, s); }
    TotalBound(SliceTime(st), SchedAge(st));
  }

  /** No worker has run longer than it has existed; none that never ran has any time. */
  lemma WorkerTimeBound(st: State, t: Tid)
    requires Reachable(st) && t in st.workers
    ensures 0 <= st.workers[t].totalMeasured <= st.now - st.workers[t].born
  {
    hide Reachable;
    ReachableBooks(st);
    assert WorkerClock(st, t);
  }
}
