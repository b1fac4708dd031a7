/**
 The User Mode Scheduling protocol as a transition system: the kernel records of workers, completion
 lists and schedulers, the position of every scheduler thread inside its current request, and one
 function per atomic step of a request.
 */
module Protocol {

  type Tid = nat
  type Clid = nat

  const NO_SCHED: int := -1  // curr_sched_tid of a worker nobody runs
  const FREE: int := -1      // owner of a mutex nobody holds

  datatype WorkerState = Idle | Running | Exiting

  /** A kworker_thread, its thread's task state, and three history values. */
  datatype Worker = Worker(
    state: WorkerState,
    nswitches: nat,
    lastMeasured: int,
    totalMeasured: int,
    clids: seq<Clid>,   // clid_list, most recent first
    currSched: int,
    lock: int,          // kwt->mutex: the thread that holds it, or FREE
    asleep: bool,       // the worker's own thread sits in schedule()
    left: nat,          // yields its routine still has to make before it returns
    born: int,          // history: time of creation
    execs: nat)         // history: times it was put in execution

  /** A kcompletion_list. Only the contents of the bucketed queue matter here; see module Buckets. */
  datatype CList = CList(ready: int, nthreads: int, queue: multiset<Tid>)

  /** Positions inside EXECUTEUMSTHREAD, from the wait for the worker to the end of the wake loop. */
  datatype Phase = Waiting | Asleep | Timing | Inc(k: nat) | Wake(k: nat)

  /**
   Where a scheduler thread is. `rest` are the queue elements its cursor has still to visit, `got` the
   entries of wt_ready_queue filled so far, `batch` the dequeued workers it has still to execute.
   */
  datatype PC =
    | InUser(batch: seq<Tid>)
    | Checking                                                // evaluates the wait_event condition
    | Sleeping                                                // on kcl->wt_ready_wq
    | Entering                                                // at the nthreads == 0 test
    | Scanning(rest: multiset<Tid>, got: seq<Tid>)
    | Dec(rest: multiset<Tid>, got: seq<Tid>, k: nat)         // decrement loop for the last of got
    | Exec(t: Tid, batch: seq<Tid>, ph: Phase)
    | Leaving                                                 // was answered -1

  /** A ksched_thread, its thread's position, and four history values. */
  datatype Sched = Sched(
    running: bool,
    nswitches: nat,
    wtRunning: int,
    elapsed: int,
    clid: Clid,
    pc: PC,
    entered: int,       // history: when it entered UMS mode
    sliceStart: int,    // history: when it last put a worker in execution
    sliceEnd: int,      // history: when its last slice ended
    sliceSum: int)      // history: total length of its completed slices

  /** What left the tables with destroyed records. */
  datatype Ledger = Ledger(schedSwitches: int, sliceSum: int, schedTime: int, workerSwitches: int, workerTime: int)

  datatype State = State(
    maxWt: nat,
    workers: map<Tid, Worker>,
    lists: map<Clid, CList>,
    scheds: map<Tid, Sched>,
    lastId: Clid,
    now: int,
    closing: bool,      // the client has begun to destroy lists and workers
    ledger: Ledger)

  /** One constructor per atomic step. `t` is a worker, `s` a scheduler, `l` a list. */
  datatype Step =
    | InitList
    | Create(t: Tid, budget: nat)
    | Add(t: Tid, l: Clid, late: set<Tid>)  // late: schedulers whose scan will still meet the new element
    | Enter(s: Tid, l: Clid)
    | CallDequeue(s: Tid)
    | CheckReady(s: Tid)
    | BeginScan(s: Tid)
    | Visit(s: Tid, t: Tid)
    | EndScan(s: Tid)
    | DecOne(s: Tid)
    | DecDone(s: Tid)
    | Execute(s: Tid, i: nat)
    | WaitCheck(s: Tid)
    | UpdateTime(s: Tid)
    | IncOne(s: Tid)
    | IncDone(s: Tid)
    | WakeOne(s: Tid)
    | Unlock(s: Tid)
    | Yield(t: Tid)
    | Exit(t: Tid)
    | Leave(s: Tid)
    | Spurious(s: Tid)
    | Signal(s: Tid)
    | Tick(d: nat)
    | DestroyList(l: Clid)
    | DestroyWorker(t: Tid)

  // ---- helpers shared by the steps ----

  function At(st: State, s: Tid, pc: PC): State
    requires s in st.scheds
  {
    st.(scheds := st.scheds[s := st.scheds[s].(pc := pc)])
  }

  /** wake_up_process on a scheduler thread: it matters only if the thread is asleep. */
  function Woken(pc: PC): PC {
    match pc
    case Sleeping => Checking
    case Exec(t, b, Asleep) => Exec(t, b, Waiting)
    case _ => pc
  }

  function WakeThread(scheds: map<Tid, Sched>, s: int): map<Tid, Sched>
    requires s in scheds
  {
    scheds[s := scheds[s].(pc := Woken(scheds[s].pc))]
  }

  /** wake_up_interruptible_all on the wait queue of list l. */
  function WakeList(scheds: map<Tid, Sched>, l: Clid): map<Tid, Sched> {
    map s | s in scheds ::
      if scheds[s].clid == l && scheds[s].pc.Sleeping? then scheds[s].(pc := Checking) else scheds[s]
  }

  function Without(s: seq<Tid>, i: nat): seq<Tid>
    requires i < |s|
  {
    s[..i] + s[i + 1..]
  }

  function BumpReady(lists: map<Clid, CList>, l: Clid, d: int): map<Clid, CList>
    requires l in lists
  {
    lists[l := lists[l].(ready := lists[l].ready + d)]
  }

  /** The exit loop in closed form: a list met n times loses every element of t and n from nthreads. */
  function ExitLists(lists: map<Clid, CList>, t: Tid, clids: seq<Clid>): map<Clid, CList> {
    map l | l in lists ::
      if l in clids then
        CList(lists[l].ready, lists[l].nthreads - multiset(clids)[l], lists[l].queue[t := 0])
      else lists[l]
  }

  /** The position of a scan whose cursor has not passed the place of an element of t that is added to its list. */
  function SeenBy(pc: PC, served: Clid, t: Tid, l: Clid): PC {
    if served != l then pc
    else
      match pc
      case Scanning(rest, got) => Scanning(rest + multiset{t}, got)
      case Dec(rest, got, k) => Dec(rest + multiset{t}, got, k)
      case _ => pc
  }

  function Met(x: Sched, t: Tid, l: Clid): Sched { x.(pc := SeenBy(x.pc, x.clid, t, l)) }

  function LateScans(scheds: map<Tid, Sched>, late: set<Tid>, t: Tid, l: Clid): map<Tid, Sched> {
    map s | s in scheds :: if s in late then Met(scheds[s], t, l) else scheds[s]
  }

  predicate CanTake(st: State, s: Tid, t: Tid)
    requires s in st.scheds && st.scheds[s].pc.Scanning?
    requires st.scheds[s].clid in st.lists
    requires t in st.lists[st.scheds[s].clid].queue ==> t in st.workers
  {
    && t in st.lists[st.scheds[s].clid].queue
    && |st.scheds[s].pc.got| < st.maxWt
    && st.workers[t].lock == FREE
  }

  // ---- when a step may happen ----

  /**
   The program position of the acting thread and, for client requests, what the client owes the module.
   The identifiers that a request follows are in Resolves; only the worker in hand, whose record the thread
   has a pointer to, is looked up here.
   */
  predicate Guard(st: State, step: Step) {
    match step
    case InitList => !st.closing
    case Create(t, _) => !st.closing && t !in st.workers
    case Add(t, l, late) =>
      !st.closing && l in st.lists && t in st.workers && st.workers[t].state != Exiting && st.workers[t].lock == FREE
    case Enter(s, l) => !st.closing && s !in st.scheds && l in st.lists
    case CallDequeue(s) => s in st.scheds && st.scheds[s].pc == InUser([])
    case CheckReady(s) => s in st.scheds && st.scheds[s].pc.Checking?
    case BeginScan(s) => s in st.scheds && st.scheds[s].pc.Entering?
    case Visit(s, t) => s in st.scheds && st.scheds[s].pc.Scanning? && t in st.scheds[s].pc.rest
    case EndScan(s) => s in st.scheds && st.scheds[s].pc.Scanning? && st.scheds[s].pc.rest == multiset{}
    case DecOne(s) => DecWorker(st, s) && st.scheds[s].pc.k < |DecClids(st, s)|
    case DecDone(s) => DecWorker(st, s) && st.scheds[s].pc.k == |DecClids(st, s)|
    case Execute(s, i) => s in st.scheds && st.scheds[s].pc.InUser? && i < |st.scheds[s].pc.batch|
    case WaitCheck(s) => InPhase(st, s) && st.scheds[s].pc.ph == Waiting
    case UpdateTime(s) => InPhase(st, s) && st.scheds[s].pc.ph == Timing
    case IncOne(s) => InPhase(st, s) && st.scheds[s].pc.ph.Inc? && st.scheds[s].pc.ph.k < |ExecClids(st, s)|
    case IncDone(s) => InPhase(st, s) && st.scheds[s].pc.ph.Inc? && st.scheds[s].pc.ph.k == |ExecClids(st, s)|
    case WakeOne(s) => InPhase(st, s) && st.scheds[s].pc.ph.Wake? && st.scheds[s].pc.ph.k < |ExecClids(st, s)|
    case Unlock(s) => InPhase(st, s) && st.scheds[s].pc.ph.Wake? && st.scheds[s].pc.ph.k == |ExecClids(st, s)|
    case Yield(t) => ThreadRuns(st, t) && st.workers[t].left > 0
    case Exit(t) => ThreadRuns(st, t) && st.workers[t].left == 0
    case Leave(s) => s in st.scheds && st.scheds[s].pc.Leaving?
    case Spurious(s) => s in st.scheds && Woken(st.scheds[s].pc) != st.scheds[s].pc
    case Signal(s) => s in st.scheds && st.scheds[s].pc.Sleeping?
    case Tick(_) => true
    case DestroyList(l) => st.scheds == map[] && l in st.lists
    case DestroyWorker(t) => st.scheds == map[] && st.lists == map[] && t in st.workers
  }

  /** The worker's own thread executes user code: it is not asleep and has not returned. */
  predicate ThreadRuns(st: State, t: Tid) {
    t in st.workers && !st.workers[t].asleep && st.workers[t].state != Exiting
  }

  predicate DecWorker(st: State, s: Tid) {
    && s in st.scheds && st.scheds[s].pc.Dec? && st.scheds[s].pc.got != []
    && st.scheds[s].pc.got[|st.scheds[s].pc.got| - 1] in st.workers
  }

  function DecTid(st: State, s: Tid): Tid
    requires DecWorker(st, s)
  {
    st.scheds[s].pc.got[|st.scheds[s].pc.got| - 1]
  }

  function DecClids(st: State, s: Tid): seq<Clid>
    requires DecWorker(st, s)
  {
    st.workers[DecTid(st, s)].clids
  }

  predicate InPhase(st: State, s: Tid) {
    s in st.scheds && st.scheds[s].pc.Exec? && st.scheds[s].pc.t in st.workers
  }

  function ExecClids(st: State, s: Tid): seq<Clid>
    requires InPhase(st, s)
  {
    st.workers[st.scheds[s].pc.t].clids
  }

  /** Every identifier the step follows names a live record. The original dereferences -1 otherwise. */
  predicate Resolves(st: State, step: Step)
    requires Guard(st, step)
  {
    match step
    case CheckReady(s) => st.scheds[s].clid in st.lists
    case BeginScan(s) => st.scheds[s].clid in st.lists
    case Visit(s, t) =>
      st.scheds[s].clid in st.lists && (t in st.lists[st.scheds[s].clid].queue ==> t in st.workers)
    case DecOne(s) => DecClids(st, s)[st.scheds[s].pc.k] in st.lists
    case Execute(s, i) => st.scheds[s].pc.batch[i] in st.workers
    case IncOne(s) => ExecClids(st, s)[st.scheds[s].pc.ph.k] in st.lists
    case WakeOne(s) => ExecClids(st, s)[st.scheds[s].pc.ph.k] in st.lists
    case Yield(t) => st.workers[t].currSched in st.scheds
    case Exit(t) =>
      && st.workers[t].currSched in st.scheds
      && forall c :: c in st.workers[t].clids ==> c in st.lists
    case _ => true
  }

  // ---- what a step does ----

  function DoInitList(st: State): State {
    st.(lists := st.lists[st.lastId := CList(0, 0, multiset{})], lastId := st.lastId + 1)
  }

  function DoCreate(st: State, t: Tid, budget: nat): State {
    st.(workers := st.workers[t := Worker(Idle, 0, 0, 0, [], NO_SCHED, FREE, true, budget, st.now, 0)])
  }

  function DoAdd(st: State, t: Tid, l: Clid, late: set<Tid>): State
    requires t in st.workers && l in st.lists
  {
    var w, q := st.workers[t], st.lists[l];
    st.(workers := st.workers[t := w.(clids := [l] + w.clids)],
        lists := st.lists[l := CList(q.ready + 1, q.nthreads + 1, q.queue + multiset{t})],
        scheds := LateScans(st.scheds, late, t, l))
  }

  function DoEnter(st: State, s: Tid, l: Clid): State {
    st.(scheds := st.scheds[s := Sched(false, 0, -1, 0, l, InUser([]), st.now, st.now, st.now, 0)])
  }

  function DoCheckReady(st: State, s: Tid): State
    requires s in st.scheds && st.scheds[s].clid in st.lists
  {
    var q := st.lists[st.scheds[s].clid];
    At(st, s, if q.ready > 0 || q.nthreads == 0 then Entering else Sleeping)
  }

  function DoBeginScan(st: State, s: Tid): State
    requires s in st.scheds && st.scheds[s].clid in st.lists
  {
    var q := st.lists[st.scheds[s].clid];
    At(st, s, if q.nthreads == 0 then Leaving else Scanning(q.queue, []))
  }

  function DoVisit(st: State, s: Tid, t: Tid): State
    requires s in st.scheds && st.scheds[s].pc.Scanning? && st.scheds[s].clid in st.lists
    requires t in st.lists[st.scheds[s].clid].queue ==> t in st.workers
  {
    var Scanning(rest, got) := st.scheds[s].pc;
    if CanTake(st, s, t) then
      At(st.(workers := st.workers[t := st.workers[t].(lock := s)]), s, Dec(rest - multiset{t}, got + [t], 0))
    else
      At(st, s, Scanning(rest - multiset{t}, got))
  }

  function DoEndScan(st: State, s: Tid): State
    requires s in st.scheds && st.scheds[s].pc.Scanning?
  {
    var got := st.scheds[s].pc.got;
    At(st, s, if got == [] then Checking else InUser(got))
  }

  function DoDecOne(st: State, s: Tid): State
    requires DecWorker(st, s) && st.scheds[s].pc.k < |DecClids(st, s)|
    requires DecClids(st, s)[st.scheds[s].pc.k] in st.lists
  {
    var pc := st.scheds[s].pc;
    At(st.(lists := BumpReady(st.lists, DecClids(st, s)[pc.k], -1)), s, pc.(k := pc.k + 1))
  }

  function DoDecDone(st: State, s: Tid): State
    requires s in st.scheds && st.scheds[s].pc.Dec?
  {
    At(st, s, Scanning(st.scheds[s].pc.rest, st.scheds[s].pc.got))
  }

  function DoExecute(st: State, s: Tid, i: nat): State
    requires s in st.scheds && st.scheds[s].pc.InUser? && i < |st.scheds[s].pc.batch|
    requires st.scheds[s].pc.batch[i] in st.workers
  {
    var x := st.scheds[s];
    var t := x.pc.batch[i];
    var w := st.workers[t];
    st.(workers := st.workers[t := w.(state := Running, lastMeasured := st.now, currSched := s, asleep := false, execs := w.execs + 1)],
        scheds := st.scheds[s := x.(nswitches := x.nswitches + 1, wtRunning := t, running := true, sliceStart := st.now,
                                    pc := Exec(t, Without(x.pc.batch, i), Waiting))])
  }

  function DoWaitCheck(st: State, s: Tid): State
    requires InPhase(st, s)
  {
    var Exec(t, b, _) := st.scheds[s].pc;
    At(st, s, Exec(t, b, if st.workers[t].state == Running then Asleep else Timing))
  }

  /** update_time_measured, set_kst_in_idle_state and the branch on the worker's state. */
  function DoUpdateTime(st: State, s: Tid): State
    requires InPhase(st, s)
  {
    var x := st.scheds[s];
    var Exec(t, b, _) := x.pc;
    var w := st.workers[t];
    var slice := st.now - w.lastMeasured;
    st.(workers := st.workers[t := w.(totalMeasured := w.totalMeasured + slice, lastMeasured := st.now)],
        scheds := st.scheds[s := x.(elapsed := slice, running := false, sliceEnd := st.now,
                                    sliceSum := x.sliceSum + (st.now - x.sliceStart),
                                    pc := Exec(t, b, if w.state == Idle then Inc(0) else Wake(0)))])
  }

  function DoIncOne(st: State, s: Tid): State
    requires InPhase(st, s) && st.scheds[s].pc.ph.Inc? && st.scheds[s].pc.ph.k < |ExecClids(st, s)|
    requires ExecClids(st, s)[st.scheds[s].pc.ph.k] in st.lists
  {
    var Exec(t, b, ph) := st.scheds[s].pc;
    At(st.(lists := BumpReady(st.lists, ExecClids(st, s)[ph.k], 1)), s, Exec(t, b, Inc(ph.k + 1)))
  }

  function DoIncDone(st: State, s: Tid): State
    requires s in st.scheds && st.scheds[s].pc.Exec?
  {
    At(st, s, st.scheds[s].pc.(ph := Wake(0)))
  }

  function DoWakeOne(st: State, s: Tid): State
    requires InPhase(st, s) && st.scheds[s].pc.ph.Wake? && st.scheds[s].pc.ph.k < |ExecClids(st, s)|
  {
    var x := st.scheds[s];
    var Exec(t, b, ph) := x.pc;
    st.(scheds := WakeList(st.scheds, ExecClids(st, s)[ph.k])[s := x.(pc := Exec(t, b, Wake(ph.k + 1)))])
  }

  function DoUnlock(st: State, s: Tid): State
    requires InPhase(st, s)
  {
    var Exec(t, b, _) := st.scheds[s].pc;
    At(st.(workers := st.workers[t := st.workers[t].(lock := FREE)]), s, InUser(b))
  }

  function DoYield(st: State, t: Tid): State
    requires t in st.workers && st.workers[t].left > 0 && st.workers[t].currSched in st.scheds
  {
    var w := st.workers[t];
    st.(workers := st.workers[t := w.(nswitches := w.nswitches + 1, state := Idle, currSched := NO_SCHED,
                                      asleep := true, left := w.left - 1)],
        scheds := WakeThread(st.scheds, w.currSched))
  }

  function DoExit(st: State, t: Tid): State
    requires t in st.workers && st.workers[t].currSched in st.scheds
  {
    var w := st.workers[t];
    st.(workers := st.workers[t := w.(state := Exiting, currSched := NO_SCHED)],
        lists := ExitLists(st.lists, t, w.clids),
        scheds := WakeThread(st.scheds, w.currSched))
  }

  function DoLeave(st: State, s: Tid): State
    requires s in st.scheds
  {
    var x, g := st.scheds[s], st.ledger;
    st.(scheds := st.scheds - {s},
        ledger := g.(schedSwitches := g.schedSwitches + x.nswitches, sliceSum := g.sliceSum + x.sliceSum,
                     schedTime := g.schedTime + (st.now - x.entered)))
  }

  function DoDestroyWorker(st: State, t: Tid): State
    requires t in st.workers
  {
    var w, g := st.workers[t], st.ledger;
    st.(workers := st.workers - {t}, closing := true,
        ledger := g.(workerSwitches := g.workerSwitches + SwitchesOf(w), workerTime := g.workerTime + w.totalMeasured))
  }

  /** How often the worker was switched to, as its own record shows it. */
  function SwitchesOf(w: Worker): int {
    w.nswitches + if w.state == Idle then 0 else 1
  }

  predicate Enabled(st: State, step: Step) {
    Guard(st, step) && Resolves(st, step)
  }

  function Apply(st: State, step: Step): State
    requires Enabled(st, step)
  {
    match step
    case InitList => DoInitList(st)
    case Create(t, budget) => DoCreate(st, t, budget)
    case Add(t, l, late) => DoAdd(st, t, l, late)
    case Enter(s, l) => DoEnter(st, s, l)
    case CallDequeue(s) => At(st, s, Checking)
    case CheckReady(s) => DoCheckReady(st, s)
    case BeginScan(s) => DoBeginScan(st, s)
    case Visit(s, t) => DoVisit(st, s, t)
    case EndScan(s) => DoEndScan(st, s)
    case DecOne(s) => DoDecOne(st, s)
    case DecDone(s) => DoDecDone(st, s)
    case Execute(s, i) => DoExecute(st, s, i)
    case WaitCheck(s) => DoWaitCheck(st, s)
    case UpdateTime(s) => DoUpdateTime(st, s)
    case IncOne(s) => DoIncOne(st, s)
    case IncDone(s) => DoIncDone(st, s)
    case WakeOne(s) => DoWakeOne(st, s)
    case Unlock(s) => DoUnlock(st, s)
    case Yield(t) => DoYield(st, t)
    case Exit(t) => DoExit(st, t)
    case Leave(s) => DoLeave(st, s)
    case Spurious(s) => st.(scheds := WakeThread(st.scheds, s))
    case Signal(s) => At(st, s, Entering)  // the interrupted wait falls through to the scan
    case Tick(d) => st.(now := st.now + d)
    case DestroyList(l) => st.(lists := st.lists - {l}, closing := true)
    case DestroyWorker(t) => DoDestroyWorker(st, t)
  }

  // ---- runs ----

  predicate Init(st: State) {
    && st.maxWt >= 1
    && st.workers == map[] && st.lists == map[] && st.scheds == map[]
    && st.lastId == 0 && !st.closing
    && st.ledger == Ledger(0, 0, 0, 0, 0)
  }

  predicate ValidRun(st: State, steps: seq<Step>)
    decreases |steps|
  {
    |steps| == 0 || (Enabled(st, steps[0]) && ValidRun(Apply(st, steps[0]), steps[1..]))
  }

  function After(st: State, steps: seq<Step>): State
    requires ValidRun(st, steps)
    decreases |steps|
  {
    if |steps| == 0 then st else After(Apply(st, steps[0]), steps[1..])
  }

  ghost predicate Reachable(st: State) {
    exists init, steps :: Init(init) && ValidRun(init, steps) && After(init, steps) == st
  }

  lemma OneStep(st: State, step: Step)
    requires Enabled(st, step)
    ensures ValidRun(st, [step]) && After(st, [step]) == Apply(st, step)
  {
    hide Enabled, Apply;
    var end := Apply(st, step);
    assert [step][1..] == [];
    assert ValidRun(end, []) && After(end, []) == end;
  }

  lemma {:induction false} RunConcat(st: State, a: seq<Step>, b: seq<Step>)
    requires ValidRun(st, a) && ValidRun(After(st, a), b)
    ensures ValidRun(st, a + b) && After(st, a + b) == After(After(st, a), b)
    decreases |a|
  {
    if a == [] {
      assert a + b == b;
    } else {
      assert (a + b)[1..] == a[1..] + b;
      RunConcat(Apply(st, a[0]), a[1..], b);
    }
  }
}
