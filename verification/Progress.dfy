/** No run gets stuck, every run can finish, and no run works forever. */
module Progress {
  import opened Protocol
  import opened Invariant
  import opened Safety
  import opened Theorems
  import opened Measure
  import opened Descent

  // ---- some thread can always work ----

  /** The thread is neither in a dequeue round without a lock nor asleep on a wait queue. */
  predicate Busy(pc: PC) {
    match pc
    case Checking => false
    case Sleeping => false
    case Entering => false
    case Scanning(_, got) => got != []
    case _ => true
  }

  predicate Quiet(st: State) {
    forall s :: s in st.scheds ==> !Busy(st.scheds[s].pc)
  }

  ghost predicate Works(st: State, step: Step) {
    Closed(step) && Enabled(st, step) && !Pauses(st, step)
  }

  /** The step is taken by scheduler s or, while s sleeps in wait_worker_thread, by the worker it waits for. */
  predicate Acts(st: State, step: Step, s: Tid)
    requires s in st.scheds
  {
    match step
    case Yield(t) => st.scheds[s].pc.Exec? && st.scheds[s].pc.t == t && st.scheds[s].pc.ph.Asleep?
    case Exit(t) => st.scheds[s].pc.Exec? && st.scheds[s].pc.t == t && st.scheds[s].pc.ph.Asleep?
    case CallDequeue(x) => x == s
    case CheckReady(x) => x == s
    case BeginScan(x) => x == s
    case Visit(x, _) => x == s
    case EndScan(x) => x == s
    case DecOne(x) => x == s
    case DecDone(x) => x == s
    case Execute(x, _) => x == s
    case WaitCheck(x) => x == s
    case UpdateTime(x) => x == s
    case IncOne(x) => x == s
    case IncDone(x) => x == s
    case WakeOne(x) => x == s
    case Unlock(x) => x == s
    case Leave(x) => x == s
    case _ => false
  }

  /** A busy thread, or the worker it waits for, can take a step that counts. */
  lemma BusyWorks(st: State, s: Tid) returns (step: Step)
    requires Reachable(st) && s in st.scheds && Busy(st.scheds[s].pc)
    ensures Works(st, step) && Acts(st, step, s)
  {
    hide Reachable, Resolves;
    match st.scheds[s].pc {
      case InUser(b) => step := if b == [] then CallDequeue(s) else Execute(s, 0);
      case Scanning(_, _) => step := ScanStep(st, s);
      case Dec(_, _, k) =>
        DecHasWorker(st, s);
        step := if k < |DecClids(st, s)| then DecOne(s) else DecDone(s);
      case Exec(_, _, _) => step := ExecWorks(st, s);
      case Leaving => step := Leave(s);
    }
    NoDangling(st, step);
  }

  lemma ScanStep(st: State, s: Tid) returns (step: Step)
    requires s in st.scheds && st.scheds[s].pc.Scanning?
    ensures step == EndScan(s) || exists t :: step == Visit(s, t)
    ensures Guard(st, step)
  {
    var rest := st.scheds[s].pc.rest;
    if rest == multiset{} {
      step := EndScan(s);
    } else {
      var t :| t in rest;
      step := Visit(s, t);
    }
  }

  /** Inside EXECUTEUMSTHREAD either the scheduler thread or, while it sleeps, its worker can step. */
  lemma ExecWorks(st: State, s: Tid) returns (step: Step)
    requires Reachable(st) && s in st.scheds && st.scheds[s].pc.Exec?
    ensures Closed(step) && Guard(st, step) && !Dequeues(step) && !step.Tick? && Acts(st, step, s)
  {
    hide Reachable;
    ExecHasWorker(st, s);
    var t, ph := st.scheds[s].pc.t, st.scheds[s].pc.ph;
    var n := |ExecClids(st, s)|;
    match ph
    case Waiting => step := WaitCheck(s);
    case Asleep =>
      WorkerFact(st, t);
      step := if st.workers[t].left > 0 then Yield(t) else Exit(t);
    case Timing => step := UpdateTime(s);
    case Inc(k) => step := if k < n then IncOne(s) else IncDone(s);
    case Wake(k) => step := if k < n then WakeOne(s) else Unlock(s);
  }

  // ---- when nobody is busy, a dequeue round locks a worker or leaves ----

  lemma QuietUnlocked(st: State, t: Tid)
    requires Reachable(st) && Quiet(st) && t in st.workers
    ensures st.workers[t].lock == FREE
  {
    hide Reachable;
    WorkerFact(st, t);
  }

  /** With no worker locked, threads_ready is nthreads. */
  lemma QuietReady(st: State, l: Clid)
    requires Reachable(st) && Quiet(st) && l in st.lists
    ensures st.lists[l].ready == st.lists[l].nthreads == |st.lists[l].queue|
  {
    hide Reachable, Quiet, UpMap, LiveMap;
    LiveExact(st, l);
    ReadyExact(st, l);
    QuietMaps(st, l);
  }

  lemma QuietMaps(st: State, l: Clid)
    requires Reachable(st) && Quiet(st)
    ensures UpMap(st, l) == LiveMap(st, l)
  {
    hide Reachable, Quiet, Up, LiveCount;
    forall t | t in st.workers ensures UpMap(st, l)[t] == LiveMap(st, l)[t] {
      QuietUnlocked(st, t);
      UnlockedUp(st, l, t);
    }
  }

  lemma UnlockedUp(st: State, l: Clid, t: Tid)
    requires t in st.workers && st.workers[t].lock == FREE
    ensures multiset(Up(st.workers[t], t, st.scheds))[l] == LiveCount(st, l, t)
  {}

  lemma QuietAwake(st: State, s: Tid)
    requires Reachable(st) && Quiet(st) && s in st.scheds
    ensures !st.scheds[s].pc.Sleeping?
  {
    hide Reachable;
    if st.scheds[s].pc.Sleeping? {
      NoStrandedSleeper(st, s);
      var t :| t in st.workers && Guards(st, t, st.scheds[s].clid) && st.workers[t].lock != s;
      QuietUnlocked(st, t);
    }
  }

  /** How far the round of a quiet thread is from the next lock, or from leaving. */
  function RoundLeft(st: State, s: Tid): nat
    requires s in st.scheds && st.scheds[s].clid in st.lists
  {
    var q := st.lists[st.scheds[s].clid].queue;
    match st.scheds[s].pc
    case Entering => |q| + 1
    case Checking => |q| + 2
    case Scanning(rest, _) => if rest * q == multiset{} then |q| + 3 + |rest| else |rest|
    case _ => 0
  }

  ghost predicate ClosedRun(st: State, steps: seq<Step>) {
    ValidRun(st, steps) && forall i :: 0 <= i < |steps| ==> Closed(steps[i])
  }

  lemma RunCons(st: State, step: Step, more: seq<Step>)
    requires Enabled(st, step) && Closed(step) && ClosedRun(Apply(st, step), more)
    ensures ClosedRun(st, [step] + more) && After(st, [step] + more) == After(Apply(st, step), more)
  {
    var steps := [step] + more;
    assert steps[0] == step && steps[1..] == more;
    assert forall i :: 0 <= i < |steps| ==> Closed(steps[i]) by {
      assert forall i :: 1 <= i < |steps| ==> steps[i] == more[i - 1];
    }
  }

  /** A pause of s keeps everyone quiet and brings its round nearer to a lock. */
  ghost predicate Nears(st: State, s: Tid, step: Step)
    requires s in st.scheds && st.scheds[s].clid in st.lists && Enabled(st, step)
  {
    var st' := Apply(st, step);
    s in st'.scheds && Quiet(st') && st'.scheds[s].clid in st'.lists && RoundLeft(st', s) < RoundLeft(st, s)
  }

  lemma CheckNears(st: State, s: Tid)
    requires Quiet(st) && Enabled(st, CheckReady(s)) && st.lists[st.scheds[s].clid].nthreads >= 0
    requires st.lists[st.scheds[s].clid].ready == st.lists[st.scheds[s].clid].nthreads
    ensures Nears(st, s, CheckReady(s))
  {}

  lemma BeginNears(st: State, s: Tid)
    requires Quiet(st) && Enabled(st, BeginScan(s)) && Pauses(st, BeginScan(s))
    requires st.lists[st.scheds[s].clid].nthreads == |st.lists[st.scheds[s].clid].queue|
    ensures Nears(st, s, BeginScan(s))
  {
    var q := st.lists[st.scheds[s].clid].queue;
    assert q * q == q;
  }

  lemma EndNears(st: State, s: Tid)
    requires Quiet(st) && Enabled(st, EndScan(s)) && st.scheds[s].pc.got == [] && st.scheds[s].clid in st.lists
    ensures Nears(st, s, EndScan(s))
  {
    assert multiset{} * st.lists[st.scheds[s].clid].queue == multiset{};
  }

  lemma MissNears(st: State, s: Tid, t: Tid)
    requires Quiet(st) && Enabled(st, Visit(s, t)) && t !in st.lists[st.scheds[s].clid].queue
    ensures Nears(st, s, Visit(s, t))
  {
    var rest, q := st.scheds[s].pc.rest, st.lists[st.scheds[s].clid].queue;
    assert (rest - multiset{t}) * q == rest * q;
  }

  lemma QuietTakes(st: State, s: Tid, t: Tid)
    requires Reachable(st) && Quiet(st) && Enabled(st, Visit(s, t)) && t in st.lists[st.scheds[s].clid].queue
    ensures CanTake(st, s, t)
  {
    ReachableInv(st);
    hide Reachable, AllScheds, AllLists, AllReady, AllSleep;
    QuietUnlocked(st, t);
  }

  /** While nobody is busy, every pause of s brings its round nearer to a lock. */
  lemma PauseNears(st: State, s: Tid, step: Step)
    requires Reachable(st) && Quiet(st) && s in st.scheds && st.scheds[s].clid in st.lists
    requires Enabled(st, step) && Pauses(st, step) && !step.Tick? && step.s == s
    ensures Nears(st, s, step)
  {
    hide Reachable, Nears;
    QuietReady(st, st.scheds[s].clid);
    match step
    case CheckReady(_) => CheckNears(st, s);
    case BeginScan(_) => BeginNears(st, s);
    case EndScan(_) => EndNears(st, s);
    case Visit(_, t) =>
      if t in st.lists[st.scheds[s].clid].queue { QuietTakes(st, s, t); } else { MissNears(st, s, t); }
  }

  /** The next step of a round. */
  lemma RoundGuard(st: State, s: Tid) returns (step: Step)
    requires s in st.scheds && !Busy(st.scheds[s].pc) && !st.scheds[s].pc.Sleeping?
    ensures Closed(step) && Guard(st, step) && !step.Tick? && Acts(st, step, s)
    ensures step == CheckReady(s) || step == BeginScan(s) || step == EndScan(s) || exists t :: step == Visit(s, t)
  {
    match st.scheds[s].pc
    case Checking => step := CheckReady(s);
    case Entering => step := BeginScan(s);
    case Scanning(_, _) => step := ScanStep(st, s);
  }

  // ---- deadlock freedom and termination ----

  lemma SmallerAfterPause(a: State, b: State, c: State)
    requires Same(a, b) && Smaller(b, c)
    ensures Smaller(a, c)
  {}

  lemma {:induction false} QuietPath(st: State, s: Tid) returns (steps: seq<Step>)
    requires Reachable(st) && Quiet(st) && s in st.scheds && st.scheds[s].clid in st.lists
    ensures ClosedRun(st, steps) && Smaller(st, After(st, steps))
    decreases RoundLeft(st, s)
  {
    hide Reachable, Same, Smaller;
    QuietAwake(st, s);
    var step := RoundGuard(st, s);
    NoDangling(st, step);
    var st' := Apply(st, step);
    StepDescends(st, step);
    ReachableStep(st, step);
    var more: seq<Step> := [];
    if Pauses(st, step) {
      PauseNears(st, s, step);
      more := QuietPath(st', s);
      SmallerAfterPause(st, st', After(st', more));
    }
    RunCons(st, step, more);
    steps := [step] + more;
  }

  /**
   Deadlock freedom: as long as a scheduler is left, the threads inside the module can, without any help
   from the client, reach a state with less work left.
   */
  lemma DeadlockFree(st: State)
    requires Reachable(st) && st.scheds != map[]
    ensures exists steps :: ClosedRun(st, steps) && Smaller(st, After(st, steps))
  {
    hide Reachable, Same, Smaller;
    if Quiet(st) {
      var s :| s in st.scheds;
      OwnList(st, s);
      var steps := QuietPath(st, s);
    } else {
      var s :| s in st.scheds && Busy(st.scheds[s].pc);
      var step := BusyWorks(st, s);
      StepDescends(st, step);
      RunCons(st, step, []);
      assert After(st, [step] + []) == Apply(st, step);
    }
  }

  lemma ClosedConcat(st: State, a: seq<Step>, b: seq<Step>)
    requires ClosedRun(st, a) && ClosedRun(After(st, a), b)
    ensures ClosedRun(st, a + b) && After(st, a + b) == After(After(st, a), b)
  {
    RunConcat(st, a, b);
  }

  /** From every reachable state all schedulers can still leave UMS mode. */
  lemma {:induction false} CanFinish(st: State)
    requires Reachable(st)
    ensures exists steps :: ClosedRun(st, steps) && After(st, steps).scheds == map[]
    decreases Coarse(st), Fine(st)
  {
    hide Reachable, Coarse, Fine;
    if st.scheds == map[] {
      assert ClosedRun(st, []) && After(st, []) == st;
    } else {
      DeadlockFree(st);
      var steps :| ClosedRun(st, steps) && Smaller(st, After(st, steps));
      var mid := After(st, steps);
      ReachableRun(st, steps);
      Bounded(st);
      Bounded(mid);
      CanFinish(mid);
      var more :| ClosedRun(mid, more) && After(mid, more).scheds == map[];
      ClosedConcat(st, steps, more);
    }
  }

  lemma Bounded(st: State)
    requires Reachable(st)
    ensures 0 <= Coarse(st) && 0 <= Fine(st)
  {
    hide Coarse, Fine;
    ReachableInv(st);
    WorkNonNegative(st);
  }

  // ---- infinite runs ----

  /** f and g are an infinite run in which the client adds nothing and no thread is woken by accident. */
  ghost predicate Endless(f: nat -> State, g: nat -> Step) {
    forall i: nat :: Closed(g(i)) && Enabled(f(i), g(i)) && f(i + 1) == Apply(f(i), g(i))
  }

  ghost predicate PausesFrom(f: nat -> State, g: nat -> Step, n: nat)
    requires Endless(f, g)
  {
    forall m: nat :: n <= m ==> Pauses(f(m), g(m))
  }

  lemma {:induction false} EndlessReachable(f: nat -> State, g: nat -> Step, i: nat)
    requires Endless(f, g) && Reachable(f(0))
    ensures Reachable(f(i))
  {
    hide Reachable;
    if i > 0 {
      EndlessReachable(f, g, i - 1);
      ReachableStep(f(i - 1), g(i - 1));
    }
  }

  lemma {:induction false} EndlessShrinks(f: nat -> State, g: nat -> Step, i: nat, j: nat)
    requires Endless(f, g) && Reachable(f(0)) && i <= j
    ensures Same(f(i), f(j)) || Smaller(f(i), f(j))
    decreases j - i
  {
    hide Reachable, Coarse, Fine;
    if i < j {
      EndlessShrinks(f, g, i, j - 1);
      EndlessReachable(f, g, j - 1);
      StepDescends(f(j - 1), g(j - 1));
    }
  }

  lemma {:induction false} WorkEnds(f: nat -> State, g: nat -> Step, i: nat) returns (n: nat)
    requires Endless(f, g) && Reachable(f(0))
    ensures PausesFrom(f, g, n)
    decreases Coarse(f(i)), Fine(f(i))
  {
    hide Reachable, Coarse, Fine;
    if j: nat :| i <= j && !Pauses(f(j), g(j)) {
      EndlessShrinks(f, g, i, j);
      EndlessReachable(f, g, j);
      StepDescends(f(j), g(j));
      EndlessReachable(f, g, i);
      EndlessReachable(f, g, j + 1);
      Bounded(f(i));
      Bounded(f(j + 1));
      n := WorkEnds(f, g, j + 1);
    } else {
      n := i;
    }
  }

  /** Every endless run consists, from some point on, of dequeue rounds that lock nothing. */
  lemma FiniteWork(f: nat -> State, g: nat -> Step)
    requires Endless(f, g) && Reachable(f(0))
    ensures exists n: nat :: PausesFrom(f, g, n)
  {
    var n := WorkEnds(f, g, 0);
  }
}
