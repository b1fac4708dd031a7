/** What single operations do to the threads and records around them, told without the functions that do it. */
module Effects {
  import opened Protocol
  import opened Invariant
  import opened Safety
  import opened Theorems
  import opened Accounts
  import opened Answers
  import History

  // ---- who changes what ----

  /** The step is one of scheduler s's own. */
  predicate OwnStep(step: Step, s: Tid) {
    (Dequeues(step) || (Executes(step) && !step.Spurious? && !step.Signal?)) && step.s == s
  }

  /** A wake reaches s: of its wait queue, by its worker, by accident, or by a signal. */
  predicate WakeReaches(st: State, step: Step, s: Tid)
    requires Enabled(st, step) && s in st.scheds
  {
    match step
    case WakeOne(x) => ExecClids(st, x)[st.scheds[x].pc.ph.k] == st.scheds[s].clid && st.scheds[s].pc.Sleeping?
    case Yield(t) => st.workers[t].currSched == s
    case Exit(t) => st.workers[t].currSched == s
    case Spurious(x) => x == s
    case Signal(x) => x == s
    case _ => false
  }

  /** The new queue element is put before the cursor of s. */
  predicate MeetsLate(step: Step, s: Tid, clid: Clid) {
    step.Add? && s in step.late && step.l == clid
  }

  /**
   The record of a scheduler changes only by its own steps, and its position also by a wake that reaches it and
   by an element put before its cursor.
   */
  lemma SchedChanges(st: State, step: Step, s: Tid)
    requires Enabled(st, step) && s in st.scheds && s in Apply(st, step).scheds && !OwnStep(step, s)
    ensures Apply(st, step).scheds[s].(pc := st.scheds[s].pc) == st.scheds[s]
    ensures !WakeReaches(st, step, s) && !MeetsLate(step, s, st.scheds[s].clid) ==> Apply(st, step).scheds[s] == st.scheds[s]
  {
    if Dequeues(step) {
    } else if Executes(step) {
    } else {
    }
  }

  /** elapsed_wt_running is touched by the end of the scheduler's own slice only. */
  lemma ElapsedChanges(st: State, step: Step, s: Tid)
    requires Enabled(st, step) && s in st.scheds && s in Apply(st, step).scheds && step != UpdateTime(s)
    ensures Apply(st, step).scheds[s].elapsed == st.scheds[s].elapsed
  {
    if !OwnStep(step, s) {
      SchedChanges(st, step, s);
    }
  }

  lemma SchedsComeAndGo(st: State, step: Step, s: Tid)
    requires Enabled(st, step)
    ensures s in st.scheds && s !in Apply(st, step).scheds ==> step == Leave(s)
    ensures s !in st.scheds && s in Apply(st, step).scheds ==> step.Enter? && step.s == s
  {
    if Dequeues(step) {
    } else if Executes(step) {
    } else {
    }
  }

  /** A scheduler enters with nothing in hand and nothing run, and can dequeue. */
  lemma EntersIdle(st: State, s: Tid, l: Clid)
    requires Reachable(st) && Enabled(st, Enter(s, l))
    ensures var st' := Apply(st, Enter(s, l));
      && Enabled(st', CallDequeue(s))
      && var x := st'.scheds[s];
         x.clid == l && !x.running && x.nswitches == 0 && x.elapsed == 0 && x.entered == st.now && x.sliceSum == 0
  {}

  /** The step concerns worker t: who adds it, takes it, runs it, measures it, gives it back, or its own thread. */
  predicate Concerns(st: State, step: Step, t: Tid)
    requires Enabled(st, step)
  {
    match step
    case Add(u, _, _) => u == t
    case Visit(s, u) => u == t && CanTake(st, s, t)
    case Execute(s, i) => st.scheds[s].pc.batch[i] == t
    case UpdateTime(s) => st.scheds[s].pc.t == t
    case Unlock(s) => st.scheds[s].pc.t == t
    case Yield(u) => u == t
    case Exit(u) => u == t
    case _ => false
  }

  /** Each field of a worker's record is changed by its own kind of step only. */
  predicate FieldsOf(step: Step, w: Worker, w': Worker) {
    && (w'.clids != w.clids ==> step.Add?)
    && (w'.lock != w.lock ==> step.Visit? || step.Unlock?)
    && (w'.totalMeasured != w.totalMeasured ==> step.UpdateTime?)
    && (w'.nswitches != w.nswitches ==> step.Yield?)
    && (w'.asleep != w.asleep ==> step.Execute? || step.Yield?)
    && w'.born == w.born
  }

  lemma WorkerDequeue(st: State, step: Step, t: Tid)
    requires Enabled(st, step) && Dequeues(step) && t in st.workers && t in Apply(st, step).workers
    ensures !Concerns(st, step, t) ==> Apply(st, step).workers[t] == st.workers[t]
    ensures FieldsOf(step, st.workers[t], Apply(st, step).workers[t])
  {}

  lemma WorkerExecute(st: State, step: Step, t: Tid)
    requires Enabled(st, step) && Executes(step) && t in st.workers && t in Apply(st, step).workers
    ensures !Concerns(st, step, t) ==> Apply(st, step).workers[t] == st.workers[t]
    ensures FieldsOf(step, st.workers[t], Apply(st, step).workers[t])
  {}

  /** A worker's record changes only by steps that concern it, and each field only by its own kind. */
  lemma WorkerChanges(st: State, step: Step, t: Tid)
    requires Enabled(st, step) && t in st.workers && t in Apply(st, step).workers
    ensures !Concerns(st, step, t) ==> Apply(st, step).workers[t] == st.workers[t]
    ensures FieldsOf(step, st.workers[t], Apply(st, step).workers[t])
  {
    if Dequeues(step) {
      WorkerDequeue(st, step, t);
    } else if Executes(step) {
      WorkerExecute(st, step, t);
    }
  }

  /** A list changes only by adds to it, by the counter loops that meet it, and by the exit of a worker on it. */
  lemma ListChanges(st: State, step: Step, l: Clid)
    requires Reachable(st) && Enabled(st, step) && l in st.lists && l in Apply(st, step).lists
    ensures var q, q' := st.lists[l], Apply(st, step).lists[l];
      && (q'.ready != q.ready ==>
            || (step.Add? && step.l == l)
            || (step.DecOne? && DecClids(st, step.s)[st.scheds[step.s].pc.k] == l)
            || (step.IncOne? && ExecClids(st, step.s)[st.scheds[step.s].pc.ph.k] == l))
      && (q'.nthreads != q.nthreads || q'.queue != q.queue ==>
            || (step.Add? && step.l == l)
            || (step.Exit? && l in st.workers[step.t].clids))
  {
    hide Reachable;
    if Dequeues(step) {
    } else if Executes(step) {
    } else if step.InitList? {
      ListFact(st, l);
    } else {
    }
  }

  // ---- wakes ----

  /** wake_up on l sends every sleeper of l, and nobody else, back to its condition. */
  lemma WakeOneWakes(st: State, s: Tid, x: Tid)
    requires Enabled(st, WakeOne(s)) && x in st.scheds && x != s
    ensures x in Apply(st, WakeOne(s)).scheds
    ensures var l, y := ExecClids(st, s)[st.scheds[s].pc.ph.k], Apply(st, WakeOne(s)).scheds[x];
      if st.scheds[x].clid == l && st.scheds[x].pc.Sleeping? then y == st.scheds[x].(pc := Checking) else y == st.scheds[x]
  {}

  lemma TwoSteps(st: State, a: Step, b: Step)
    requires Enabled(st, a) && Enabled(Apply(st, a), b)
    ensures ValidRun(st, [a, b]) && After(st, [a, b]) == Apply(Apply(st, a), b)
  {
    hide Enabled, Apply;
    OneStep(Apply(st, a), b);
    assert [a, b][1..] == [b];
  }

  /**
   A stray wake on the wait queue makes the thread look at its condition again: it is asleep as before if the
   condition is false, and goes on to the scan if it is true.
   */
  lemma StrayWakeRechecks(st: State, s: Tid)
    requires Reachable(st) && Enabled(st, Spurious(s)) && st.scheds[s].pc.Sleeping?
    ensures ValidRun(st, [Spurious(s), CheckReady(s)]) && st.scheds[s].clid in st.lists
    ensures var q, end := st.lists[st.scheds[s].clid], After(st, [Spurious(s), CheckReady(s)]);
      if q.ready > 0 || q.nthreads == 0 then end == At(st, s, Entering) else end == st
  {
    hide Reachable;
    OwnList(st, s);
    TwoSteps(st, Spurious(s), CheckReady(s));
    assert st.scheds[s := st.scheds[s]] == st.scheds;
  }

  /** In wait_worker_thread it finds its worker still running and sleeps on. */
  lemma StrayWakeWaitsOn(st: State, s: Tid)
    requires Reachable(st) && Enabled(st, Spurious(s)) && st.scheds[s].pc.Exec?
    ensures ValidRun(st, [Spurious(s), WaitCheck(s)]) && After(st, [Spurious(s), WaitCheck(s)]) == st
  {
    hide Reachable;
    ExecHasWorker(st, s);
    TwoSteps(st, Spurious(s), WaitCheck(s));
    assert st.scheds[s := st.scheds[s]] == st.scheds;
  }

  /**
   An interrupted wait falls through to get_wt_ready_queue without anybody's wake: the thread is answered -1
   exactly if no live worker is on the list, and otherwise scans the whole queue.
   */
  lemma InterruptedWait(st: State, s: Tid)
    requires Reachable(st) && Enabled(st, Signal(s))
    ensures ValidRun(st, [Signal(s), BeginScan(s)]) && s in st.scheds && st.scheds[s].clid in st.lists
    ensures var l, end := st.scheds[s].clid, After(st, [Signal(s), BeginScan(s)]);
      && s in end.scheds && end == At(st, s, end.scheds[s].pc)
      && (end.scheds[s].pc == Leaving <==> History.Gone(st, l))
      && (end.scheds[s].pc != Leaving ==> end.scheds[s].pc == Scanning(st.lists[l].queue, []))
  {
    hide Reachable;
    OwnList(st, s);
    ReachableStep(st, Signal(s));
    TwoSteps(st, Signal(s), BeginScan(s));
    var mid := Apply(st, Signal(s));
    assert mid.workers == st.workers && mid.lists == st.lists;
    History.MinusOneIffGone(mid, s);
  }

  // ---- adds while scans are under way ----

  /** The cursor of s is in list l. */
  predicate Scans(st: State, s: Tid, l: Clid) {
    s in st.scheds && st.scheds[s].clid == l && (st.scheds[s].pc.Scanning? || st.scheds[s].pc.Dec?)
  }

  /**
   A scan that an added element is put before has it to visit, once more than before, and nothing else about it
   changes; whoever does not scan the list, or has passed the place, has an unchanged record.
   */
  lemma LateIsSeen(st: State, t: Tid, l: Clid, late: set<Tid>, s: Tid)
    requires Enabled(st, Add(t, l, late)) && s in st.scheds
    ensures var x, y := st.scheds[s], Apply(st, Add(t, l, late)).scheds[s];
      if s in late && Scans(st, s, l) then
        && y == x.(pc := y.pc)
        && y.pc.Scanning? == x.pc.Scanning? && y.pc.Dec? == x.pc.Dec?
        && y.pc.got == x.pc.got && (x.pc.Dec? ==> y.pc.k == x.pc.k)
        && y.pc.rest[t] == x.pc.rest[t] + 1 && forall u :: u != t ==> y.pc.rest[u] == x.pc.rest[u]
      else y == x
  {}

  /** It can visit it at once if it is between two elements, and then locks t if there is room. */
  lemma LateIsVisited(st: State, t: Tid, l: Clid, late: set<Tid>, s: Tid)
    requires Reachable(st) && Enabled(st, Add(t, l, late)) && s in late && Scans(st, s, l) && st.scheds[s].pc.Scanning?
    ensures var st' := Apply(st, Add(t, l, late));
      Enabled(st', Visit(s, t)) && (|st.scheds[s].pc.got| < st.maxWt ==> CanTake(st', s, t))
  {
    hide Reachable;
    ReachableStep(st, Add(t, l, late));
    NoDangling(Apply(st, Add(t, l, late)), Visit(s, t));
  }

  /** So t can be part of the answer of that very scan, by steps of s alone. */
  lemma LateIsAnswered(st: State, t: Tid, l: Clid, late: set<Tid>, s: Tid) returns (steps: seq<Step>, ready: seq<Tid>)
    requires Reachable(st) && Enabled(st, Add(t, l, late)) && s in late && Scans(st, s, l) && st.scheds[s].pc.Scanning?
    requires |st.scheds[s].pc.got| < st.maxWt
    ensures var st' := Apply(st, Add(t, l, late));
      ValidRun(st', steps) && OnlyDequeues(steps, s) && IsAt(After(st', steps), s, InUser(ready)) && t in ready
  {
    hide Reachable, ValidRun, After;
    LateIsVisited(st, t, l, late, s);
    ReachableStep(st, Add(t, l, late));
    var st' := Apply(st, Add(t, l, late));
    var pc := st'.scheds[s].pc;
    assert IsAt(st', s, Scanning(pc.rest, pc.got)) && t in pc.rest;
    hide Apply, Enabled, IsAt, CanTake, Scans;
    steps, ready := TakenNext(st', s, pc.rest, pc.got, t);
  }

  // ---- the clock and the slices ----

  /** How far the clock is moved during a run. */
  function Ticks(steps: seq<Step>): nat
    decreases |steps|
  {
    if |steps| == 0 then 0 else (if steps[0].Tick? then steps[0].d else 0) + Ticks(steps[1..])
  }

  lemma ClockChanges(st: State, step: Step)
    requires Enabled(st, step)
    ensures Apply(st, step).now == st.now + (if step.Tick? then step.d else 0)
  {
    if Dequeues(step) {
    } else if Executes(step) {
    } else {
    }
  }

  /** Scheduler s is in a slice with worker t that began at `start`. */
  predicate InSlice(st: State, s: Tid, t: Tid, start: int) {
    s in st.scheds && Measuring(st.scheds[s].pc) && st.scheds[s].pc.t == t && st.scheds[s].sliceStart == start
  }

  lemma SliceGoesOn(st: State, step: Step, s: Tid, t: Tid, start: int)
    requires Enabled(st, step) && InSlice(st, s, t, start) && step != UpdateTime(s)
    ensures InSlice(Apply(st, step), s, t, start)
  {
    if Dequeues(step) {
    } else if Executes(step) {
    } else {
    }
  }

  lemma {:induction false} SliceRun(st: State, steps: seq<Step>, s: Tid, t: Tid, start: int)
    requires InSlice(st, s, t, start) && ValidRun(st, steps) && UpdateTime(s) !in steps
    ensures InSlice(After(st, steps), s, t, start) && After(st, steps).now == st.now + Ticks(steps)
    decreases |steps|
  {
    hide Enabled, Apply, InSlice;
    if steps != [] {
      SliceGoesOn(st, steps[0], s, t, start);
      ClockChanges(st, steps[0]);
      SliceRun(Apply(st, steps[0]), steps[1..], s, t, start);
    }
  }

  /**
   Whatever happens between an execute of s and the end of its slice, elapsed_wt_running is set to exactly the
   time that passed, and the worker's running time grows by as much.
   */
  lemma SliceIsTimePassed(st: State, s: Tid, i: nat, steps: seq<Step>)
    requires Reachable(st) && Enabled(st, Execute(s, i))
    requires ValidRun(Apply(st, Execute(s, i)), steps) && UpdateTime(s) !in steps
    requires Enabled(After(Apply(st, Execute(s, i)), steps), UpdateTime(s))
    ensures var t, mid := st.scheds[s].pc.batch[i], After(Apply(st, Execute(s, i)), steps);
      var end := Apply(mid, UpdateTime(s));
      && s in end.scheds && end.scheds[s].elapsed == Ticks(steps)
      && t in mid.workers && t in end.workers
      && end.workers[t].totalMeasured == mid.workers[t].totalMeasured + Ticks(steps)
  {
    hide Reachable, ValidRun, After;
    var from, t := Apply(st, Execute(s, i)), st.scheds[s].pc.batch[i];
    ReachableStep(st, Execute(s, i));
    ReachableRun(from, steps);
    assert InSlice(from, s, t, st.now);
    hide SwitchesBalance, TimeBalances;
    SliceRun(from, steps, s, t, st.now);
    ReachableBooks(After(from, steps));
    SameClock(After(from, steps), s);
  }

  /** From there until the end of its next slice the scheduler shows that length. */
  lemma {:induction false} ElapsedStays(st: State, steps: seq<Step>, s: Tid)
    requires ValidRun(st, steps) && s in st.scheds && UpdateTime(s) !in steps && Leave(s) !in steps
    ensures s in After(st, steps).scheds && After(st, steps).scheds[s].elapsed == st.scheds[s].elapsed
    decreases |steps|
  {
    hide Enabled, Apply;
    if steps != [] {
      SchedsComeAndGo(st, steps[0], s);
      ElapsedChanges(st, steps[0], s);
      ElapsedStays(Apply(st, steps[0]), steps[1..], s);
    }
  }

  // ---- teardown ----

  /** Destroying a list or a worker takes exactly its record out of the tables. */
  lemma DestroysOne(st: State, l: Clid, t: Tid)
    ensures Enabled(st, DestroyList(l)) ==>
      var st' := Apply(st, DestroyList(l));
      l !in st'.lists && st'.workers == st.workers && forall c :: c != l ==> (c in st'.lists <==> c in st.lists) && (c in st.lists ==> st'.lists[c] == st.lists[c])
    ensures Enabled(st, DestroyWorker(t)) ==>
      var st' := Apply(st, DestroyWorker(t));
      t !in st'.workers && st'.lists == st.lists && forall u :: u != t ==> (u in st'.workers <==> u in st.workers) && (u in st.workers ==> st'.workers[u] == st.workers[u])
  {}

  /** Once all schedulers have left, the client can destroy all lists and then all workers, until nothing is left. */
  lemma {:induction false} CanTearDown(st: State) returns (steps: seq<Step>)
    requires st.scheds == map[]
    ensures ValidRun(st, steps) && forall step :: step in steps ==> step.DestroyList? || step.DestroyWorker?
    ensures var end := After(st, steps); end.scheds == map[] && end.lists == map[] && end.workers == map[]
    decreases |st.lists| + |st.workers|
  {
    if st.lists.Keys == {} && st.workers.Keys == {} {
      steps := [];
    } else {
      var step;
      if st.lists.Keys != {} {
        var l :| l in st.lists;
        step := DestroyList(l);
        assert |(st.lists - {l}).Keys| == |st.lists.Keys - {l}| by { assert (st.lists - {l}).Keys == st.lists.Keys - {l}; }
      } else {
        var t :| t in st.workers;
        step := DestroyWorker(t);
        assert |(st.workers - {t}).Keys| == |st.workers.Keys - {t}| by { assert (st.workers - {t}).Keys == st.workers.Keys - {t}; }
      }
      var more := CanTearDown(Apply(st, step));
      assert ([step] + more)[1..] == more;
      steps := [step] + more;
    }
  }
}
