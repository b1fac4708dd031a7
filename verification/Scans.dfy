/** A whole scan of get_wt_ready_queue while every other thread goes on. */
module Scans {
  import opened Protocol
  import opened Invariant
  import opened Safety
  import opened Theorems
  import opened Solo
  import Debts

  predicate InScan(st: State, s: Tid) {
    s in st.scheds && (st.scheds[s].pc.Scanning? || st.scheds[s].pc.Dec?)
  }

  // ---- what the run shows of the scan ----

  predicate Takes(st: State, step: Step, s: Tid)
    requires Enabled(st, step)
  {
    step.Visit? && step.s == s && CanTake(st, s, step.t)
  }

  /** The step is a decrement by s on list l. */
  predicate Decrements(st: State, step: Step, s: Tid, l: Clid)
    requires Enabled(st, step)
  {
    step == DecOne(s) && DecClids(st, s)[st.scheds[s].pc.k] == l
  }

  /** The workers s locks during the run, in order. */
  function Taken(st: State, steps: seq<Step>, s: Tid): seq<Tid>
    requires ValidRun(st, steps)
    decreases |steps|
  {
    if |steps| == 0 then []
    else (if Takes(st, steps[0], s) then [steps[0].t] else []) + Taken(Apply(st, steps[0]), steps[1..], s)
  }

  /** How often s decrements threads_ready of l during the run. */
  function DecrementCount(st: State, steps: seq<Step>, s: Tid, l: Clid): nat
    requires ValidRun(st, steps)
    decreases |steps|
  {
    if |steps| == 0 then 0
    else (if Decrements(st, steps[0], s, l) then 1 else 0) + DecrementCount(Apply(st, steps[0]), steps[1..], s, l)
  }

  /** Some time in the run s visits t, which is then free, idle and on the list. */
  predicate FreeAtVisit(st: State, steps: seq<Step>, s: Tid, t: Tid)
    requires ValidRun(st, steps)
    decreases |steps|
  {
    |steps| > 0 &&
    ((steps[0] == Visit(s, t) && s in st.scheds && st.scheds[s].clid in st.lists && Takeable(st, s, t))
     || FreeAtVisit(Apply(st, steps[0]), steps[1..], s, t))
  }

  /** What the decrement loops of the scan have taken off l so far. */
  function Counted(st: State, s: Tid, l: Clid): nat
    requires InScan(st, s) && Known(st.workers, st.scheds[s].pc.got) && PhaseOk(st, s, st.scheds[s].pc)
  {
    var got := st.scheds[s].pc.got;
    match st.scheds[s].pc
    case Dec(_, _, k) =>
      Occurrences(st.workers, got[..|got| - 1], l) + multiset(st.workers[got[|got| - 1]].clids[..k])[l]
    case _ => Occurrences(st.workers, got, l)
  }

  // ---- one step ----

  lemma ScanFact(st: State, s: Tid)
    requires Reachable(st) && InScan(st, s)
    ensures Known(st.workers, st.scheds[s].pc.got) && PhaseOk(st, s, st.scheds[s].pc)
    ensures forall t :: t in st.scheds[s].pc.got ==> st.workers[t].lock == s
  {
    hide Reachable;
    SchedFact(st, s);
  }

  lemma {:induction false} SameOccurrences(w: map<Tid, Worker>, w': map<Tid, Worker>, got: seq<Tid>, l: Clid)
    requires Known(w, got) && Known(w', got) && forall t :: t in got ==> w'[t].clids == w[t].clids
    ensures Occurrences(w', got, l) == Occurrences(w, got, l)
    decreases |got|
  {
    if got != [] {
      SameOccurrences(w, w', got[..|got| - 1], l);
    }
  }

  /** Steps that are not the scanner's leave its place, */
  lemma OthersPass(st: State, step: Step, s: Tid)
    requires InScan(st, s) && Enabled(st, step) && !Debts.ActsFor(step, s)
    ensures InScan(Apply(st, step), s) && SamePlace(st.scheds[s].pc, Apply(st, step).scheds[s].pc)
  {
    if Dequeues(step) {
      OthersDequeue(st, step, s);
    } else if Executes(step) {
      OthersExecute(st, step, s);
    }
  }

  /** Alike but for the elements still to be visited. */
  predicate SamePlace(a: PC, b: PC)
    requires a.Scanning? || a.Dec?
  {
    if a.Scanning? then b.Scanning? && b.got == a.got else b.Dec? && b.got == a.got && b.k == a.k
  }

  lemma OthersDequeue(st: State, step: Step, s: Tid)
    requires s in st.scheds && Enabled(st, step) && Dequeues(step) && step.s != s
    ensures s in Apply(st, step).scheds && Apply(st, step).scheds[s] == st.scheds[s]
  {}

  lemma OthersExecute(st: State, step: Step, s: Tid)
    requires InScan(st, s) && Enabled(st, step) && Executes(step) && step.s != s
    ensures s in Apply(st, step).scheds && Apply(st, step).scheds[s] == st.scheds[s]
  {}

  /** and nobody's step changes the lists of a worker it has taken. */
  lemma TakenKeep(st: State, step: Step, s: Tid)
    requires Reachable(st) && InScan(st, s) && Enabled(st, step)
    ensures forall t :: t in st.scheds[s].pc.got ==>
      t in st.workers && t in Apply(st, step).workers && Apply(st, step).workers[t].clids == st.workers[t].clids
  {
    hide Reachable;
    ScanFact(st, s);
    forall t | t in st.scheds[s].pc.got
      ensures t in Apply(st, step).workers && Apply(st, step).workers[t].clids == st.workers[t].clids
    {
      if step.Unlock? { OthersUnlock(st, step.s, s, t); }
      Debts.HeldStays(st, step, t);
    }
  }

  lemma OthersUnlock(st: State, x: Tid, s: Tid, t: Tid)
    requires Reachable(st) && InScan(st, s) && Enabled(st, Unlock(x)) && t in st.workers && st.workers[t].lock == s
    ensures st.scheds[x].pc.t != t
  {
    hide Reachable;
    ExecHasWorker(st, x);
  }

  lemma OthersCount(st: State, step: Step, s: Tid, l: Clid)
    requires Reachable(st) && InScan(st, s) && Enabled(st, step) && !Debts.ActsFor(step, s)
    ensures Passes(st, step, s, l)
  {
    hide Reachable, Apply, Enabled, InScan, Counted, Takes, Decrements, Debts.ActsFor, PhaseOk;
    var st' := Apply(st, step);
    OthersPass(st, step, s);
    NotMine(st, step, s, l);
    TakenKeep(st, step, s);
    ReachableStep(st, step);
    ScanFact(st, s);
    ScanFact(st', s);
    InScanHas(st, s);
    InScanHas(st', s);
    CountedAlike(st, st', s, l);
    assert st.scheds[s].pc.got + [] == st.scheds[s].pc.got;
  }

  lemma NotMine(st: State, step: Step, s: Tid, l: Clid)
    requires Enabled(st, step) && !Debts.ActsFor(step, s)
    ensures !Takes(st, step, s) && !Decrements(st, step, s, l)
  {}

  lemma CountedAlike(st: State, st': State, s: Tid, l: Clid)
    requires InScan(st, s) && Known(st.workers, st.scheds[s].pc.got) && PhaseOk(st, s, st.scheds[s].pc)
    requires InScan(st', s) && Known(st'.workers, st'.scheds[s].pc.got) && PhaseOk(st', s, st'.scheds[s].pc)
    requires SamePlace(st.scheds[s].pc, st'.scheds[s].pc)
    requires forall t :: t in st.scheds[s].pc.got ==> st'.workers[t].clids == st.workers[t].clids
    ensures Counted(st', s, l) == Counted(st, s, l)
  {
    var got := st.scheds[s].pc.got;
    SameOccurrences(st.workers, st'.workers, got, l);
    if st.scheds[s].pc.Dec? {
      SameOccurrences(st.workers, st'.workers, got[..|got| - 1], l);
    }
    hide Occurrences;
  }

  lemma InScanHas(st: State, s: Tid)
    requires InScan(st, s)
    ensures s in st.scheds && (st.scheds[s].pc.Scanning? || st.scheds[s].pc.Dec?)
  {}

  /** The step adds to what is taken and counted exactly what it takes and decrements. */
  ghost predicate Passes(st: State, step: Step, s: Tid, l: Clid)
    requires Enabled(st, step) && InScan(st, s)
  {
    var st' := Apply(st, step);
    && InScan(st', s)
    && Known(st.workers, st.scheds[s].pc.got) && PhaseOk(st, s, st.scheds[s].pc)
    && Known(st'.workers, st'.scheds[s].pc.got) && PhaseOk(st', s, st'.scheds[s].pc)
    && st'.scheds[s].pc.got == st.scheds[s].pc.got + (if Takes(st, step, s) then [step.t] else [])
    && Counted(st', s, l) == Counted(st, s, l) + (if Decrements(st, step, s, l) then 1 else 0)
  }

  lemma VisitCounts(st: State, s: Tid, t: Tid, l: Clid)
    requires Reachable(st) && InScan(st, s) && Enabled(st, Visit(s, t))
    ensures Passes(st, Visit(s, t), s, l)
  {
    hide Reachable;
    var st' := DoVisit(st, s, t);
    ReachableStep(st, Visit(s, t));
    ScanFact(st, s);
    ScanFact(st', s);
    var got := st.scheds[s].pc.got;
    SameOccurrences(st.workers, st'.workers, got, l);
    assert (got + [t])[..|got|] == got;
    assert got + [] == got;
    if CanTake(st, s, t) { assert st'.workers[t].clids[..0] == []; }
  }

  lemma DecOneCounts(st: State, s: Tid, l: Clid)
    requires Reachable(st) && InScan(st, s) && Enabled(st, DecOne(s))
    ensures Passes(st, DecOne(s), s, l)
  {
    hide Reachable;
    ReachableStep(st, DecOne(s));
    ScanFact(st, s);
    ScanFact(DoDecOne(st, s), s);
    var c, k := DecClids(st, s), st.scheds[s].pc.k;
    assert c[..k + 1] == c[..k] + [c[k]];
    assert st.scheds[s].pc.got + [] == st.scheds[s].pc.got;
    hide Occurrences;
  }

  lemma DecDoneCounts(st: State, s: Tid, l: Clid)
    requires Reachable(st) && InScan(st, s) && Enabled(st, DecDone(s))
    ensures Passes(st, DecDone(s), s, l)
  {
    hide Reachable;
    ReachableStep(st, DecDone(s));
    ScanFact(st, s);
    ScanFact(DoDecDone(st, s), s);
    var c, k := DecClids(st, s), st.scheds[s].pc.k;
    assert c[..k] == c;
    assert st.scheds[s].pc.got + [] == st.scheds[s].pc.got;
  }

  lemma StepPasses(st: State, step: Step, s: Tid, l: Clid)
    requires Reachable(st) && InScan(st, s) && Enabled(st, step) && step != EndScan(s)
    ensures Passes(st, step, s, l)
  {
    hide Reachable, Passes;
    if !Debts.ActsFor(step, s) {
      OthersCount(st, step, s, l);
    } else {
      match step
      case Visit(_, t) => VisitCounts(st, s, t, l);
      case DecOne(_) => DecOneCounts(st, s, l);
      case DecDone(_) => DecDoneCounts(st, s, l);
    }
  }

  /** A worker is taken only while it is free, idle and on the list. */
  lemma TakesFree(st: State, step: Step, s: Tid)
    requires Reachable(st) && Enabled(st, step) && Takes(st, step, s)
    ensures s in st.scheds && st.scheds[s].clid in st.lists && Takeable(st, s, step.t)
  {
    hide Reachable;
    CrossIndex(st, step.t, st.scheds[s].clid);
    WorkerFact(st, step.t);
  }

  // ---- whole scans ----

  /** Whatever the others do, what the scan has taken and counted is what its own steps took and decremented. */
  lemma {:induction false} ScanAdds(st: State, steps: seq<Step>, s: Tid, l: Clid)
    requires Reachable(st) && InScan(st, s) && ValidRun(st, steps) && EndScan(s) !in steps
    ensures InScan(st, s) && Known(st.workers, st.scheds[s].pc.got) && PhaseOk(st, s, st.scheds[s].pc)
    ensures var end := After(st, steps);
      && InScan(end, s) && Known(end.workers, end.scheds[s].pc.got) && PhaseOk(end, s, end.scheds[s].pc)
      && end.scheds[s].pc.got == st.scheds[s].pc.got + Taken(st, steps, s)
      && Counted(end, s, l) == Counted(st, s, l) + DecrementCount(st, steps, s, l)
    decreases |steps|
  {
    hide Reachable, Apply, Enabled, Counted, PhaseOk, Takes, Decrements;
    ScanFact(st, s);
    if steps == [] {
      assert st.scheds[s].pc.got + [] == st.scheds[s].pc.got;
    } else {
      StepPasses(st, steps[0], s, l);
      ReachableStep(st, steps[0]);
      ScanAdds(Apply(st, steps[0]), steps[1..], s, l);
    }
  }

  lemma {:induction false} TakenWereFree(st: State, steps: seq<Step>, s: Tid, t: Tid)
    requires Reachable(st) && ValidRun(st, steps) && t in Taken(st, steps, s)
    ensures FreeAtVisit(st, steps, s, t)
    decreases |steps|
  {
    hide Reachable, Apply, Enabled, Takeable;
    if steps != [] {
      ReachableStep(st, steps[0]);
      if Takes(st, steps[0], s) && t == steps[0].t {
        TakesFree(st, steps[0], s);
      } else {
        TakenWereFree(Apply(st, steps[0]), steps[1..], s, t);
      }
    }
  }

  /**
   get_wt_ready_queue from its first to its last element, with any steps of the others in between: what it
   reports is what it has locked during the scan; each of these was free, idle and on the list when visited;
   it has nobody else locked; and it has decremented each list exactly by their multiplicities.
   */
  lemma ScanOverRun(st: State, steps: seq<Step>, s: Tid, l: Clid)
    requires Reachable(st) && Enabled(st, BeginScan(s)) && st.lists[st.scheds[s].clid].nthreads != 0
    requires ValidRun(Apply(st, BeginScan(s)), steps) && EndScan(s) !in steps
    requires Enabled(After(Apply(st, BeginScan(s)), steps), EndScan(s))
    ensures var from := Apply(st, BeginScan(s));
      var end := After(from, steps);
      var got := end.scheds[s].pc.got;
      && got == Taken(from, steps, s) && Distinct(got) && |got| <= end.maxWt
      && (forall t :: t in got ==> FreeAtVisit(from, steps, s, t))
      && (forall t :: t in end.workers ==> (end.workers[t].lock == s <==> t in got))
      && Known(end.workers, got) && DecrementCount(from, steps, s, l) == Occurrences(end.workers, got, l)
  {
    hide Reachable;
    var from := Apply(st, BeginScan(s));
    ReachableStep(st, BeginScan(s));
    assert InScan(from, s) && from.scheds[s].pc.got == [] && from.scheds[s].pc.Scanning?;
    hide Apply, Enabled, FreeAtVisit, Taken, DecrementCount, After, ValidRun;
    ReachableRun(from, steps);
    ScanAdds(from, steps, s, l);
    var end := After(from, steps);
    assert [] + Taken(from, steps, s) == Taken(from, steps, s);
    assert end.scheds[s].pc.Scanning? by { AtEnd(end, s); }
    SchedFact(end, s);
    forall t | t in Taken(from, steps, s) ensures FreeAtVisit(from, steps, s, t) {
      TakenWereFree(from, steps, s, t);
    }
    forall t | t in end.workers ensures end.workers[t].lock == s <==> t in end.scheds[s].pc.got {
      WorkerFact(end, t);
    }
  }

  lemma AtEnd(st: State, s: Tid)
    requires Enabled(st, EndScan(s))
    ensures s in st.scheds && st.scheds[s].pc.Scanning?
  {}

  // ---- the walk over the queue ----

  /** How often s visits t during the run. */
  function Visits(steps: seq<Step>, s: Tid, t: Tid): nat
    decreases |steps|
  {
    if |steps| == 0 then 0 else (if steps[0] == Visit(s, t) then 1 else 0) + Visits(steps[1..], s, t)
  }

  /** How often t is added to l before the cursor of s during the run. */
  function LateAdds(steps: seq<Step>, s: Tid, t: Tid, l: Clid): nat
    decreases |steps|
  {
    if |steps| == 0 then 0
    else (if steps[0].Add? && steps[0].t == t && steps[0].l == l && s in steps[0].late then 1 else 0) + LateAdds(steps[1..], s, t, l)
  }

  /** The step takes from what is left to visit exactly the element it visits, and adds exactly what is added late. */
  predicate RestMoves(step: Step, x: Sched, y: Sched, s: Tid, t: Tid)
    requires (x.pc.Scanning? || x.pc.Dec?) && (y.pc.Scanning? || y.pc.Dec?)
  {
    && y.clid == x.clid
    && y.pc.rest[t] + (if step == Visit(s, t) then 1 else 0)
       == x.pc.rest[t] + if step.Add? && step.t == t && step.l == x.clid && s in step.late then 1 else 0
  }

  lemma RestOwn(st: State, step: Step, s: Tid, t: Tid)
    requires InScan(st, s) && Enabled(st, step) && Dequeues(step) && step.s == s && step != EndScan(s)
    ensures InScan(Apply(st, step), s) && RestMoves(step, st.scheds[s], Apply(st, step).scheds[s], s, t)
  {
    match step
    case Visit(_, u) =>
      var rest := st.scheds[s].pc.rest;
      assert (rest - multiset{u})[t] == rest[t] - if u == t then 1 else 0;
    case _ =>
  }

  lemma RestStep(st: State, step: Step, s: Tid, t: Tid)
    requires InScan(st, s) && Enabled(st, step) && step != EndScan(s)
    ensures InScan(Apply(st, step), s) && RestMoves(step, st.scheds[s], Apply(st, step).scheds[s], s, t)
  {
    if Dequeues(step) {
      if step.s == s { RestOwn(st, step, s, t); } else { OthersDequeue(st, step, s); }
    } else if Executes(step) {
      OthersExecute(st, step, s);
    }
  }

  lemma {:induction false} RestRun(st: State, steps: seq<Step>, s: Tid, t: Tid)
    requires InScan(st, s) && ValidRun(st, steps) && EndScan(s) !in steps
    ensures InScan(After(st, steps), s)
    ensures After(st, steps).scheds[s].pc.rest[t] + Visits(steps, s, t)
         == st.scheds[s].pc.rest[t] + LateAdds(steps, s, t, st.scheds[s].clid)
    decreases |steps|
  {
    hide Enabled, Apply;
    if steps != [] {
      RestStep(st, steps[0], s, t);
      RestRun(Apply(st, steps[0]), steps[1..], s, t);
    }
  }

  /** From its begin to its end a scan visits each element of the queue, and each that is added before its cursor, exactly once. */
  lemma EachElementOnce(st: State, steps: seq<Step>, s: Tid, t: Tid)
    requires Enabled(st, BeginScan(s)) && st.lists[st.scheds[s].clid].nthreads != 0
    requires ValidRun(Apply(st, BeginScan(s)), steps) && EndScan(s) !in steps
    requires Enabled(After(Apply(st, BeginScan(s)), steps), EndScan(s))
    ensures Visits(steps, s, t) == st.lists[st.scheds[s].clid].queue[t] + LateAdds(steps, s, t, st.scheds[s].clid)
  {
    var from := Apply(st, BeginScan(s));
    assert InScan(from, s);
    hide ValidRun, After;
    RestRun(from, steps, s, t);
  }
}
