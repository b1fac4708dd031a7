/**
 The locks, counters and queues implement a much simpler scheduler, which knows only which workers are
 ready and who owns the others. In it a dequeue moves a whole batch at once.
 */
module Refinement {
  import opened Protocol
  import opened Invariant
  import opened Safety
  import opened Theorems

  // ---- the simple scheduler ----

  datatype Abs = Abs(maxWt: nat, member: map<Tid, seq<Clid>>, ready: set<Tid>, owner: map<Tid, Tid>)

  datatype AbsStep =
    | Stutter
    | New(t: Tid)
    | Join(t: Tid, l: Clid)
    | Take(s: Tid, l: Clid, batch: set<Tid>)  // a dequeue that answers with a batch
    | Empty(s: Tid, l: Clid)                  // a dequeue that answers -1
    | GiveBack(s: Tid, t: Tid)
    | Finish(t: Tid)
    | Forget(t: Tid)

  ghost predicate AbsEnabled(a: Abs, step: AbsStep) {
    match step
    case Stutter => true
    case New(t) => t !in a.member
    case Join(t, l) => t in a.member && t in a.ready
    case Take(s, l, batch) =>
      batch != {} && |batch| <= a.maxWt && batch <= a.ready && forall t :: t in batch ==> t in a.member && l in a.member[t]
    case Empty(s, l) => forall t :: t in a.member ==> l !in a.member[t]
    case GiveBack(s, t) => t in a.owner && a.owner[t] == s
    case Finish(t) => t in a.owner
    case Forget(t) => t in a.ready
  }

  ghost function AbsApply(a: Abs, step: AbsStep): Abs
    requires AbsEnabled(a, step)
  {
    match step
    case Stutter => a
    case New(t) => a.(member := a.member[t := []], ready := a.ready + {t})
    case Join(t, l) => a.(member := a.member[t := [l] + a.member[t]])
    case Take(s, _, batch) => a.(ready := a.ready - batch, owner := a.owner + map t | t in batch :: s)
    case Empty(_, _) => a
    case GiveBack(_, t) => a.(ready := a.ready + {t}, owner := a.owner - {t})
    case Finish(t) => a.(member := a.member - {t}, owner := a.owner - {t})
    case Forget(t) => a.(member := a.member - {t}, ready := a.ready - {t})
  }

  /** Every worker is ready or owned, never both. */
  ghost predicate Partitioned(a: Abs) {
    a.ready !! a.owner.Keys && a.member.Keys == a.ready + a.owner.Keys
  }

  // ---- the abstraction ----

  /** Workers locked by a scan that has not answered yet still count as ready. */
  predicate Committed(pc: PC) { !pc.Scanning? && !pc.Dec? }

  predicate Live(st: State, t: Tid) { t in st.workers && st.workers[t].state != Exiting }

  predicate Owned(st: State, t: Tid) {
    Live(st, t) && st.workers[t].lock in st.scheds && Committed(st.scheds[st.workers[t].lock].pc)
  }

  function OwnerOf(st: State, t: Tid): Tid
    requires Owned(st, t)
  {
    st.workers[t].lock
  }

  ghost function Abstract(st: State): Abs {
    Abs(st.maxWt,
        map t | t in st.workers && Live(st, t) :: st.workers[t].clids,
        set t | t in st.workers && Live(st, t) && !Owned(st, t),
        map t | t in st.workers && Owned(st, t) :: OwnerOf(st, t))
  }

  function Batch(got: seq<Tid>): set<Tid> { set t | t in got }

  /** What the simple scheduler does while the module takes a step. */
  function Meaning(st: State, step: Step): AbsStep
    requires Enabled(st, step)
  {
    match step
    case Create(t, _) => New(t)
    case Add(t, l, _) => Join(t, l)
    case BeginScan(s) => if st.lists[st.scheds[s].clid].nthreads == 0 then Empty(s, st.scheds[s].clid) else Stutter
    case EndScan(s) =>
      var got := st.scheds[s].pc.got;
      if got == [] then Stutter else Take(s, st.scheds[s].clid, Batch(got))
    case Unlock(s) =>
      var t := st.scheds[s].pc.t;
      if st.workers[t].state == Exiting then Stutter else GiveBack(s, t)
    case Exit(t) => Finish(t)
    case DestroyWorker(t) => if st.workers[t].state == Exiting then Stutter else Forget(t)
    case _ => Stutter
  }

  /** The two states agree on whether t is alive, on what lists, and owned by whom. */
  predicate SameView(st: State, st': State, t: Tid)
    requires t in st.workers && t in st'.workers
  {
    && st'.workers[t].clids == st.workers[t].clids
    && (Live(st', t) <==> Live(st, t))
    && (Owned(st', t) <==> Owned(st, t))
    && (Owned(st, t) ==> OwnerOf(st', t) == OwnerOf(st, t))
  }

  lemma LookSame(st: State, st': State)
    requires st'.maxWt == st.maxWt && st'.workers.Keys == st.workers.Keys
    requires forall t :: t in st.workers ==> SameView(st, st', t)
    ensures Abstract(st') == Abstract(st)
  {
    hide Live;
    SameParts(Abstract(st'), Abstract(st));
  }

  lemma SameParts(a: Abs, b: Abs)
    requires a.maxWt == b.maxWt
    requires a.member.Keys == b.member.Keys && forall t :: t in a.member ==> a.member[t] == b.member[t]
    requires a.owner.Keys == b.owner.Keys && forall t :: t in a.owner ==> a.owner[t] == b.owner[t]
    requires forall t :: t in a.ready <==> t in b.ready
    ensures a == b
  {
    assert a.member == b.member;
    assert a.owner == b.owner;
    assert a.ready == b.ready;
  }

  // ---- steps that mean something ----

  /** The worker a scheduler has in its hands at `lock` is not affected by records it does not name. */
  lemma CreateMeans(st: State, t: Tid, budget: nat)
    requires Enabled(st, Create(t, budget))
    ensures AbsEnabled(Abstract(st), New(t))
    ensures Abstract(DoCreate(st, t, budget)) == AbsApply(Abstract(st), New(t))
  {
    var st' := DoCreate(st, t, budget);
    assert Live(st', t) && !Owned(st', t);
    assert forall u :: u in st.workers ==> SameView(st, st', u);
    hide Live, Owned, Committed;
    SameParts(AbsApply(Abstract(st), New(t)), Abstract(st'));
  }

  lemma AddMeans(st: State, t: Tid, l: Clid, late: set<Tid>)
    requires Enabled(st, Add(t, l, late))
    ensures AbsEnabled(Abstract(st), Join(t, l))
    ensures Abstract(DoAdd(st, t, l, late)) == AbsApply(Abstract(st), Join(t, l))
  {
    var st' := DoAdd(st, t, l, late);
    assert Live(st, t) && !Owned(st, t) && Live(st', t) && !Owned(st', t);
    assert forall u :: u in st.workers && u != t ==> SameView(st, st', u);
    hide Live, Owned, Committed;
    SameParts(AbsApply(Abstract(st), Join(t, l)), Abstract(st'));
  }

  lemma EmptyMeans(st: State, s: Tid)
    requires Reachable(st) && Enabled(st, BeginScan(s)) && st.lists[st.scheds[s].clid].nthreads == 0
    ensures AbsEnabled(Abstract(st), Empty(s, st.scheds[s].clid))
  {
    hide Reachable;
    var l := st.scheds[s].clid;
    LiveExact(st, l);
    forall t | t in st.workers && Live(st, t) ensures l !in st.workers[t].clids {
      CrossIndex(st, t, l);
    }
  }

  /** The answered batch: idle live members of the list, at most MAX_WT, all locked by s. */
  lemma BatchFact(st: State, s: Tid)
    requires Reachable(st) && s in st.scheds && st.scheds[s].pc.Scanning?
    ensures var got := st.scheds[s].pc.got;
      && |got| <= st.maxWt && Distinct(got)
      && forall t :: t in got ==> Live(st, t) && st.workers[t].lock == s && st.scheds[s].clid in st.workers[t].clids
  {
    hide Reachable;
    SchedFact(st, s);
  }

  lemma {:induction false} BatchSize(q: seq<Tid>)
    ensures |Batch(q)| <= |q|
  {
    if q != [] {
      BatchSize(q[1..]);
      assert Batch(q) == {q[0]} + Batch(q[1..]);
    }
  }

  lemma TakeMeans(st: State, s: Tid)
    requires Reachable(st) && Enabled(st, EndScan(s)) && st.scheds[s].pc.got != []
    ensures var step := Take(s, st.scheds[s].clid, Batch(st.scheds[s].pc.got));
      AbsEnabled(Abstract(st), step) && Abstract(DoEndScan(st, s)) == AbsApply(Abstract(st), step)
  {
    hide Reachable, AbsEnabled, TakeView;
    var got, st' := st.scheds[s].pc.got, DoEndScan(st, s);
    TakeIsEnabled(st, s);
    forall t | t in st.workers ensures TakeView(st, st', t, got, s) {
      TakeOwns(st, s, t);
    }
    hide Enabled, Distinct;
    TakeParts(st, st', s, got);
  }

  lemma TakeIsEnabled(st: State, s: Tid)
    requires Reachable(st) && Enabled(st, EndScan(s)) && st.scheds[s].pc.got != []
    ensures AbsEnabled(Abstract(st), Take(s, st.scheds[s].clid, Batch(st.scheds[s].pc.got)))
  {
    hide Reachable;
    var got := st.scheds[s].pc.got;
    BatchFact(st, s);
    BatchSize(got);
    assert got[0] in Batch(got);
    forall t | t in got ensures t in st.workers && Live(st, t) && !Owned(st, t) {
      TakeOwns(st, s, t);
    }
  }

  lemma TakeParts(st: State, st': State, s: Tid, got: seq<Tid>)
    requires s in st.scheds && st'.maxWt == st.maxWt && st'.workers.Keys == st.workers.Keys
    requires AbsEnabled(Abstract(st), Take(s, st.scheds[s].clid, Batch(got)))
    requires forall t :: t in st.workers ==> TakeView(st, st', t, got, s)
    ensures Abstract(st') == AbsApply(Abstract(st), Take(s, st.scheds[s].clid, Batch(got)))
  {
    hide Live, Owned, Committed;
    SameParts(AbsApply(Abstract(st), Take(s, st.scheds[s].clid, Batch(got))), Abstract(st'));
  }

  /** Exactly the members of got that are alive change hands, to s. */
  predicate TakeView(st: State, st': State, t: Tid, got: seq<Tid>, s: Tid)
    requires t in st.workers && t in st'.workers
  {
    if t in got then Live(st, t) && !Owned(st, t) && Live(st', t) && Owned(st', t) && OwnerOf(st', t) == s
                     && st'.workers[t].clids == st.workers[t].clids
    else SameView(st, st', t)
  }

  lemma TakeOwns(st: State, s: Tid, t: Tid)
    requires Reachable(st) && Enabled(st, EndScan(s)) && st.scheds[s].pc.got != [] && t in st.workers
    ensures TakeView(st, DoEndScan(st, s), t, st.scheds[s].pc.got, s)
  {
    hide Reachable;
    BatchFact(st, s);
    WorkerFact(st, t);
  }

  lemma UnlockView(st: State, s: Tid)
    requires InPhase(st, s) && st.workers[st.scheds[s].pc.t].lock == s && st.workers[st.scheds[s].pc.t].state != Exiting
    ensures var t, st' := st.scheds[s].pc.t, DoUnlock(st, s);
      && Owned(st, t) && OwnerOf(st, t) == s && Live(st', t) && !Owned(st', t)
      && st'.workers[t].clids == st.workers[t].clids
      && forall u :: u in st.workers && u != t ==> SameView(st, st', u)
  {}

  lemma GiveBackMeans(st: State, s: Tid)
    requires Reachable(st) && Enabled(st, Unlock(s)) && st.workers[st.scheds[s].pc.t].state != Exiting
    ensures var step := GiveBack(s, st.scheds[s].pc.t);
      AbsEnabled(Abstract(st), step) && Abstract(DoUnlock(st, s)) == AbsApply(Abstract(st), step)
  {
    hide Reachable, Live, Owned, Committed;
    ExecHasWorker(st, s);
    UnlockView(st, s);
    GiveBackParts(st, DoUnlock(st, s), s, st.scheds[s].pc.t);
  }

  lemma GiveBackParts(st: State, st': State, s: Tid, t: Tid)
    requires st'.maxWt == st.maxWt && st'.workers.Keys == st.workers.Keys
    requires Owned(st, t) && OwnerOf(st, t) == s && Live(st', t) && !Owned(st', t)
    requires st'.workers[t].clids == st.workers[t].clids
    requires forall u :: u in st.workers && u != t ==> SameView(st, st', u)
    ensures AbsEnabled(Abstract(st), GiveBack(s, t))
    ensures Abstract(st') == AbsApply(Abstract(st), GiveBack(s, t))
  {
    assert Live(st, t);
    hide Live, Committed;
    SameParts(AbsApply(Abstract(st), GiveBack(s, t)), Abstract(st'));
  }

  lemma FinishMeans(st: State, t: Tid)
    requires Reachable(st) && Enabled(st, Exit(t))
    ensures AbsEnabled(Abstract(st), Finish(t))
    ensures Abstract(DoExit(st, t)) == AbsApply(Abstract(st), Finish(t))
  {
    hide Reachable;
    WorkerFact(st, t);
    var st' := DoExit(st, t);
    assert Live(st, t) && Owned(st, t) && !Live(st', t) && !Owned(st', t);
    hide WorkerOk;
    forall u | u in st.workers && u != t ensures SameView(st, st', u) {}
    hide Live, Owned, Committed;
    SameParts(AbsApply(Abstract(st), Finish(t)), Abstract(st'));
  }

  lemma ForgetMeans(st: State, t: Tid)
    requires Enabled(st, DestroyWorker(t)) && st.workers[t].state != Exiting
    ensures AbsEnabled(Abstract(st), Forget(t))
    ensures Abstract(DoDestroyWorker(st, t)) == AbsApply(Abstract(st), Forget(t))
  {
    SameParts(AbsApply(Abstract(st), Forget(t)), Abstract(DoDestroyWorker(st, t)));
  }

  // ---- steps that mean nothing ----

  /** A worker whose record and whose holder's commitment stay put looks the same. */
  lemma ViewFrame(st: State, st': State, t: Tid)
    requires t in st.workers && t in st'.workers
    requires st'.workers[t].clids == st.workers[t].clids && st'.workers[t].lock == st.workers[t].lock
    requires st'.workers[t].state == Exiting <==> st.workers[t].state == Exiting
    requires st.workers[t].lock in st.scheds <==> st'.workers[t].lock in st'.scheds
    requires st.workers[t].lock in st.scheds ==>
      (Committed(st'.scheds[st.workers[t].lock].pc) <==> Committed(st.scheds[st.workers[t].lock].pc))
    ensures SameView(st, st', t)
  {}

  /** The worker is unlocked, or its holder holds it. */
  lemma LockFact(st: State, t: Tid)
    requires Reachable(st) && t in st.workers
    ensures st.workers[t].lock == FREE ||
      (st.workers[t].lock in st.scheds && t in Held(st.scheds[st.workers[t].lock].pc))
  {
    hide Reachable;
    WorkerFact(st, t);
  }

  /** A step that moves only scheduler s, which holds nothing or stays committed or uncommitted. */
  lemma MoveLooksSame(st: State, s: Tid, pc: PC)
    requires Reachable(st) && s in st.scheds
    requires Held(st.scheds[s].pc) == [] || (Committed(pc) <==> Committed(st.scheds[s].pc))
    ensures Abstract(At(st, s, pc)) == Abstract(st)
  {
    hide Reachable, SameView, Committed, Abstract;
    forall t | t in st.workers ensures SameView(st, At(st, s, pc), t) {
      LockFact(st, t);
      ViewFrame(st, At(st, s, pc), t);
    }
    LookSame(st, At(st, s, pc));
  }

  lemma StutterOfVisit(st: State, s: Tid, t: Tid)
    requires Reachable(st) && Enabled(st, Visit(s, t))
    ensures Abstract(DoVisit(st, s, t)) == Abstract(st)
  {
    hide Reachable;
    var st' := DoVisit(st, s, t);
    if CanTake(st, s, t) {
      assert SameView(st, st', t);
      forall u | u in st.workers && u != t ensures SameView(st, st', u) { ViewFrame(st, st', u); }
      LookSame(st, st');
    } else {
      MoveLooksSame(st, s, st'.scheds[s].pc);
    }
  }

  lemma StutterOfDequeue(st: State, step: Step)
    requires Reachable(st) && Enabled(st, step) && Dequeues(step)
    requires step.EndScan? ==> st.scheds[step.s].pc.got == []
    ensures Abstract(Apply(st, step)) == Abstract(st)
  {
    hide Reachable, Abstract;
    match step
    case CallDequeue(s) => MoveLooksSame(st, s, Checking);
    case CheckReady(s) => MoveLooksSame(st, s, DoCheckReady(st, s).scheds[s].pc);
    case BeginScan(s) => MoveLooksSame(st, s, DoBeginScan(st, s).scheds[s].pc);
    case Visit(s, t) => StutterOfVisit(st, s, t);
    case EndScan(s) => MoveLooksSame(st, s, Checking);
    case DecOne(s) => LookFrame(st, DoDecOne(st, s));
    case DecDone(s) => MoveLooksSame(st, s, DoDecDone(st, s).scheds[s].pc);
  }

  /** Workers keep lists, locks and liveness; schedulers keep their commitment. */
  lemma LookFrame(st: State, st': State)
    requires st'.maxWt == st.maxWt && st'.workers.Keys == st.workers.Keys && st'.scheds.Keys == st.scheds.Keys
    requires forall t :: t in st.workers ==>
      && st'.workers[t].clids == st.workers[t].clids && st'.workers[t].lock == st.workers[t].lock
      && (st'.workers[t].state == Exiting <==> st.workers[t].state == Exiting)
    requires forall s :: s in st.scheds ==> (Committed(st'.scheds[s].pc) <==> Committed(st.scheds[s].pc))
    ensures Abstract(st') == Abstract(st)
  {
    hide SameView, Committed, Abstract;
    forall t | t in st.workers ensures SameView(st, st', t) { ViewFrame(st, st', t); }
    LookSame(st, st');
  }

  lemma StutterOfRecords(st: State, step: Step)
    requires Reachable(st) && Enabled(st, step) && (step.Execute? || step.UpdateTime? || step.IncOne?)
    ensures Abstract(Apply(st, step)) == Abstract(st)
  {
    hide Reachable, Abstract;
    if step.Execute? { BatchIdle(st, step.s, step.i); }
    LookFrame(st, Apply(st, step));
  }

  lemma StutterOfExecute(st: State, step: Step)
    requires Reachable(st) && Enabled(st, step) && Executes(step) && !step.Unlock?
    ensures Abstract(Apply(st, step)) == Abstract(st)
  {
    hide Reachable, Abstract;
    match step
    case WaitCheck(s) => MoveLooksSame(st, s, DoWaitCheck(st, s).scheds[s].pc);
    case IncDone(s) => MoveLooksSame(st, s, DoIncDone(st, s).scheds[s].pc);
    case WakeOne(s) => StutterOfWake(st, s);
    case Spurious(s) => MoveLooksSame(st, s, Woken(st.scheds[s].pc));
    case Signal(s) => MoveLooksSame(st, s, Entering);
    case _ => StutterOfRecords(st, step);
  }

  lemma StutterOfWake(st: State, s: Tid)
    requires Enabled(st, WakeOne(s))
    ensures Abstract(DoWakeOne(st, s)) == Abstract(st)
  {
    LookFrame(st, DoWakeOne(st, s));
  }

  lemma StutterOfUnlock(st: State, s: Tid)
    requires Enabled(st, Unlock(s)) && st.workers[st.scheds[s].pc.t].state == Exiting
    ensures Abstract(DoUnlock(st, s)) == Abstract(st)
  {
    LookSame(st, DoUnlock(st, s));
  }

  lemma StutterOfClient(st: State, step: Step)
    requires Reachable(st) && Enabled(st, step) && Meaning(st, step) == Stutter
    requires !Dequeues(step) && !Executes(step)
    ensures Abstract(Apply(st, step)) == Abstract(st)
  {
    hide Reachable;
    match step
    case InitList => LookFrame(st, Apply(st, step));
    case Enter(s, l) => ComesOrGoes(st, DoEnter(st, s, l), s);
    case Yield(t) =>
      RunsRunning(st, t);
      LookFrame(st, DoYield(st, t));
    case Leave(s) => ComesOrGoes(st, DoLeave(st, s), s);
    case Tick(_) => LookFrame(st, Apply(st, step));
    case DestroyList(_) => LookFrame(st, Apply(st, step));
    case DestroyWorker(t) => SameParts(Abstract(st), Abstract(Apply(st, step)));
  }

  /** A scheduler that holds nothing enters or leaves. */
  lemma ComesOrGoes(st: State, st': State, s: Tid)
    requires Reachable(st) && st'.maxWt == st.maxWt && st'.workers == st.workers
    requires s in st.scheds ==> Held(st.scheds[s].pc) == []
    requires forall x :: x != s ==> (x in st.scheds <==> x in st'.scheds)
    requires forall x :: x != s && x in st.scheds ==> st'.scheds[x] == st.scheds[x]
    ensures Abstract(st') == Abstract(st)
  {
    hide Reachable, SameView, Committed, Abstract;
    forall t | t in st.workers ensures SameView(st, st', t) {
      LockFact(st, t);
      ViewFrame(st, st', t);
    }
    LookSame(st, st');
  }

  // ---- the simulation ----

  /** Every step of the module is a step of the simple scheduler, or leaves it where it is. */
  lemma Simulates(st: State, step: Step)
    requires Reachable(st) && Enabled(st, step)
    ensures AbsEnabled(Abstract(st), Meaning(st, step))
    ensures Abstract(Apply(st, step)) == AbsApply(Abstract(st), Meaning(st, step))
  {
    hide Reachable, Abstract, AbsApply, AbsEnabled;
    match step
    case Create(t, budget) => CreateMeans(st, t, budget);
    case Add(t, l, late) => AddMeans(st, t, l, late);
    case Exit(t) => FinishMeans(st, t);
    case _ => SimulatesRest(st, step);
  }

  lemma SimulatesRest(st: State, step: Step)
    requires Reachable(st) && Enabled(st, step) && !step.Create? && !step.Add? && !step.Exit?
    ensures AbsEnabled(Abstract(st), Meaning(st, step))
    ensures Abstract(Apply(st, step)) == AbsApply(Abstract(st), Meaning(st, step))
  {
    hide Reachable, Abstract;
    if Meaning(st, step) == Stutter {
      if Dequeues(step) { StutterOfDequeue(st, step); }
      else if step.Unlock? { StutterOfUnlock(st, step.s); }
      else if Executes(step) { StutterOfExecute(st, step); }
      else { StutterOfClient(st, step); }
    } else {
      hide AbsApply, AbsEnabled;
      match step
      case BeginScan(s) =>
        EmptyMeans(st, s);
        StutterOfDequeue(st, step);
        EmptyApply(Abstract(st), s, st.scheds[s].clid);
      case EndScan(s) => TakeMeans(st, s);
      case Unlock(s) => GiveBackMeans(st, s);
      case DestroyWorker(t) => ForgetMeans(st, t);
    }
  }

  lemma EmptyApply(a: Abs, s: Tid, l: Clid)
    requires AbsEnabled(a, Empty(s, l))
    ensures AbsApply(a, Empty(s, l)) == a
  {}

  // ---- whole runs ----

  ghost predicate AbsRun(a: Abs, steps: seq<AbsStep>)
    decreases |steps|
  {
    |steps| == 0 || (AbsEnabled(a, steps[0]) && AbsRun(AbsApply(a, steps[0]), steps[1..]))
  }

  ghost function AbsAfter(a: Abs, steps: seq<AbsStep>): Abs
    requires AbsRun(a, steps)
    decreases |steps|
  {
    if |steps| == 0 then a else AbsAfter(AbsApply(a, steps[0]), steps[1..])
  }

  function Meanings(st: State, steps: seq<Step>): seq<AbsStep>
    requires ValidRun(st, steps)
    decreases |steps|
  {
    if |steps| == 0 then [] else [Meaning(st, steps[0])] + Meanings(Apply(st, steps[0]), steps[1..])
  }

  /** Every run of the module, read step by step, is a run of the simple scheduler. */
  lemma {:induction false} SimulatesRun(st: State, steps: seq<Step>)
    requires Reachable(st) && ValidRun(st, steps)
    ensures AbsRun(Abstract(st), Meanings(st, steps))
    ensures Abstract(After(st, steps)) == AbsAfter(Abstract(st), Meanings(st, steps))
    decreases |steps|
  {
    hide Reachable, Abstract, AbsApply, AbsEnabled, Meaning;
    if steps != [] {
      Simulates(st, steps[0]);
      ReachableStep(st, steps[0]);
      SimulatesRun(Apply(st, steps[0]), steps[1..]);
      assert Meanings(st, steps)[1..] == Meanings(Apply(st, steps[0]), steps[1..]);
    }
  }

  // ---- what ready and owned mean for the locks ----

  /**
   In every reachable state a live worker is ready or owned, never both. It is owned exactly by the scheduler
   that has it in its batch or in execution, which has it locked; it is ready exactly if it is unlocked or
   locked by a scan that has not answered yet.
   */
  lemma OwnersHold(st: State, t: Tid)
    requires Reachable(st) && Live(st, t)
    ensures Partitioned(Abstract(st))
    ensures var a := Abstract(st);
      && (t in a.owner <==> exists s :: s in st.scheds && Committed(st.scheds[s].pc) && t in Held(st.scheds[s].pc))
      && (t in a.owner ==> a.owner[t] in st.scheds && st.workers[t].lock == a.owner[t] && t in Held(st.scheds[a.owner[t]].pc))
      && (t in a.ready <==>
            (st.workers[t].lock == FREE || exists s :: s in st.scheds && !Committed(st.scheds[s].pc) && t in Held(st.scheds[s].pc)))
  {
    hide Reachable;
    var a := Abstract(st);
    assert a.member.Keys == a.ready + a.owner.Keys;
    WorkerFact(st, t);
    forall s | s in st.scheds && t in Held(st.scheds[s].pc) ensures st.workers[t].lock == s {
      HeldFact(st, s, t);
    }
  }
}
