/**
 Runs in which sleeping schedulers may be woken for no reason and waits interrupted, without end. A second
 measure, which such steps leave alone, bounds everything but rounds without a lock.
 */
module Strays {
  import opened Totals
  import opened Protocol
  import opened Safety
  import opened Measure
  import opened Descent
  import opened Progress

  /** Steps of threads inside a request, the clock, stray wakes and interrupted waits: no client growth. */
  predicate Open(step: Step) {
    Closed(step) || step.Spurious? || step.Signal?
  }

  // ---- the measure ----

  /** What a scheduler may still do before some worker moves, if it is woken as often as anybody likes. */
  function Round(pc: PC): nat {
    match pc
    case Scanning(rest, got) => if got == [] then 2 else 4 + |rest|
    case InUser(_) => 3
    case Leaving => 1
    case _ => 2
  }

  ghost function RoundMap(st: State): map<Tid, int> {
    map s | s in st.scheds :: Round(st.scheds[s].pc)
  }

  ghost function Rounds(st: State): int { Total(RoundMap(st)) }

  ghost predicate Level(a: State, b: State) { Coarse(b) == Coarse(a) && Rounds(b) == Rounds(a) }

  ghost predicate Lower(a: State, b: State) {
    Coarse(b) < Coarse(a) || (Coarse(b) == Coarse(a) && Rounds(b) < Rounds(a))
  }

  /** A step of a round without a lock, of the wait for a running worker, of nobody's making, or of the clock. */
  predicate Idles(st: State, step: Step)
    requires Enabled(st, step)
  {
    match step
    case CheckReady(_) => true
    case BeginScan(s) => st.lists[st.scheds[s].clid].nthreads != 0
    case Visit(s, t) => st.scheds[s].pc.got == [] && !CanTake(st, s, t)
    case EndScan(s) => st.scheds[s].pc.got == []
    case WaitCheck(s) => st.workers[st.scheds[s].pc.t].state == Running
    case Spurious(_) => true
    case Signal(_) => true
    case Tick(_) => true
    case _ => false
  }

  lemma RoundMoves(st: State, s: Tid, pc: PC)
    requires s in st.scheds
    ensures Rounds(At(st, s, pc)) == Rounds(st) - Round(st.scheds[s].pc) + Round(pc)
  {
    hide Round;
    assert RoundMap(At(st, s, pc)) == RoundMap(st)[s := Round(pc)];
    TotalSet(RoundMap(st), s, Round(pc));
  }

  /** One scheduler moves between positions that rank its workers alike. */
  lemma MovesRound(st: State, s: Tid, pc: PC)
    requires s in st.scheds
    requires forall u, c: nat :: HeldRank(pc, u, c) == HeldRank(st.scheds[s].pc, u, c)
    requires forall u :: InTail(pc, u) == InTail(st.scheds[s].pc, u)
    ensures Coarse(At(st, s, pc)) == Coarse(st)
    ensures Rounds(At(st, s, pc)) == Rounds(st) - Round(st.scheds[s].pc) + Round(pc)
  {
    hide HeldRank, InTail, Coarse, Rounds;
    RankedAlike(st, s, pc);
    RoundMoves(st, s, pc);
  }

  /** What this measure owes a step. */
  ghost predicate Lowers(st: State, step: Step)
    requires Enabled(st, step)
  {
    if Idles(st, step) then Level(st, Apply(st, step)) else Lower(st, Apply(st, step))
  }

  lemma CallLowers(st: State, s: Tid)
    requires Enabled(st, CallDequeue(s))
    ensures Lowers(st, CallDequeue(s))
  {
    MovesRound(st, s, Checking);
    hide Coarse, Rounds;
  }

  lemma CheckLowers(st: State, s: Tid)
    requires Enabled(st, CheckReady(s))
    ensures Lowers(st, CheckReady(s))
  {
    MovesRound(st, s, DoCheckReady(st, s).scheds[s].pc);
    hide Coarse, Rounds;
  }

  lemma BeginLowers(st: State, s: Tid)
    requires Enabled(st, BeginScan(s))
    ensures Lowers(st, BeginScan(s))
  {
    MovesRound(st, s, DoBeginScan(st, s).scheds[s].pc);
    hide Coarse, Rounds;
  }

  lemma VisitLowers(st: State, s: Tid, t: Tid)
    requires Reachable(st) && Enabled(st, Visit(s, t))
    ensures Lowers(st, Visit(s, t))
  {
    hide Reachable;
    if CanTake(st, s, t) {
      TakeDescends(st, s, t);
    } else {
      MovesRound(st, s, Scanning(st.scheds[s].pc.rest - multiset{t}, st.scheds[s].pc.got));
    }
    hide Coarse, Rounds;
  }

  lemma EndLowers(st: State, s: Tid)
    requires Enabled(st, EndScan(s))
    ensures Lowers(st, EndScan(s))
  {
    MovesRound(st, s, DoEndScan(st, s).scheds[s].pc);
    hide Coarse, Rounds;
  }

  lemma WaitLowers(st: State, s: Tid)
    requires Reachable(st) && Enabled(st, WaitCheck(s))
    ensures Lowers(st, WaitCheck(s))
  {
    hide Reachable;
    WaitCheckDescends(st, s);
    RoundMoves(st, s, DoWaitCheck(st, s).scheds[s].pc);
    hide Coarse, Rounds;
  }

  lemma StrayLowers(st: State, s: Tid, step: Step)
    requires Enabled(st, step) && (step == Spurious(s) || step == Signal(s))
    ensures Lowers(st, step)
  {
    MovesRound(st, s, if step.Signal? then Entering else Woken(st.scheds[s].pc));
    hide Coarse, Rounds;
  }

  lemma LeaveLowers(st: State, s: Tid)
    requires Reachable(st) && Enabled(st, Leave(s))
    ensures Lowers(st, Leave(s))
  {
    hide Reachable, Coarse;
    LeaveDescends(st, s);
    var st' := DoLeave(st, s);
    assert RoundMap(st') == RoundMap(st) - {s};
    TotalRemove(RoundMap(st), s);
  }

  lemma TickLowers(st: State, d: nat)
    ensures Lowers(st, Tick(d))
  {
    var st' := st.(now := st.now + d);
    assert WorkMap(st') == WorkMap(st) && RoundMap(st') == RoundMap(st);
  }

  lemma DropLowers(st: State, step: Step)
    requires Enabled(st, step) && !Idles(st, step) && Drops(st, Apply(st, step))
    ensures Lowers(st, step)
  {
    hide Coarse, Rounds, Apply, Enabled;
  }

  /** Steps that move a worker. */
  lemma WorkLowers(st: State, step: Step)
    requires Reachable(st) && Closed(step) && Enabled(st, step)
    requires step.DecOne? || step.DecDone? || (!Dequeues(step) && !step.WaitCheck? && !step.Leave? && !step.Tick?)
    ensures Lowers(st, step)
  {
    hide Reachable, Drops, Lowers;
    match step
    case DecOne(s) => DecOneDescends(st, s); DropLowers(st, step);
    case DecDone(s) => DecDoneDescends(st, s); DropLowers(st, step);
    case Execute(s, i) => ExecuteDescends(st, s, i); DropLowers(st, step);
    case UpdateTime(s) => UpdateTimeDescends(st, s); DropLowers(st, step);
    case IncOne(s) => IncOneDescends(st, s); DropLowers(st, step);
    case IncDone(s) => IncDoneDescends(st, s); DropLowers(st, step);
    case WakeOne(s) => WakeOneDescends(st, s); DropLowers(st, step);
    case Unlock(s) => UnlockDescends(st, s); DropLowers(st, step);
    case Yield(t) => YieldDescends(st, t); DropLowers(st, step);
    case Exit(t) => ExitDescends(st, t); DropLowers(st, step);
  }

  /** Every step but an idle one makes this measure smaller, and an idle one leaves it, strays included. */
  lemma OpenLowers(st: State, step: Step)
    requires Reachable(st) && Open(step) && Enabled(st, step)
    ensures Lowers(st, step)
  {
    hide Reachable, Lowers, Enabled;
    match step
    case CallDequeue(s) => CallLowers(st, s);
    case CheckReady(s) => CheckLowers(st, s);
    case BeginScan(s) => BeginLowers(st, s);
    case Visit(s, t) => VisitLowers(st, s, t);
    case EndScan(s) => EndLowers(st, s);
    case WaitCheck(s) => WaitLowers(st, s);
    case Leave(s) => LeaveLowers(st, s);
    case Spurious(s) => StrayLowers(st, s, step);
    case Signal(s) => StrayLowers(st, s, step);
    case Tick(d) => TickLowers(st, d);
    case _ => WorkLowers(st, step);
  }

  // ---- endless runs ----

  /** f and g are an infinite run in which the client adds nothing. */
  ghost predicate EndlessOpen(f: nat -> State, g: nat -> Step) {
    forall i: nat :: Open(g(i)) && Enabled(f(i), g(i)) && f(i + 1) == Apply(f(i), g(i))
  }

  ghost predicate IdlesFrom(f: nat -> State, g: nat -> Step, n: nat)
    requires EndlessOpen(f, g)
  {
    forall m: nat :: n <= m ==> Idles(f(m), g(m))
  }

  lemma {:induction false} OpenReachable(f: nat -> State, g: nat -> Step, i: nat)
    requires EndlessOpen(f, g) && Reachable(f(0))
    ensures Reachable(f(i))
  {
    hide Reachable;
    if i > 0 {
      OpenReachable(f, g, i - 1);
      ReachableStep(f(i - 1), g(i - 1));
    }
  }

  lemma {:induction false} NeverRises(f: nat -> State, g: nat -> Step, i: nat, j: nat)
    requires EndlessOpen(f, g) && Reachable(f(0)) && i <= j
    ensures Level(f(i), f(j)) || Lower(f(i), f(j))
    decreases j - i
  {
    hide Reachable, Coarse, Rounds;
    if i < j {
      NeverRises(f, g, i, j - 1);
      OpenReachable(f, g, j - 1);
      OpenLowers(f(j - 1), g(j - 1));
    }
  }

  lemma BoundedBelow(st: State)
    requires Reachable(st)
    ensures 0 <= Coarse(st) && 0 <= Rounds(st)
  {
    hide Coarse;
    Bounded(st);
    TotalNonNegative(RoundMap(st));
  }

  lemma {:induction false} WorkStops(f: nat -> State, g: nat -> Step, i: nat) returns (n: nat)
    requires EndlessOpen(f, g) && Reachable(f(0))
    ensures IdlesFrom(f, g, n)
    decreases Coarse(f(i)), Rounds(f(i))
  {
    hide Reachable, Coarse, Rounds;
    if j: nat :| i <= j && !Idles(f(j), g(j)) {
      NeverRises(f, g, i, j);
      OpenReachable(f, g, j);
      OpenLowers(f(j), g(j));
      OpenReachable(f, g, i);
      OpenReachable(f, g, j + 1);
      BoundedBelow(f(i));
      BoundedBelow(f(j + 1));
      n := WorkStops(f, g, j + 1);
    } else {
      n := i;
    }
  }
}
