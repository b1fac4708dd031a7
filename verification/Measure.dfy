/**
 A termination measure. It never grows while the client adds nothing, and every step makes it smaller
 except the rounds of a dequeue that have not locked a worker.
 */
module Measure {
  import opened Totals
  import opened Protocol
  import opened Invariant

  // ---- the measure ----

  /** Steps left in the cycle of a held worker with c list entries while its holder is at pc. */
  function HeldRank(pc: PC, t: Tid, c: nat): int {
    match pc
    case Dec(_, got, k) => if got != [] && got[|got| - 1] == t then 3 * c + 7 - k else 2 * c + 6
    case Exec(t', _, ph) => if t' == t then TailRank(ph, c) else 2 * c + 6
    case _ => 2 * c + 6
  }

  /** Steps left in the tail of EXECUTEUMSTHREAD once the worker has stopped. */
  function TailRank(ph: Phase, c: nat): int {
    match ph
    case Waiting => 2 * c + 4
    case Asleep => 2 * c + 4
    case Timing => 2 * c + 3
    case Inc(k) => 2 * c + 2 - k
    case Wake(k) => c + 1 - k
  }

  /** The length of a worker's cycle from unlocked to unlocked. */
  function Cycle(c: nat): nat { 3 * c + 8 }

  predicate InTail(pc: PC, t: Tid) { pc.Exec? && pc.t == t }

  /** The work worker t still stands for: its remaining yields, each a full cycle, and where it is in this one. */
  function Work(w: Worker, t: Tid, scheds: map<Tid, Sched>): int {
    var c := |w.clids|;
    match w.state
    case Running => w.left * Cycle(c) + 2 * c + 5
    case Idle =>
      if w.lock !in scheds then w.left * Cycle(c) + Cycle(c)
      else
        var pc := scheds[w.lock].pc;
        w.left * Cycle(c) + HeldRank(pc, t, c) + if InTail(pc, t) then Cycle(c) else 0
    case Exiting => if w.lock in scheds then HeldRank(scheds[w.lock].pc, t, c) else 0
  }

  /** What a scheduler may still do before some worker moves; rounds without a lock stay at one value. */
  function Stage(pc: PC): nat {
    match pc
    case InUser(_) => 3
    case Scanning(rest, got) => if got == [] then 2 else 4 + |rest|
    case Dec(_, _, _) => 4
    case Exec(_, _, ph) => if ph.Waiting? then 5 else 4
    case Sleeping => 1
    case Leaving => 1
    case _ => 2
  }

  ghost function WorkMap(st: State): map<Tid, int> {
    map t | t in st.workers :: Work(st.workers[t], t, st.scheds)
  }

  ghost function StageMap(st: State): map<Tid, int> {
    map s | s in st.scheds :: Stage(st.scheds[s].pc)
  }

  ghost function Coarse(st: State): int { Total(WorkMap(st)) }

  ghost function Fine(st: State): int { Total(StageMap(st)) }

  ghost predicate Same(st: State, st': State) {
    Coarse(st') == Coarse(st) && Fine(st') == Fine(st)
  }

  ghost predicate Smaller(st: State, st': State) {
    Coarse(st') < Coarse(st) || (Coarse(st') == Coarse(st) && Fine(st') < Fine(st))
  }

  /** The remaining work itself got smaller. */
  ghost predicate Drops(st: State, st': State) {
    Smaller(st, st') && Coarse(st') < Coarse(st)
  }

  // ---- which steps count ----

  /** Steps of threads that are inside a request, and the clock: no client growth, no stray wake. */
  predicate Closed(step: Step) {
    match step
    case InitList => false
    case Create(_, _) => false
    case Add(_, _, _) => false
    case Enter(_, _) => false
    case Spurious(_) => false
    case Signal(_) => false
    case DestroyList(_) => false
    case DestroyWorker(_) => false
    case _ => true
  }

  /** A step of a dequeue round that has locked nothing, or the passage of time. */
  predicate Pauses(st: State, step: Step)
    requires Enabled(st, step)
  {
    match step
    case CheckReady(s) =>
      var q := st.lists[st.scheds[s].clid];
      q.ready > 0 || q.nthreads == 0
    case BeginScan(s) => st.lists[st.scheds[s].clid].nthreads != 0
    case Visit(s, t) => st.scheds[s].pc.got == [] && !CanTake(st, s, t)
    case EndScan(s) => st.scheds[s].pc.got == []
    case Tick(_) => true
    case _ => false
  }

  // ---- sums ----

  lemma WorkNonNegative(st: State)
    requires Inv(st)
    ensures 0 <= Coarse(st) && 0 <= Fine(st)
  {
    forall t | t in st.workers ensures 0 <= WorkMap(st)[t] {
      WorkBound(st, t);
    }
    TotalNonNegative(WorkMap(st));
    TotalNonNegative(StageMap(st));
  }

  lemma WorkBound(st: State, t: Tid)
    requires AllWorkers(st) && AllScheds(st) && t in st.workers
    ensures 0 <= Work(st.workers[t], t, st.scheds)
  {
    assert WorkerOk(st, t);
    var w := st.workers[t];
    if w.lock in st.scheds { assert SchedOk(st, w.lock); }
    assert 0 <= w.left * Cycle(|w.clids|);
  }

  /** Worker t got closer to its end and nobody got further from it. */
  lemma WorkDrops(st: State, st': State, t: Tid)
    requires st'.workers.Keys == st.workers.Keys && t in st.workers
    requires forall u :: u in st.workers && u != t ==> Work(st'.workers[u], u, st'.scheds) == Work(st.workers[u], u, st.scheds)
    requires Work(st'.workers[t], t, st'.scheds) < Work(st.workers[t], t, st.scheds)
    ensures Drops(st, st')
  {
    hide Work;
    var n := Work(st'.workers[t], t, st'.scheds);
    assert WorkMap(st') == WorkMap(st)[t := n];
    TotalSet(WorkMap(st), t, n);
  }

  /** No worker moved; scheduler s did. */
  lemma StageMoves(st: State, s: Tid, pc: PC)
    requires s in st.scheds
    requires forall u :: u in st.workers ==> Work(st.workers[u], u, At(st, s, pc).scheds) == Work(st.workers[u], u, st.scheds)
    ensures Coarse(At(st, s, pc)) == Coarse(st)
    ensures Fine(At(st, s, pc)) == Fine(st) - Stage(st.scheds[s].pc) + Stage(pc)
  {
    hide Work, Stage;
    var st' := At(st, s, pc);
    assert WorkMap(st') == WorkMap(st);
    assert StageMap(st') == StageMap(st)[s := Stage(pc)];
    TotalSet(StageMap(st), s, Stage(pc));
  }

  /** Positions that rank every worker s holds alike. */
  lemma RankedAlike(st: State, s: Tid, pc: PC)
    requires s in st.scheds
    requires forall u, c: nat :: HeldRank(pc, u, c) == HeldRank(st.scheds[s].pc, u, c)
    requires forall u :: InTail(pc, u) == InTail(st.scheds[s].pc, u)
    ensures Coarse(At(st, s, pc)) == Coarse(st)
    ensures Fine(At(st, s, pc)) == Fine(st) - Stage(st.scheds[s].pc) + Stage(pc)
  {
    hide HeldRank, InTail;
    StageMoves(st, s, pc);
  }
}
