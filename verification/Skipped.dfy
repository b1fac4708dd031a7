/**
 What becomes of an answer that user space cannot execute completely: a scheduler dequeues again with workers
 in hand. The protocol forbids this to the client; here it is allowed. The workers that are left aside are
 booked under a thread that never moves again, which changes nothing but the name of the holder of their locks.
 */
module Skipped {
  import opened Protocol
  import opened Invariant
  import opened Frames
  import opened Safety
  import opened Theorems
  import Debts

  /** A step of the protocol, or a DEQUEUECOMPLLIST of s that leaves the rest of its batch aside, under p. */
  datatype Move = Normal(step: Step) | Again(s: Tid, p: Tid)

  predicate Possible(st: State, m: Move) {
    match m
    case Normal(step) => Enabled(st, step)
    case Again(s, p) => s in st.scheds && st.scheds[s].pc.InUser? && p !in st.scheds
  }

  function Relocked(workers: map<Tid, Worker>, b: seq<Tid>, p: Tid): map<Tid, Worker> {
    map t | t in workers :: if t in b then workers[t].(lock := p) else workers[t]
  }

  function Parked(x: Sched, now: int): Sched {
    Sched(false, 0, -1, 0, x.clid, x.pc, now, now, now, 0)
  }

  function SetAside(st: State, s: Tid, p: Tid): State
    requires s in st.scheds && st.scheds[s].pc.InUser?
  {
    var x := st.scheds[s];
    st.(workers := Relocked(st.workers, x.pc.batch, p),
        scheds := st.scheds[s := x.(pc := Checking)][p := Parked(x, st.now)])
  }

  function Next(st: State, m: Move): State
    requires Possible(st, m)
  {
    match m
    case Normal(step) => Apply(st, step)
    case Again(s, p) => SetAside(st, s, p)
  }

  /** For s it is the ordinary DEQUEUECOMPLLIST; a worker that s does not have in hand is not touched. */
  lemma AsideExtendsCall(st: State, s: Tid, p: Tid, t: Tid)
    requires Possible(st, Again(s, p)) && t in st.workers
    ensures s in SetAside(st, s, p).scheds && SetAside(st, s, p).scheds[s] == st.scheds[s].(pc := Checking)
    ensures st.scheds[s].pc == InUser([]) ==> Enabled(st, CallDequeue(s)) && SetAside(st, s, p).scheds[s] == Apply(st, CallDequeue(s)).scheds[s]
    ensures SetAside(st, s, p).workers[t] ==
      if t in st.scheds[s].pc.batch then st.workers[t].(lock := p) else st.workers[t]
    ensures forall x :: x in st.scheds && x != s ==> x in SetAside(st, s, p).scheds && SetAside(st, s, p).scheds[x] == st.scheds[x]
  {}

  // ---- the invariant survives ----

  predicate Aside(st: State, s: Tid, p: Tid) {
    s in st.scheds && st.scheds[s].pc.InUser? && p !in st.scheds
  }

  lemma AsideSched(st: State, s: Tid, p: Tid, x: Tid)
    requires Aside(st, s, p) && AllScheds(st) && x in SetAside(st, s, p).scheds
    ensures SchedOk(SetAside(st, s, p), x)
  {
    assert SchedOk(st, s);
    if x != p { assert SchedOk(st, x); }
  }

  lemma AsideWorker(st: State, s: Tid, p: Tid, t: Tid)
    requires Aside(st, s, p) && AllScheds(st) && AllWorkers(st) && t in st.workers
    ensures WorkerOk(SetAside(st, s, p), t)
  {
    assert SchedOk(st, s);
    assert WorkerOk(st, t);
  }

  lemma AsideUp(st: State, s: Tid, p: Tid, t: Tid)
    requires Aside(st, s, p) && AllScheds(st) && AllWorkers(st) && t in st.workers
    ensures Up(SetAside(st, s, p).workers[t], t, SetAside(st, s, p).scheds) == Up(st.workers[t], t, st.scheds)
  {
    assert SchedOk(st, s);
    assert WorkerOk(st, t);
  }

  lemma AsideLists(st: State, s: Tid, p: Tid)
    requires Aside(st, s, p) && AllLists(st)
    ensures AllLists(SetAside(st, s, p))
  {
    var st' := SetAside(st, s, p);
    forall l | l in st'.lists ensures ListOk(st', l) {
      assert ListOk(st, l);
      forall t: Tid ensures QueueOk(st', l, t) { assert QueueOk(st, l, t); }
    }
  }

  lemma AsideGuards(st: State, s: Tid, p: Tid, t: Tid, l: Clid)
    requires Aside(st, s, p) && AllScheds(st) && Guards(st, t, l)
    ensures Guards(SetAside(st, s, p), t, l)
  {
    assert SchedOk(st, s);
    assert SchedOk(st, st.workers[t].lock);
  }

  lemma AsideSleep(st: State, s: Tid, p: Tid)
    requires Aside(st, s, p) && AllScheds(st) && AllSleep(st)
    ensures AllSleep(SetAside(st, s, p))
  {
    hide Guards;
    var st' := SetAside(st, s, p);
    forall x | x in st'.scheds ensures SleepOk(st', x) {
      if st'.scheds[x].pc.Sleeping? {
        assert SleepOk(st, x);
        var t :| Guards(st, t, st.scheds[x].clid);
        AsideGuards(st, s, p, t, st.scheds[x].clid);
      }
    }
  }

  lemma KeepAside(st: State, s: Tid, p: Tid)
    requires Inv(st) && Aside(st, s, p)
    ensures Inv(SetAside(st, s, p))
  {
    hide SchedOk, WorkerOk, ListOk, Up, AllReady, AllSleep, AllLists;
    var st' := SetAside(st, s, p);
    forall x | x in st'.scheds ensures SchedOk(st', x) { AsideSched(st, s, p, x); }
    forall t | t in st'.workers ensures WorkerOk(st', t) { AsideWorker(st, s, p, t); }
    forall t | t in st.workers ensures Up(st'.workers[t], t, st'.scheds) == Up(st.workers[t], t, st.scheds) {
      AsideUp(st, s, p, t);
    }
    ReadyKept(st, st');
    AsideLists(st, s, p);
    AsideSleep(st, s, p);
  }

  lemma KeepMove(st: State, m: Move)
    requires Inv(st) && Possible(st, m)
    ensures Inv(Next(st, m))
  {
    hide Inv;
    match m
    case Normal(step) => KeepStep(st, step);
    case Again(s, p) => KeepAside(st, s, p);
  }

  // ---- what becomes of a worker that was left aside ----

  /** Worker t was left aside and is booked under p. */
  predicate Forgotten(st: State, p: Tid, t: Tid) {
    p in st.scheds && st.scheds[p].pc.InUser? && t in st.scheds[p].pc.batch
  }

  /** Nobody acts as p. */
  predicate Leaves(m: Move, p: Tid) {
    match m
    case Normal(step) => !(step.Execute? && step.s == p)
    case Again(s, _) => s != p
  }

  /** Scheduler x serves a list of worker t and has not been answered -1. */
  predicate Waits(st: State, x: Tid, t: Tid) {
    && x in st.scheds && t in st.workers
    && st.scheds[x].clid in st.workers[t].clids && !st.scheds[x].pc.Leaving?
  }

  lemma ForgottenFact(st: State, p: Tid, t: Tid)
    requires Inv(st) && Forgotten(st, p, t)
    ensures t in st.workers && st.workers[t].lock == p && st.workers[t].state == Idle && st.workers[t].asleep
    ensures forall l :: l in st.workers[t].clids ==> l in st.lists && st.lists[l].nthreads > 0
  {
    assert SchedOk(st, p) && WorkerOk(st, t);
    forall l | l in st.workers[t].clids ensures l in st.lists && st.lists[l].nthreads > 0 {
      assert ListOk(st, l);
      assert QueueOk(st, l, t);
    }
  }

  /** t stays where it is, */
  lemma StaysForgotten(st: State, step: Step, p: Tid, t: Tid)
    requires Inv(st) && Forgotten(st, p, t) && Enabled(st, step) && Leaves(Normal(step), p)
    ensures Forgotten(Apply(st, step), p, t)
  {
    hide Inv;
    if Dequeues(step) {
    } else if Executes(step) {
    } else {
    }
  }

  lemma KeepsLists(st: State, step: Step, p: Tid, t: Tid)
    requires Inv(st) && Forgotten(st, p, t) && Enabled(st, step)
    ensures t in st.workers && t in Apply(st, step).workers && Apply(st, step).workers[t].clids == st.workers[t].clids
  {
    ForgottenFact(st, p, t);
    if step.Unlock? { ExecHolds(st, step.s); }
    hide Inv;
    Debts.HeldStays(st, step, t);
  }

  /** Only a -1 for its list makes a scheduler leave. */
  lemma NotAnswered(st: State, step: Step, x: Tid)
    requires x in st.scheds && !st.scheds[x].pc.Leaving? && Enabled(st, step)
    requires step == BeginScan(x) ==> st.lists[st.scheds[x].clid].nthreads > 0
    ensures x in Apply(st, step).scheds
    ensures Apply(st, step).scheds[x].clid == st.scheds[x].clid && !Apply(st, step).scheds[x].pc.Leaving?
  {
    if Dequeues(step) {
    } else if Executes(step) {
    } else {
    }
  }

  /** and nobody who waits on one of its lists is ever answered -1. */
  lemma StaysWaiting(st: State, step: Step, p: Tid, t: Tid, x: Tid)
    requires Inv(st) && Forgotten(st, p, t) && Waits(st, x, t) && Enabled(st, step)
    ensures Waits(Apply(st, step), x, t)
  {
    ForgottenFact(st, p, t);
    KeepsLists(st, step, p, t);
    hide Inv, Enabled, Apply, Forgotten;
    NotAnswered(st, step, x);
  }

  lemma StaysAside(st: State, s: Tid, q: Tid, p: Tid, t: Tid)
    requires Aside(st, s, q) && s != p && Forgotten(st, p, t)
    ensures Forgotten(SetAside(st, s, q), p, t)
  {}

  lemma WaitsAside(st: State, s: Tid, q: Tid, t: Tid, x: Tid)
    requires Aside(st, s, q) && Waits(st, x, t)
    ensures Waits(SetAside(st, s, q), x, t)
  {}

  predicate CanRun(st: State, moves: seq<Move>)
    decreases |moves|
  {
    |moves| == 0 || (Possible(st, moves[0]) && CanRun(Next(st, moves[0]), moves[1..]))
  }

  function EndOf(st: State, moves: seq<Move>): State
    requires CanRun(st, moves)
    decreases |moves|
  {
    if |moves| == 0 then st else EndOf(Next(st, moves[0]), moves[1..])
  }

  /**
   A worker that was left aside stays locked and idle for ever, none of its lists runs empty of live workers,
   and no scheduler that waits on one of them is ever answered -1, whatever anybody else does.
   */
  lemma {:induction false} ForgottenForever(st: State, moves: seq<Move>, p: Tid, t: Tid, x: Tid)
    requires Inv(st) && Forgotten(st, p, t) && Waits(st, x, t) && CanRun(st, moves)
    requires forall i :: 0 <= i < |moves| ==> Leaves(moves[i], p)
    ensures var end := EndOf(st, moves);
      && t in end.workers && end.workers[t].lock == p && end.workers[t].state == Idle
      && (forall l :: l in end.workers[t].clids ==> l in end.lists && end.lists[l].nthreads > 0)
      && Waits(end, x, t)
    decreases |moves|
  {
    hide Inv, Enabled, Apply, SetAside, Forgotten, Waits;
    if moves == [] {
      ForgottenFact(st, p, t);
    } else {
      KeepMove(st, moves[0]);
      assert Leaves(moves[0], p);
      match moves[0] {
        case Normal(step) =>
          StaysForgotten(st, step, p, t);
          StaysWaiting(st, step, p, t, x);
        case Again(s, q) =>
          StaysAside(st, s, q, p, t);
          WaitsAside(st, s, q, t, x);
      }
      assert forall i :: 0 <= i < |moves[1..]| ==> moves[1..][i] == moves[i + 1];
      ForgottenForever(Next(st, moves[0]), moves[1..], p, t, x);
    }
  }

  /**
   So a scheduler that dequeues again with worker t in hand never leaves its loop, and t never runs again: every
   scheduler of a list of t, the careless one included, waits for ever.
   */
  lemma SkippingNeverEnds(st: State, s: Tid, p: Tid, t: Tid, moves: seq<Move>, x: Tid)
    requires Reachable(st) && Possible(st, Again(s, p)) && t in st.scheds[s].pc.batch
    requires CanRun(SetAside(st, s, p), moves) && forall i :: 0 <= i < |moves| ==> Leaves(moves[i], p)
    requires x == s || Waits(st, x, t)
    ensures var end := EndOf(SetAside(st, s, p), moves);
      && t in end.workers && end.workers[t].lock != FREE && end.workers[t].state == Idle
      && x in end.scheds && !end.scheds[x].pc.Leaving?
  {
    hide Reachable, Inv, EndOf, CanRun, SetAside;
    ReachableInv(st);
    ExclusiveOwnership(st, s, t);
    KeepAside(st, s, p);
    BookedUnder(st, s, p, t);
    WaitsAside(st, s, p, t, x);
    ForgottenForever(SetAside(st, s, p), moves, p, t, x);
  }

  lemma BookedUnder(st: State, s: Tid, p: Tid, t: Tid)
    requires Aside(st, s, p) && t in st.scheds[s].pc.batch
    ensures Forgotten(SetAside(st, s, p), p, t)
  {}

  // ---- a batch that is executed ----

  /** The workers s puts in execution during the run, in order. */
  function Executed(steps: seq<Step>, st: State, s: Tid): seq<Tid>
    requires ValidRun(st, steps)
    decreases |steps|
  {
    if |steps| == 0 then []
    else
      (if steps[0].Execute? && steps[0].s == s then [st.scheds[s].pc.batch[steps[0].i]] else [])
      + Executed(steps[1..], Apply(st, steps[0]), s)
  }

  /** What s has still to execute. */
  predicate HasBatch(st: State, s: Tid) {
    s in st.scheds && (st.scheds[s].pc.InUser? || st.scheds[s].pc.Exec?)
  }

  lemma WithoutOne(b: seq<Tid>, i: nat)
    requires i < |b|
    ensures multiset(Without(b, i)) + multiset{b[i]} == multiset(b)
  {
    assert b == b[..i] + [b[i]] + b[i + 1..];
  }

  lemma BatchStep(st: State, step: Step, s: Tid)
    requires HasBatch(st, s) && Enabled(st, step) && step != CallDequeue(s)
    ensures var st' := Apply(st, step);
      && HasBatch(st', s)
      && if step.Execute? && step.s == s then
           st.scheds[s].pc.InUser? && multiset(st'.scheds[s].pc.batch) + multiset{st.scheds[s].pc.batch[step.i]} == multiset(st.scheds[s].pc.batch)
         else st'.scheds[s].pc.batch == st.scheds[s].pc.batch
  {
    if step.Execute? && step.s == s {
      WithoutOne(st.scheds[s].pc.batch, step.i);
    } else {
      BatchKept(st, step, s);
    }
  }

  lemma BatchKept(st: State, step: Step, s: Tid)
    requires HasBatch(st, s) && Enabled(st, step) && step != CallDequeue(s) && !(step.Execute? && step.s == s)
    ensures HasBatch(Apply(st, step), s) && Apply(st, step).scheds[s].pc.batch == st.scheds[s].pc.batch
  {
    if Dequeues(step) {
    } else if Executes(step) {
    } else {
    }
  }

  /** Until it dequeues again, what s has executed and what it has in hand make up its batch, whatever the others do. */
  lemma {:induction false} BatchAddsUp(st: State, steps: seq<Step>, s: Tid)
    requires HasBatch(st, s) && ValidRun(st, steps) && CallDequeue(s) !in steps
    ensures HasBatch(After(st, steps), s)
    ensures multiset(Executed(steps, st, s)) + multiset(After(st, steps).scheds[s].pc.batch) == multiset(st.scheds[s].pc.batch)
    decreases |steps|
  {
    hide Enabled, Apply, HasBatch;
    if steps != [] {
      BatchStep(st, steps[0], s);
      BatchAddsUp(Apply(st, steps[0]), steps[1..], s);
    }
  }

  /** Every execute of s takes the head of what it has in hand, as the loop over the answer does. */
  ghost predicate HeadFirst(steps: seq<Step>, s: Tid) {
    forall i :: 0 <= i < |steps| && steps[i].Execute? && steps[i].s == s ==> steps[i].i == 0
  }

  lemma HeadTaken(st: State, step: Step, s: Tid)
    requires HasBatch(st, s) && Enabled(st, step) && step.Execute? && step.s == s && step.i == 0
    ensures [st.scheds[s].pc.batch[0]] + Apply(st, step).scheds[s].pc.batch == st.scheds[s].pc.batch
  {}

  /** Then the workers come in the order of the answer, whatever the others do. */
  lemma {:induction false} BatchInOrder(st: State, steps: seq<Step>, s: Tid)
    requires HasBatch(st, s) && ValidRun(st, steps) && CallDequeue(s) !in steps && HeadFirst(steps, s)
    ensures HasBatch(After(st, steps), s)
    ensures Executed(steps, st, s) + After(st, steps).scheds[s].pc.batch == st.scheds[s].pc.batch
    decreases |steps|
  {
    hide Enabled, Apply, HasBatch;
    if steps != [] {
      var st' := Apply(st, steps[0]);
      BatchStep(st, steps[0], s);
      InHand(st, s);
      InHand(st', s);
      assert forall i :: 0 <= i < |steps[1..]| ==> steps[1..][i] == steps[i + 1];
      BatchInOrder(st', steps[1..], s);
      InHand(After(st', steps[1..]), s);
      var more, left := Executed(steps[1..], st', s), After(st', steps[1..]).scheds[s].pc.batch;
      if steps[0].Execute? && steps[0].s == s {
        HeadTaken(st, steps[0], s);
        InOrder([st.scheds[s].pc.batch[0]], more, left);
      } else {
        InOrder([], more, left);
      }
    } else {
      InHand(st, s);
    }
  }

  lemma InOrder(a: seq<Tid>, b: seq<Tid>, c: seq<Tid>)
    ensures (a + b) + c == a + (b + c) && [] + b == b
  {}

  lemma InHand(st: State, s: Tid)
    requires HasBatch(st, s)
    ensures s in st.scheds && (st.scheds[s].pc.InUser? || st.scheds[s].pc.Exec?)
  {}

  /** A scheduler that has executed its whole batch, in any order and with any others about, holds no worker when it is back. */
  lemma WholeBatchDone(st: State, steps: seq<Step>, s: Tid, t: Tid)
    requires Reachable(st) && s in st.scheds && st.scheds[s].pc.InUser? && ValidRun(st, steps) && CallDequeue(s) !in steps
    requires multiset(Executed(steps, st, s)) == multiset(st.scheds[s].pc.batch)
    requires s in After(st, steps).scheds && !After(st, steps).scheds[s].pc.Exec?
    ensures After(st, steps).scheds[s].pc == InUser([])
    ensures t in After(st, steps).workers ==> After(st, steps).workers[t].lock != s
  {
    hide Reachable, ValidRun, After, Executed;
    BatchAddsUp(st, steps, s);
    ReachableRun(st, steps);
    var end := After(st, steps);
    NothingLeft(multiset(Executed(steps, st, s)), end.scheds[s].pc.batch);
    if t in end.workers { HoldsNothing(end, s, t); }
  }

  lemma NothingLeft(all: multiset<Tid>, b: seq<Tid>)
    requires all + multiset(b) == all
    ensures b == []
  {
    assert |all + multiset(b)| == |all| + |multiset(b)|;
  }

  lemma HoldsNothing(st: State, s: Tid, t: Tid)
    requires Reachable(st) && s in st.scheds && st.scheds[s].pc == InUser([]) && t in st.workers
    ensures st.workers[t].lock != s
  {
    hide Reachable;
    WorkerFact(st, t);
  }
}
