/** Which workers an answer of DEQUEUECOMPLLIST can name. */
module Answers {
  import opened Protocol
  import opened Safety
  import opened Theorems
  import opened Solo

  /** All steps are s's own, in DEQUEUECOMPLLIST. */
  ghost predicate OnlyDequeues(steps: seq<Step>, s: Tid) {
    forall i :: 0 <= i < |steps| ==> Dequeues(steps[i]) && steps[i].s == s
  }

  /** Scheduler s is at this place. */
  predicate IsAt(st: State, s: Tid, pc: PC) {
    s in st.scheds && st.scheds[s].pc == pc
  }

  lemma GoOn(st: State, step: Step, more: seq<Step>, s: Tid)
    requires Enabled(st, step) && Dequeues(step) && step.s == s
    requires ValidRun(Apply(st, step), more) && OnlyDequeues(more, s)
    ensures ValidRun(st, [step] + more) && OnlyDequeues([step] + more, s)
    ensures After(st, [step] + more) == After(Apply(st, step), more)
  {
    hide Enabled, Apply;
    assert ([step] + more)[1..] == more;
  }

  /** Taking a step that is due. */
  lemma Due(st: State, step: Step)
    requires Reachable(st) && Guard(st, step)
    ensures Enabled(st, step) && Reachable(Apply(st, step))
  {
    hide Reachable, Guard, Resolves, Apply;
    NoDangling(st, step);
    ReachableStep(st, step);
  }

  /** The decrement loop can be gone through to its end. */
  lemma {:induction false} DecRun(st: State, s: Tid, rest: multiset<Tid>, got: seq<Tid>, k: nat) returns (steps: seq<Step>)
    requires Reachable(st) && IsAt(st, s, Dec(rest, got, k))
    ensures ValidRun(st, steps) && OnlyDequeues(steps, s) && IsAt(After(st, steps), s, Scanning(rest, got))
    decreases DecLeft(st, s)
  {
    hide Reachable, ValidRun, After;
    DecHasWorker(st, s);
    if k < |DecClids(st, s)| {
      Due(st, DecOne(s));
      DecAdvances(st, s);
      steps := DecRun(DoDecOne(st, s), s, rest, got, k + 1);
      GoOn(st, DecOne(s), steps, s);
      steps := [DecOne(s)] + steps;
    } else {
      Due(st, DecDone(s));
      Nothing(DoDecDone(st, s), s);
      GoOn(st, DecDone(s), [], s);
      steps := [DecDone(s)] + [];
    }
  }

  ghost function DecLeft(st: State, s: Tid): int {
    if DecWorker(st, s) then |DecClids(st, s)| - st.scheds[s].pc.k else 0
  }

  lemma DecAdvances(st: State, s: Tid)
    requires Enabled(st, DecOne(s))
    ensures DecWorker(st, s) && IsAt(DoDecOne(st, s), s, st.scheds[s].pc.(k := st.scheds[s].pc.k + 1))
    ensures 0 <= DecLeft(DoDecOne(st, s), s) < DecLeft(st, s)
  {}

  lemma Nothing(st: State, s: Tid)
    ensures ValidRun(st, []) && After(st, []) == st && OnlyDequeues([], s)
  {}

  /** One visit, and the decrement loop if it locks the worker. */
  lemma VisitRun(st: State, s: Tid, rest: multiset<Tid>, got: seq<Tid>, t: Tid) returns (steps: seq<Step>, more: seq<Tid>)
    requires Reachable(st) && IsAt(st, s, Scanning(rest, got)) && t in rest
    ensures ValidRun(st, steps) && OnlyDequeues(steps, s)
    ensures IsAt(After(st, steps), s, Scanning(rest - multiset{t}, more)) && (more == got || more == got + [t])
    ensures Enabled(st, Visit(s, t)) && (CanTake(st, s, t) ==> more == got + [t])
  {
    hide Reachable, ValidRun, After;
    Due(st, Visit(s, t));
    var st' := DoVisit(st, s, t);
    if CanTake(st, s, t) {
      more := got + [t];
      steps := DecRun(st', s, rest - multiset{t}, more, 0);
    } else {
      more, steps := got, [];
      Nothing(st', s);
    }
    GoOn(st, Visit(s, t), steps, s);
    steps := [Visit(s, t)] + steps;
  }

  lemma Joined(st: State, a: seq<Step>, b: seq<Step>, s: Tid)
    requires ValidRun(st, a) && ValidRun(After(st, a), b) && OnlyDequeues(a, s) && OnlyDequeues(b, s)
    ensures ValidRun(st, a + b) && OnlyDequeues(a + b, s) && After(st, a + b) == After(After(st, a), b)
  {
    RunConcat(st, a, b);
  }

  /** The rest of the scan: what has been taken stays taken, and is answered. */
  lemma {:induction false} ScanRun(st: State, s: Tid, rest: multiset<Tid>, got: seq<Tid>) returns (steps: seq<Step>, ready: seq<Tid>)
    requires Reachable(st) && IsAt(st, s, Scanning(rest, got)) && got != []
    ensures ValidRun(st, steps) && OnlyDequeues(steps, s) && IsAt(After(st, steps), s, InUser(ready)) && got <= ready
    decreases |rest|
  {
    hide Reachable, ValidRun, After;
    if rest == multiset{} {
      Due(st, EndScan(s));
      Nothing(DoEndScan(st, s), s);
      GoOn(st, EndScan(s), [], s);
      steps, ready := [EndScan(s)] + [], got;
    } else {
      var t :| t in rest;
      var more, last;
      steps, more := VisitRun(st, s, rest, got, t);
      hide IsAt, Enabled, CanTake;
      ReachableRun(st, steps);
      last, ready := ScanRun(After(st, steps), s, rest - multiset{t}, more);
      Joined(st, steps, last, s);
      steps := steps + last;
    }
  }

  /** A worker that the scan has still to visit, and could take now, can be part of the answer. */
  lemma TakenNext(st: State, s: Tid, rest: multiset<Tid>, got: seq<Tid>, t: Tid) returns (steps: seq<Step>, ready: seq<Tid>)
    requires Reachable(st) && IsAt(st, s, Scanning(rest, got)) && t in rest
    requires Enabled(st, Visit(s, t)) && CanTake(st, s, t)
    ensures ValidRun(st, steps) && OnlyDequeues(steps, s) && IsAt(After(st, steps), s, InUser(ready)) && t in ready
  {
    hide Reachable, ValidRun, After, IsAt, Enabled, CanTake;
    var more, last;
    steps, more := VisitRun(st, s, rest, got, t);
    ReachableRun(st, steps);
    last, ready := ScanRun(After(st, steps), s, rest - multiset{t}, more);
    Joined(st, steps, last, s);
    steps := steps + last;
    assert more[|got|] == t;
  }

  /** Every unlocked live worker of the list can be part of the next answer, by steps of the caller alone. */
  lemma CanBeAnswered(st: State, s: Tid, t: Tid) returns (steps: seq<Step>, ready: seq<Tid>)
    requires Reachable(st) && Enabled(st, BeginScan(s)) && Takeable(st, s, t)
    ensures ValidRun(st, steps) && OnlyDequeues(steps, s) && IsAt(After(st, steps), s, InUser(ready)) && t in ready
  {
    hide Reachable, ValidRun, After;
    var l := st.scheds[s].clid;
    LiveExact(st, l);
    RoomForOne(st);
    ReachableStep(st, BeginScan(s));
    var u := DoBeginScan(st, s);
    assert IsAt(u, s, Scanning(st.lists[l].queue, []));
    assert Enabled(u, Visit(s, t)) && CanTake(u, s, t);
    hide IsAt, Enabled, CanTake;
    steps, ready := TakenNext(u, s, st.lists[l].queue, [], t);
    GoOn(st, BeginScan(s), steps, s);
    steps := [BeginScan(s)] + steps;
  }

}
