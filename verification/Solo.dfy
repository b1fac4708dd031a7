/** Closed forms of the loops of a handler that runs without interference, step by step. */
module Solo {
  import opened Protocol
  import opened Invariant
  import opened Safety
  import opened Theorems

  // ---- a counter loop over a clid_list ----

  /** threads_ready after d was added once for every element of c. */
  function BumpBy(lists: map<Clid, CList>, c: seq<Clid>, d: int): map<Clid, CList> {
    map l | l in lists :: lists[l].(ready := lists[l].ready + d * multiset(c)[l])
  }

  lemma BumpBySnoc(lists: map<Clid, CList>, c: seq<Clid>, k: nat, d: int)
    requires k < |c| && c[k] in lists
    ensures BumpBy(lists, c[..k + 1], d) == BumpReady(BumpBy(lists, c[..k], d), c[k], d)
  {
    assert c[..k + 1] == c[..k] + [c[k]];
    var a, b := BumpBy(lists, c[..k + 1], d), BumpReady(BumpBy(lists, c[..k], d), c[k], d);
    forall l | l in lists ensures a[l] == b[l] {
      if l == c[k] {
        assert d * (multiset(c[..k])[l] + 1) == d * multiset(c[..k])[l] + d;
      }
    }
  }

  lemma BumpByNone(lists: map<Clid, CList>, d: int)
    ensures BumpBy(lists, [], d) == lists
  {}

  /** Giving a worker back undoes taking it, on every list, however often the worker is on it. */
  lemma BumpByUndone(lists: map<Clid, CList>, c: seq<Clid>)
    ensures BumpBy(BumpBy(lists, c, -1), c, 1) == lists
  {}

  // ---- get_wt_ready_queue ----

  function Locked(workers: map<Tid, Worker>, got: seq<Tid>, s: Tid): map<Tid, Worker> {
    map t | t in workers :: if t in got then workers[t].(lock := s) else workers[t]
  }

  predicate Known(workers: map<Tid, Worker>, got: seq<Tid>) {
    forall t :: t in got ==> t in workers
  }

  /** The lists after the decrement loops of every worker of got. */
  function Dropped(lists: map<Clid, CList>, workers: map<Tid, Worker>, got: seq<Tid>): map<Clid, CList>
    requires Known(workers, got)
  {
    if got == [] then lists
    else BumpBy(Dropped(lists, workers, got[..|got| - 1]), workers[got[|got| - 1]].clids, -1)
  }

  /** How often the workers of got are on list l, all together. */
  function Occurrences(workers: map<Tid, Worker>, got: seq<Tid>, l: Clid): nat
    requires Known(workers, got)
  {
    if got == [] then 0
    else Occurrences(workers, got[..|got| - 1], l) + multiset(workers[got[|got| - 1]].clids)[l]
  }

  /** Every counter falls by exactly the multiplicities of the workers taken; nothing else changes. */
  lemma {:induction false} DroppedCounts(lists: map<Clid, CList>, workers: map<Tid, Worker>, got: seq<Tid>, l: Clid)
    requires Known(workers, got) && l in lists
    ensures Dropped(lists, workers, got).Keys == lists.Keys
    ensures Dropped(lists, workers, got)[l] == lists[l].(ready := lists[l].ready - Occurrences(workers, got, l))
    decreases |got|
  {
    if got != [] {
      DroppedCounts(lists, workers, got[..|got| - 1], l);
    }
  }

  lemma {:induction false} DroppedKeys(lists: map<Clid, CList>, workers: map<Tid, Worker>, got: seq<Tid>)
    requires Known(workers, got)
    ensures Dropped(lists, workers, got).Keys == lists.Keys
    decreases |got|
  {
    if got != [] {
      DroppedKeys(lists, workers, got[..|got| - 1]);
    }
  }

  /** Scheduler s, alone, has taken got and has still rest to visit. */
  function ScanAt(v: State, s: Tid, got: seq<Tid>, pc: PC): State
    requires s in v.scheds && Known(v.workers, got)
  {
    v.(workers := Locked(v.workers, got, s), lists := Dropped(v.lists, v.workers, got),
       scheds := v.scheds[s := v.scheds[s].(pc := pc)])
  }

  /** As ScanAt, with the decrement loop of the last worker of got at position k. */
  function DecAt(v: State, s: Tid, got: seq<Tid>, rest: multiset<Tid>, k: nat): State
    requires s in v.scheds && Known(v.workers, got) && got != [] && k <= |v.workers[got[|got| - 1]].clids|
  {
    var c := v.workers[got[|got| - 1]].clids;
    v.(workers := Locked(v.workers, got, s),
       lists := BumpBy(Dropped(v.lists, v.workers, got[..|got| - 1]), c[..k], -1),
       scheds := v.scheds[s := v.scheds[s].(pc := Dec(rest, got, k))])
  }

  lemma ScanBegins(v: State, s: Tid)
    requires Enabled(v, BeginScan(s)) && v.lists[v.scheds[s].clid].nthreads != 0
    ensures Apply(v, BeginScan(s)) == ScanAt(v, s, [], Scanning(v.lists[v.scheds[s].clid].queue, []))
  {
    assert Locked(v.workers, [], s) == v.workers;
  }

  lemma MissGoesOn(v: State, s: Tid, got: seq<Tid>, rest: multiset<Tid>, t: Tid)
    requires s in v.scheds && Known(v.workers, got)
    requires Enabled(ScanAt(v, s, got, Scanning(rest, got)), Visit(s, t))
    requires !CanTake(ScanAt(v, s, got, Scanning(rest, got)), s, t)
    ensures Apply(ScanAt(v, s, got, Scanning(rest, got)), Visit(s, t)) == ScanAt(v, s, got, Scanning(rest - multiset{t}, got))
  {}

  lemma TakeStarts(v: State, s: Tid, got: seq<Tid>, rest: multiset<Tid>, t: Tid)
    requires s in v.scheds && Known(v.workers, got)
    requires Enabled(ScanAt(v, s, got, Scanning(rest, got)), Visit(s, t))
    requires CanTake(ScanAt(v, s, got, Scanning(rest, got)), s, t)
    ensures t in v.workers && t !in got && v.workers[t].lock == FREE && Known(v.workers, got + [t])
    ensures Apply(ScanAt(v, s, got, Scanning(rest, got)), Visit(s, t)) == DecAt(v, s, got + [t], rest - multiset{t}, 0)
  {
    var more := got + [t];
    assert more[..|more| - 1] == got;
    assert Locked(v.workers, more, s) == Locked(v.workers, got, s)[t := v.workers[t].(lock := s)];
    BumpByNone(Dropped(v.lists, v.workers, got), -1);
    assert v.workers[t].clids[..0] == [];
  }

  lemma DecTakes(v: State, s: Tid, got: seq<Tid>, rest: multiset<Tid>, k: nat)
    requires s in v.scheds && Known(v.workers, got) && got != [] && k <= |v.workers[got[|got| - 1]].clids|
    ensures DecWorker(DecAt(v, s, got, rest, k), s)
    ensures DecClids(DecAt(v, s, got, rest, k), s) == v.workers[got[|got| - 1]].clids
  {
    hide Dropped, BumpBy;
  }

  lemma DecGoesOn(v: State, s: Tid, got: seq<Tid>, rest: multiset<Tid>, k: nat)
    requires s in v.scheds && Known(v.workers, got) && got != [] && k <= |v.workers[got[|got| - 1]].clids|
    requires Enabled(DecAt(v, s, got, rest, k), DecOne(s))
    ensures k < |v.workers[got[|got| - 1]].clids|
    ensures Apply(DecAt(v, s, got, rest, k), DecOne(s)) == DecAt(v, s, got, rest, k + 1)
  {
    hide Dropped, Locked, BumpReady;
    var c, was := v.workers[got[|got| - 1]].clids, Dropped(v.lists, v.workers, got[..|got| - 1]);
    assert DecClids(DecAt(v, s, got, rest, k), s) == c by {
      DecTakes(v, s, got, rest, k);
    }
    assert c[k] in was;
    BumpBySnoc(was, c, k, -1);
    hide BumpBy;
  }

  /** Where the decrement loop stands. */
  lemma DecPosition(v: State, s: Tid, got: seq<Tid>, rest: multiset<Tid>, k: nat)
    requires s in v.scheds && Known(v.workers, got) && got != [] && k <= |v.workers[got[|got| - 1]].clids|
    ensures var u, t := DecAt(v, s, got, rest, k), got[|got| - 1];
      && t in u.workers && u.workers[t].clids == v.workers[t].clids
      && (k < |v.workers[t].clids| ==> Guard(u, DecOne(s)))
      && (k == |v.workers[t].clids| ==> Guard(u, DecDone(s)))
  {}

  lemma DecEnds(v: State, s: Tid, got: seq<Tid>, rest: multiset<Tid>, k: nat)
    requires s in v.scheds && Known(v.workers, got) && got != [] && k == |v.workers[got[|got| - 1]].clids|
    requires Enabled(DecAt(v, s, got, rest, k), DecDone(s))
    ensures Apply(DecAt(v, s, got, rest, k), DecDone(s)) == ScanAt(v, s, got, Scanning(rest, got))
  {
    var c := v.workers[got[|got| - 1]].clids;
    assert c[..k] == c;
  }

  lemma EndIsDue(v: State, s: Tid, ready: seq<Tid>)
    requires s in v.scheds && Known(v.workers, ready)
    ensures Guard(ScanAt(v, s, ready, Scanning(multiset{}, ready)), EndScan(s))
  {}

  lemma ScanEnds(v: State, s: Tid, got: seq<Tid>)
    requires s in v.scheds && Known(v.workers, got)
    requires Enabled(ScanAt(v, s, got, Scanning(multiset{}, got)), EndScan(s))
    ensures Apply(ScanAt(v, s, got, Scanning(multiset{}, got)), EndScan(s))
         == ScanAt(v, s, got, if got == [] then Checking else InUser(got))
  {}

  // ---- the end of EXECUTEUMSTHREAD ----

  /** Everybody asleep on a list of c has been woken. */
  function Awakened(scheds: map<Tid, Sched>, c: seq<Clid>): map<Tid, Sched> {
    map s | s in scheds ::
      if scheds[s].clid in c && scheds[s].pc.Sleeping? then scheds[s].(pc := Checking) else scheds[s]
  }

  function IncAt(v: State, s: Tid, k: nat): State
    requires InPhase(v, s) && k <= |ExecClids(v, s)|
  {
    v.(lists := BumpBy(v.lists, ExecClids(v, s)[..k], 1),
       scheds := v.scheds[s := v.scheds[s].(pc := v.scheds[s].pc.(ph := Inc(k)))])
  }

  function WakeAt(v: State, s: Tid, k: nat): State
    requires InPhase(v, s) && k <= |ExecClids(v, s)|
  {
    v.(scheds := Awakened(v.scheds, ExecClids(v, s)[..k])[s := v.scheds[s].(pc := v.scheds[s].pc.(ph := Wake(k)))])
  }

  lemma IncGoesOn(v: State, s: Tid, k: nat)
    requires InPhase(v, s) && k < |ExecClids(v, s)| && Enabled(IncAt(v, s, k), IncOne(s))
    ensures Apply(IncAt(v, s, k), IncOne(s)) == IncAt(v, s, k + 1)
  {
    BumpBySnoc(v.lists, ExecClids(v, s), k, 1);
  }

  lemma AwakenedSnoc(scheds: map<Tid, Sched>, c: seq<Clid>, k: nat, s: Tid, x: Sched, y: Sched)
    requires k < |c| && s in scheds
    ensures WakeList(Awakened(scheds, c[..k])[s := x], c[k])[s := y] == Awakened(scheds, c[..k + 1])[s := y]
  {
    assert c[..k + 1] == c[..k] + [c[k]];
  }

  lemma WakeGoesOn(v: State, s: Tid, k: nat)
    requires InPhase(v, s) && k < |ExecClids(v, s)| && Enabled(WakeAt(v, s, k), WakeOne(s))
    ensures Apply(WakeAt(v, s, k), WakeOne(s)) == WakeAt(v, s, k + 1)
  {
    var x, pc := v.scheds[s], v.scheds[s].pc;
    AwakenedSnoc(v.scheds, ExecClids(v, s), k, s, x.(pc := pc.(ph := Wake(k))), x.(pc := pc.(ph := Wake(k + 1))));
    hide Awakened, WakeList;
  }

  /** The whole tail, from the end of the wait to the unlock. */
  function TailDone(v: State, s: Tid): State
    requires InPhase(v, s)
  {
    var x := v.scheds[s];
    var w := v.workers[x.pc.t];
    var slice := v.now - w.lastMeasured;
    v.(workers := v.workers[x.pc.t := w.(totalMeasured := w.totalMeasured + slice, lastMeasured := v.now, lock := FREE)],
       lists := if w.state == Idle then BumpBy(v.lists, w.clids, 1) else v.lists,
       scheds := Awakened(v.scheds, w.clids)[s := x.(elapsed := slice, running := false, sliceEnd := v.now,
                                                    sliceSum := x.sliceSum + (v.now - x.sliceStart), pc := InUser(x.pc.batch))])
  }

  lemma IncStarts(v: State, s: Tid)
    requires InPhase(v, s) && v.scheds[s].pc.ph == Inc(0)
    ensures IncAt(v, s, 0) == v
  {
    BumpByNone(v.lists, 1);
    assert ExecClids(v, s)[..0] == [];
  }

  lemma WakeStarts(v: State, s: Tid)
    requires InPhase(v, s) && v.scheds[s].pc.ph == Wake(0)
    ensures WakeAt(v, s, 0) == v
  {
    assert Awakened(v.scheds, ExecClids(v, s)[..0]) == v.scheds;
  }

  lemma IncPosition(v: State, s: Tid, k: nat)
    requires InPhase(v, s) && k < |ExecClids(v, s)|
    ensures Guard(IncAt(v, s, k), IncOne(s))
  {}

  lemma WakePosition(v: State, s: Tid, k: nat)
    requires InPhase(v, s) && k < |ExecClids(v, s)|
    ensures Guard(WakeAt(v, s, k), WakeOne(s))
  {}

  // ---- the tail, put together ----

  /** After the wait, the measured slice. */
  function Stopped(v: State, s: Tid): State
    requires InPhase(v, s)
  {
    DoUpdateTime(At(v, s, v.scheds[s].pc.(ph := Timing)), s)
  }

  lemma TimingIsDue(v: State, s: Tid)
    requires Guard(v, WaitCheck(s)) && v.workers[v.scheds[s].pc.t].state != Running
    ensures InPhase(v, s) && Enabled(v, WaitCheck(s))
    ensures Guard(Apply(v, WaitCheck(s)), UpdateTime(s)) && Enabled(Apply(v, WaitCheck(s)), UpdateTime(s))
    ensures Apply(Apply(v, WaitCheck(s)), UpdateTime(s)) == Stopped(v, s)
    ensures var u := Stopped(v, s);
      InPhase(u, s) && ExecClids(u, s) == ExecClids(v, s)
      && u.scheds[s].pc.ph == (if v.workers[v.scheds[s].pc.t].state == Idle then Inc(0) else Wake(0))
  {}

  lemma IncDoneIsDue(u: State, s: Tid)
    requires InPhase(u, s)
    ensures Guard(IncAt(u, s, |ExecClids(u, s)|), IncDone(s))
  {}

  /** The lists hold what the tail has added so far, and s is about to wake. */
  function Refilled(v: State, s: Tid): State
    requires InPhase(v, s)
  {
    if v.workers[v.scheds[s].pc.t].state == Idle then
      At(IncAt(Stopped(v, s), s, |ExecClids(v, s)|), s, v.scheds[s].pc.(ph := Wake(0)))
    else Stopped(v, s)
  }

  lemma RefilledIsDone(v: State, s: Tid)
    requires InPhase(v, s) && v.workers[v.scheds[s].pc.t].state == Idle
    requires Enabled(IncAt(Stopped(v, s), s, |ExecClids(v, s)|), IncDone(s))
    ensures Apply(IncAt(Stopped(v, s), s, |ExecClids(v, s)|), IncDone(s)) == Refilled(v, s)
  {}

  lemma RefilledAlready(v: State, s: Tid)
    requires InPhase(v, s) && v.workers[v.scheds[s].pc.t].state != Idle
    ensures Refilled(v, s) == Stopped(v, s)
  {}

  lemma RefilledWakes(v: State, s: Tid)
    requires InPhase(v, s) && v.workers[v.scheds[s].pc.t].state != Running
    ensures var w := Refilled(v, s);
      InPhase(w, s) && ExecClids(w, s) == ExecClids(v, s) && w.scheds[s].pc.ph == Wake(0)
  {}

  /** The state before the wake loop, field by field. */
  lemma RefilledShape(v: State, s: Tid)
    requires InPhase(v, s) && v.workers[v.scheds[s].pc.t].state != Running
    ensures var x := v.scheds[s];
      var w := v.workers[x.pc.t];
      var slice := v.now - w.lastMeasured;
      Refilled(v, s) ==
        v.(workers := v.workers[x.pc.t := w.(totalMeasured := w.totalMeasured + slice, lastMeasured := v.now)],
           lists := if w.state == Idle then BumpBy(v.lists, w.clids, 1) else v.lists,
           scheds := v.scheds[s := x.(elapsed := slice, running := false, sliceEnd := v.now,
                                      sliceSum := x.sliceSum + (v.now - x.sliceStart), pc := x.pc.(ph := Wake(0)))])
  {
    var c := ExecClids(v, s);
    assert c[..|c|] == c;
    hide BumpBy;
  }

  /** Unlocking at the end of the wake loop. */
  lemma UnlockEnds(u: State, s: Tid)
    requires InPhase(u, s)
    ensures var x, c := u.scheds[s], ExecClids(u, s);
      var end := WakeAt(u, s, |c|);
      && Guard(end, Unlock(s)) && Enabled(end, Unlock(s))
      && Apply(end, Unlock(s)) ==
           u.(workers := u.workers[x.pc.t := u.workers[x.pc.t].(lock := FREE)],
              scheds := Awakened(u.scheds, c)[s := x.(pc := InUser(x.pc.batch))])
  {
    var c := ExecClids(u, s);
    assert c[..|c|] == c;
    hide Awakened;
  }

  /** Waking the others does not depend on the record of the one who wakes. */
  lemma AwakenedOthers(scheds: map<Tid, Sched>, c: seq<Clid>, s: Tid, x: Sched, y: Sched)
    ensures Awakened(scheds[s := x], c)[s := y] == Awakened(scheds, c)[s := y]
  {}

  lemma WakeEnds(v: State, s: Tid)
    requires InPhase(v, s) && v.workers[v.scheds[s].pc.t].state != Running
    ensures InPhase(Refilled(v, s), s) && ExecClids(Refilled(v, s), s) == ExecClids(v, s)
    ensures var end := WakeAt(Refilled(v, s), s, |ExecClids(v, s)|);
      Guard(end, Unlock(s)) && Enabled(end, Unlock(s)) && Apply(end, Unlock(s)) == TailDone(v, s)
  {
    var u := Refilled(v, s);
    var c := ExecClids(v, s);
    RefilledWakes(v, s);
    RefilledShape(v, s);
    var y := TailDone(v, s).scheds[s];
    AwakenedOthers(v.scheds, c, s, u.scheds[s], y);
    hide Refilled, Awakened, BumpBy, WakeAt, Guard, Enabled, Apply;
    UnlockEnds(u, s);
    assert u.scheds[s].(pc := InUser(u.scheds[s].pc.batch)) == y;
    var end := Apply(WakeAt(u, s, |c|), Unlock(s));
    assert end.scheds == TailDone(v, s).scheds;
    assert end.workers == TailDone(v, s).workers;
  }

  // ---- runs that grow at their end ----

  lemma RunSnoc(st: State, steps: seq<Step>, step: Step)
    requires ValidRun(st, steps) && Enabled(After(st, steps), step)
    ensures ValidRun(st, steps + [step]) && After(st, steps + [step]) == Apply(After(st, steps), step)
  {
    hide Enabled, Apply;
    OneStep(After(st, steps), step);
    RunConcat(st, steps, [step]);
  }

  /** A step that is due in a reachable state can be taken. */
  lemma Extend(v: State, steps: seq<Step>, step: Step)
    requires Reachable(v) && ValidRun(v, steps) && Guard(After(v, steps), step)
    ensures Enabled(After(v, steps), step)
    ensures ValidRun(v, steps + [step]) && After(v, steps + [step]) == Apply(After(v, steps), step)
    ensures Reachable(Apply(After(v, steps), step))
  {
    hide Reachable, Guard, Resolves, Apply;
    ReachableRun(v, steps);
    NoDangling(After(v, steps), step);
    RunSnoc(v, steps, step);
    ReachableStep(After(v, steps), step);
  }

  // ---- what a scan without interference reports ----

  /** Worker t is one the scan of s may report. */
  predicate Takeable(v: State, s: Tid, t: Tid)
    requires s in v.scheds && v.scheds[s].clid in v.lists
  {
    t in v.lists[v.scheds[s].clid].queue && t in v.workers && v.workers[t].lock == FREE && v.workers[t].state == Idle
  }

  /** After visiting everything but rest: what was taken was takeable, and nothing takeable was passed over for want of trying. */
  ghost predicate ScanSoFar(v: State, s: Tid, got: seq<Tid>, rest: multiset<Tid>)
    requires s in v.scheds && v.scheds[s].clid in v.lists
  {
    && Distinct(got) && |got| <= v.maxWt
    && (forall t :: t in got ==> Takeable(v, s, t))
    && (forall t :: t in rest ==> t in v.lists[v.scheds[s].clid].queue)
    && (forall t :: Takeable(v, s, t) ==> t in rest || t in got || |got| == v.maxWt)
  }

  lemma ScanTakes(v: State, s: Tid, got: seq<Tid>, rest: multiset<Tid>, t: Tid)
    requires Reachable(v) && s in v.scheds && v.scheds[s].clid in v.lists
    requires ScanSoFar(v, s, got, rest) && t in rest && t !in got && |got| < v.maxWt && t in v.workers && v.workers[t].lock == FREE
    ensures ScanSoFar(v, s, got + [t], rest - multiset{t})
  {
    hide Reachable;
    CrossIndex(v, t, v.scheds[s].clid);
    WorkerFact(v, t);
  }

  lemma ScanPasses(v: State, s: Tid, got: seq<Tid>, rest: multiset<Tid>, t: Tid)
    requires s in v.scheds && v.scheds[s].clid in v.lists && Known(v.workers, got)
    requires ScanSoFar(v, s, got, rest) && t in rest
    requires Enabled(ScanAt(v, s, got, Scanning(rest, got)), Visit(s, t))
    requires !CanTake(ScanAt(v, s, got, Scanning(rest, got)), s, t)
    ensures ScanSoFar(v, s, got, rest - multiset{t})
  {
    var u, l := ScanAt(v, s, got, Scanning(rest, got)), v.scheds[s].clid;
    DroppedCounts(v.lists, v.workers, got, l);
    assert u.lists[l].queue == v.lists[l].queue;
    hide Dropped, Enabled;
  }
}
