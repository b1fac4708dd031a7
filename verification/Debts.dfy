/** A wake that is owed to the sleepers of a list is paid before the worker it is owed for is let go. */
module Debts {
  import opened Protocol
  import opened Invariant
  import opened Safety
  import opened Theorems

  /** Step is the wake on l that the holder of t owes. */
  predicate Pays(st: State, step: Step, t: Tid, l: Clid)
    requires Enabled(st, step)
  {
    step.WakeOne? && st.scheds[step.s].pc.t == t && ExecClids(st, step.s)[st.scheds[step.s].pc.ph.k] == l
  }

  // ---- one step ----

  lemma WithoutKeeps(b: seq<Tid>, i: nat, t: Tid)
    requires i < |b| && t in b && t != b[i]
    ensures t in Without(b, i)
  {
    var j :| 0 <= j < |b| && b[j] == t;
    assert Without(b, i)[if j < i then j else j - 1] == t;
  }

  /** Steps of the holder inside a dequeue. */
  lemma HolderDequeues(st: State, step: Step, t: Tid, l: Clid)
    requires Enabled(st, step) && Dequeues(step) && t in st.workers && Owes(st.scheds[step.s].pc, t, st.workers[t].clids, l)
    ensures step.s in Apply(st, step).scheds
    ensures Owes(Apply(st, step).scheds[step.s].pc, t, st.workers[t].clids, l)
  {}

  lemma StartOwes(st: State, s: Tid, i: nat, t: Tid, clids: seq<Clid>, l: Clid)
    requires Enabled(st, Execute(s, i)) && Owes(st.scheds[s].pc, t, clids, l)
    ensures Owes(DoExecute(st, s, i).scheds[s].pc, t, clids, l)
  {
    var b := st.scheds[s].pc.batch;
    if t != b[i] { WithoutKeeps(b, i, t); }
  }

  /** Steps of the holder inside an execute. */
  lemma HolderExecutes(st: State, step: Step, t: Tid, l: Clid)
    requires Enabled(st, step) && Executes(step) && t in st.workers && Owes(st.scheds[step.s].pc, t, st.workers[t].clids, l)
    requires !Pays(st, step, t, l)
    requires !(step.Unlock? && st.scheds[step.s].pc.t == t)
    ensures step.s in Apply(st, step).scheds
    ensures Owes(Apply(st, step).scheds[step.s].pc, t, st.workers[t].clids, l)
  {
    if step.Execute? {
      hide Owes;
      StartOwes(st, step.s, step.i, t, st.workers[t].clids, l);
    }
  }

  lemma WokenOwes(pc: PC, t: Tid, clids: seq<Clid>, l: Clid)
    requires Owes(pc, t, clids, l)
    ensures Owes(Woken(pc), t, clids, l)
  {}

  lemma MetOwes(x: Sched, u: Tid, c: Clid, t: Tid, clids: seq<Clid>, l: Clid)
    requires Owes(x.pc, t, clids, l)
    ensures Owes(Met(x, u, c).pc, t, clids, l)
  {}

  predicate ActsFor(step: Step, s: Tid) { (Dequeues(step) || Executes(step)) && step.s == s }

  /** Steps of other threads move the holder by no more than a wake or a late queue element. */
  lemma BystanderMoves(st: State, step: Step, s: Tid)
    requires Enabled(st, step) && s in st.scheds && Held(st.scheds[s].pc) != [] && !ActsFor(step, s)
    ensures s in Apply(st, step).scheds
    ensures var x, y := st.scheds[s], Apply(st, step).scheds[s];
      y.pc == x.pc || y.pc == Woken(x.pc) || (step.Add? && y == Met(x, step.t, step.l))
  {
    if Dequeues(step) {
    } else if Executes(step) {
    } else {
    }
  }

  lemma HolderOwes(st: State, step: Step, s: Tid, t: Tid, l: Clid)
    requires Enabled(st, step) && s in st.scheds && t in st.workers && Owes(st.scheds[s].pc, t, st.workers[t].clids, l)
    requires step.WakeOne? && step.s == s ==> !Pays(st, step, t, l)
    requires step.Unlock? && step.s == s ==> st.scheds[s].pc.t != t
    ensures s in Apply(st, step).scheds
    ensures Owes(Apply(st, step).scheds[s].pc, t, st.workers[t].clids, l)
  {
    hide Owes, Apply, Enabled, Met, Woken;
    if !ActsFor(step, s) {
      OwesHolds(st.scheds[s].pc, t, st.workers[t].clids, l);
      BystanderMoves(st, step, s);
      WokenOwes(st.scheds[s].pc, t, st.workers[t].clids, l);
      if step.Add? { MetOwes(st.scheds[s], step.t, step.l, t, st.workers[t].clids, l); }
    } else if Dequeues(step) {
      HolderDequeues(st, step, t, l);
    } else {
      HolderExecutes(st, step, t, l);
    }
  }

  lemma OwesHolds(pc: PC, t: Tid, clids: seq<Clid>, l: Clid)
    requires Owes(pc, t, clids, l)
    ensures Held(pc) != []
  {}

  /** A held worker keeps its lists, and its lock until its holder unlocks it. */
  lemma HeldStays(st: State, step: Step, t: Tid)
    requires Enabled(st, step) && t in st.workers && st.workers[t].lock in st.scheds
    requires step.Unlock? ==> st.scheds[step.s].pc.t != t
    ensures t in Apply(st, step).workers
    ensures var w, w' := st.workers[t], Apply(st, step).workers[t]; w'.clids == w.clids && w'.lock == w.lock
  {
    if Dequeues(step) {
    } else if Executes(step) {
    } else {
    }
  }

  /** Only the holder unlocks, and not while it owes a wake. */
  lemma NoEarlyUnlock(st: State, s: Tid, t: Tid, l: Clid)
    requires Reachable(st) && Guards(st, t, l) && Enabled(st, Unlock(s))
    ensures st.scheds[s].pc.t != t
  {
    hide Reachable;
    ExecHasWorker(st, s);
  }

  /** A debt stays, with the same holder, until that holder makes the wake it owes. */
  lemma DebtStays(st: State, step: Step, t: Tid, l: Clid)
    requires Reachable(st) && Guards(st, t, l) && Enabled(st, step) && !Pays(st, step, t, l)
    ensures Guards(Apply(st, step), t, l) && Apply(st, step).workers[t].lock == st.workers[t].lock
  {
    if step.Unlock? { NoEarlyUnlock(st, step.s, t, l); }
    hide Reachable, Enabled, Apply, Pays;
    HeldStays(st, step, t);
    HolderOwes(st, step, st.workers[t].lock, t, l);
  }

  // ---- runs ----

  /** At this moment nobody sleeps on l. */
  ghost predicate NobodyAsleep(st: State, l: Clid) {
    forall x :: x in st.scheds && st.scheds[x].clid == l ==> !st.scheds[x].pc.Sleeping?
  }

  lemma PaymentWakes(st: State, step: Step, t: Tid, l: Clid)
    requires Reachable(st) && Enabled(st, step) && Pays(st, step, t, l)
    ensures NobodyAsleep(Apply(st, step), l)
  {
    WakeLeavesNobody(st, step.s);
  }

  /**
   Nobody's wake is forgotten: in every run in which the worker that guarantees a wake on l is let go, there
   is a moment at which nobody sleeps on l.
   */
  lemma {:induction false} PaidBeforeRelease(st: State, steps: seq<Step>, t: Tid, l: Clid) returns (i: nat)
    requires Reachable(st) && ValidRun(st, steps) && Guards(st, t, l)
    requires t in After(st, steps).workers ==> After(st, steps).workers[t].lock != st.workers[t].lock
    ensures i <= |steps| && ValidRun(st, steps[..i]) && NobodyAsleep(After(st, steps[..i]), l)
    decreases |steps|
  {
    hide Reachable, Enabled, Apply, Guards, NobodyAsleep, Pays;
    if steps == [] {
      GuardsLives(st, t, l);
      assert false;
    } else {
      var st' := Apply(st, steps[0]);
      ReachableStep(st, steps[0]);
      if Pays(st, steps[0], t, l) {
        PaymentWakes(st, steps[0], t, l);
        OneStep(st, steps[0]);
        assert steps[..1] == [steps[0]];
        i := 1;
      } else {
        DebtStays(st, steps[0], t, l);
        var j := PaidBeforeRelease(st', steps[1..], t, l);
        i := j + 1;
        assert steps[..i][0] == steps[0] && steps[..i][1..] == steps[1..][..j];
      }
    }
  }

  lemma GuardsLives(st: State, t: Tid, l: Clid)
    requires Guards(st, t, l)
    ensures t in st.workers
  {}
}
