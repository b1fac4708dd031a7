/** What a step may change without disturbing the invariant of the records it does not touch. */
module Frames {
  import opened Totals
  import opened Protocol
  import opened Invariant

  // ---- ready counters ----

  /** Nothing threads_ready counts has moved. */
  lemma ReadySame(st: State, st': State)
    requires forall l :: l in st'.lists ==> l in st.lists && ReadyOk(st, l) && st'.lists[l].ready == st.lists[l].ready
    requires st.workers.Keys == st'.workers.Keys
    requires forall t :: t in st.workers ==> Up(st'.workers[t], t, st'.scheds) == Up(st.workers[t], t, st.scheds)
    ensures forall l :: l in st'.lists ==> ReadyOk(st', l)
  {
    forall l | l in st'.lists ensures ReadyOk(st', l) {
      assert ReadyOk(st, l);
      UpMapSame(st, st', l);
    }
  }

  lemma UpMapSame(st: State, st': State, l: Clid)
    requires st.workers.Keys == st'.workers.Keys
    requires forall t :: t in st.workers ==> Up(st'.workers[t], t, st'.scheds) == Up(st.workers[t], t, st.scheds)
    ensures UpMap(st', l) == UpMap(st, l)
  {
    hide Up;
  }

  lemma ReadyKept(st: State, st': State)
    requires AllReady(st) && st'.workers.Keys == st.workers.Keys && st'.lists == st.lists
    requires forall t :: t in st.workers ==> Up(st'.workers[t], t, st'.scheds) == Up(st.workers[t], t, st.scheds)
    ensures AllReady(st')
  {
    ReadySame(st, st');
  }

  /** The multiplicity threads_ready(l) owes to worker t. */
  function UpCount(st: State, l: Clid, t: Tid): int
    requires t in st.workers
  {
    multiset(Up(st.workers[t], t, st.scheds))[l]
  }

  /** One worker's entries moved, and the counters with them. */
  lemma ReadyMoves(st: State, st': State, t: Tid)
    requires st'.lists.Keys == st.lists.Keys && t in st.workers
    requires st.workers.Keys == st'.workers.Keys
    requires forall l :: l in st.lists ==> ReadyOk(st, l)
    requires forall u :: u in st.workers && u != t ==> Up(st'.workers[u], u, st'.scheds) == Up(st.workers[u], u, st.scheds)
    requires forall l :: l in st.lists ==>
      st'.lists[l].ready == st.lists[l].ready + UpCount(st', l, t) - UpCount(st, l, t)
    ensures forall l :: l in st'.lists ==> ReadyOk(st', l)
  {
    forall l | l in st'.lists ensures ReadyOk(st', l) {
      ReadyMovesAt(st, st', t, l);
    }
  }

  lemma ReadyMovesAt(st: State, st': State, t: Tid, l: Clid)
    requires l in st.lists && l in st'.lists && t in st.workers
    requires st.workers.Keys == st'.workers.Keys
    requires ReadyOk(st, l)
    requires forall u :: u in st.workers && u != t ==> Up(st'.workers[u], u, st'.scheds) == Up(st.workers[u], u, st.scheds)
    requires st'.lists[l].ready == st.lists[l].ready + UpCount(st', l, t) - UpCount(st, l, t)
    ensures ReadyOk(st', l)
  {
    hide Up;
    assert UpMap(st', l) == UpMap(st, l)[t := UpCount(st', l, t)];
    TotalSet(UpMap(st, l), t, UpCount(st', l, t));
  }

  // ---- frames ----

  lemma SchedAt(st: State, s: Tid)
    requires AllScheds(st) && s in st.scheds
    ensures SchedOk(st, s)
  {}

  lemma WorkerAt(st: State, t: Tid)
    requires AllWorkers(st) && t in st.workers
    ensures WorkerOk(st, t)
  {}

  lemma PhaseFrame(st: State, st': State, s: Tid, pc: PC)
    requires PhaseOk(st, s, pc)
    requires forall t :: t in Held(pc) && t in st.workers ==> t in st'.workers && st'.workers[t] == st.workers[t]
    ensures PhaseOk(st', s, pc)
  {
    match pc
    case Dec(_, got, _) => assert got[|got| - 1] in Held(pc);
    case Exec(t, b, _) => assert ([t] + b)[0] in Held(pc);
    case _ =>
  }

  lemma SchedFrame(st: State, st': State, s: Tid)
    requires s in st.scheds && SchedOk(st, s)
    requires s in st'.scheds && st'.scheds[s] == st.scheds[s] && st'.maxWt == st.maxWt
    requires st.lists.Keys <= st'.lists.Keys
    requires forall t :: t in Held(st.scheds[s].pc) && t in st.workers ==> t in st'.workers && st'.workers[t] == st.workers[t]
    ensures SchedOk(st', s)
  {
    var x := st.scheds[s];
    assert forall t :: t in Pending(x.pc) ==> t in Held(x.pc);
    PhaseFrame(st, st', s, x.pc);
  }

  lemma WorkerFrame(st: State, st': State, t: Tid)
    requires t in st.workers && WorkerOk(st, t)
    requires t in st'.workers && st'.workers[t] == st.workers[t]
    requires st'.closing == st.closing && (forall c :: c in st.lists ==> c in st'.lists)
    requires st.workers[t].lock in st.scheds ==>
      st.workers[t].lock in st'.scheds && Follows(st.scheds[st.workers[t].lock].pc, st'.scheds[st.workers[t].lock].pc, t)
    ensures WorkerOk(st', t)
  {}

  /** A holder that moved from a to b still holds u, and still awaits it if it did. */
  predicate Follows(a: PC, b: PC, u: Tid) {
    && (u in Held(a) ==> u in Held(b))
    && (Awaiting(a, u) ==> Awaiting(b, u))
    && (a.Exec? && a.t == u ==> b.Exec? && b.t == u)
  }

  lemma ListsFrame(st: State, st': State)
    requires AllLists(st)
    requires st'.workers.Keys == st.workers.Keys && st.lastId <= st'.lastId
    requires forall t :: t in st.workers ==>
      st'.workers[t].clids == st.workers[t].clids && (st'.workers[t].state == Exiting <==> st.workers[t].state == Exiting)
    requires forall l :: l in st'.lists ==>
      l in st.lists && st'.lists[l].queue == st.lists[l].queue && st'.lists[l].nthreads == st.lists[l].nthreads
    ensures AllLists(st')
  {
    forall l | l in st'.lists ensures ListOk(st', l) {
      assert ListOk(st, l);
      forall t: Tid ensures QueueOk(st', l, t) { assert QueueOk(st, l, t); }
    }
  }

  lemma GuardFrame(st: State, st': State, t: Tid, l: Clid)
    requires Guards(st, t, l)
    requires t in st'.workers && st'.workers[t].clids == st.workers[t].clids && st'.workers[t].lock == st.workers[t].lock
    requires st.workers[t].lock in st'.scheds
    requires var a, b := st.scheds[st.workers[t].lock].pc, st'.scheds[st.workers[t].lock].pc;
      Owes(a, t, st.workers[t].clids, l) ==> Owes(b, t, st.workers[t].clids, l)
    ensures Guards(st', t, l)
  {}

  /** Who slept still has its guarantor, if guarantors survive and nobody else fell asleep. */
  lemma SleepFrame(st: State, st': State)
    requires AllSleep(st)
    requires forall s :: s in st'.scheds && st'.scheds[s].pc.Sleeping? ==>
      s in st.scheds && st.scheds[s].pc.Sleeping? && st'.scheds[s].clid == st.scheds[s].clid
      && forall t :: Guards(st, t, st.scheds[s].clid) ==> Guards(st', t, st.scheds[s].clid)
    ensures AllSleep(st')
  {
    forall s | s in st'.scheds ensures SleepOk(st', s) {
      if st'.scheds[s].pc.Sleeping? {
        assert SleepOk(st, s);
        var t :| Guards(st, t, st.scheds[s].clid);
        assert Guards(st', t, st.scheds[s].clid);
      }
    }
  }

  // ---- steps that move one scheduler thread and nothing else ----

  /** Two positions that hold the same workers and count the same entries as up. */
  ghost predicate SameHold(st: State, s: Tid, a: PC, b: PC) {
    && Held(a) == Held(b)
    && Pending(a) == Pending(b)
    && PhaseOk(st, s, b)
    && Measuring(a) == Measuring(b)
    && (a.Exec? <==> b.Exec?) && (a.Exec? ==> a.t == b.t)
    && (forall t :: t in st.workers && st.workers[t].lock == s && st.workers[t].state != Exiting ==>
          UpIn(st.workers[t], t, a) == UpIn(st.workers[t], t, b))
    && (a.Exec? ==> a.t in st.workers && (st.workers[a.t].state == Running ==> Awaiting(a, a.t) ==> Awaiting(b, a.t)))
    && (a.Exec? && !a.ph.Wake? && b.ph.Wake? ==> b.ph.k == 0)
    && (a.Exec? && a.ph.Wake? ==> a == b)
  }

  lemma MoveScheds(st: State, s: Tid, pc: PC)
    requires AllScheds(st) && s in st.scheds && SameHold(st, s, st.scheds[s].pc, pc)
    ensures AllScheds(At(st, s, pc))
  {
    var st' := At(st, s, pc);
    forall x | x in st'.scheds ensures SchedOk(st', x) {
      assert SchedOk(st, x);
      if x != s { SchedFrame(st, st', x); } else { PhaseFrame(st, st', s, pc); }
    }
  }

  lemma MoveWorkers(st: State, s: Tid, pc: PC)
    requires AllWorkers(st) && s in st.scheds && SameHold(st, s, st.scheds[s].pc, pc)
    ensures AllWorkers(At(st, s, pc))
  {
    var st' := At(st, s, pc);
    forall t | t in st'.workers ensures WorkerOk(st', t) {
      assert WorkerOk(st, t);
    }
  }

  lemma MoveReady(st: State, s: Tid, pc: PC)
    requires AllReady(st) && s in st.scheds && SameHold(st, s, st.scheds[s].pc, pc)
    ensures AllReady(At(st, s, pc))
  {
    ReadySame(st, At(st, s, pc));
  }

  lemma MoveSleepers(st: State, s: Tid, pc: PC)
    requires AllSleep(st) && s in st.scheds && SameHold(st, s, st.scheds[s].pc, pc)
    requires pc.Sleeping? ==> exists t :: Guards(st, t, st.scheds[s].clid)
    ensures AllSleep(At(st, s, pc))
  {
    var st' := At(st, s, pc);
    forall x | x in st'.scheds ensures SleepOk(st', x) {
      assert SleepOk(st, x);
      if st'.scheds[x].pc.Sleeping? {
        var t :| Guards(st, t, st.scheds[x].clid);
        GuardFrame(st, st', t, st.scheds[x].clid);
      }
    }
  }

  lemma KeepMove(st: State, s: Tid, pc: PC)
    requires Inv(st) && s in st.scheds && SameHold(st, s, st.scheds[s].pc, pc)
    requires pc.Sleeping? ==> exists t :: Guards(st, t, st.scheds[s].clid)
    ensures Inv(At(st, s, pc))
  {
    MoveScheds(st, s, pc);
    MoveWorkers(st, s, pc);
    ListsFrame(st, At(st, s, pc));
    MoveReady(st, s, pc);
    MoveSleepers(st, s, pc);
  }

  // ---- steps of scheduler s on worker t ----

  /** Everything but the records of scheduler s and worker t, and the counters, is as before. */
  predicate Touches(st: State, st': State, s: Tid, t: Tid) {
    && st'.maxWt == st.maxWt && st'.closing == st.closing && st'.lastId == st.lastId
    && s in st.scheds && st'.scheds.Keys == st.scheds.Keys
    && t in st.workers && st'.workers.Keys == st.workers.Keys
    && st'.lists.Keys == st.lists.Keys
    && (forall x :: x in st.scheds && x != s ==> st'.scheds[x] == st.scheds[x])
    && (forall u :: u in st.workers && u != t ==> st'.workers[u] == st.workers[u])
    && st'.workers[t].clids == st.workers[t].clids
  }

  lemma OtherScheds(st: State, st': State, s: Tid, t: Tid)
    requires AllScheds(st) && Touches(st, st', s, t)
    requires st.workers[t].lock == s || st.workers[t].lock == FREE
    requires SchedOk(st', s)
    ensures AllScheds(st')
  {
    forall x | x in st'.scheds ensures SchedOk(st', x) {
      assert SchedOk(st, x);
      if x != s { SchedFrame(st, st', x); }
    }
  }

  lemma OtherWorkers(st: State, st': State, s: Tid, t: Tid)
    requires AllWorkers(st) && Touches(st, st', s, t)
    requires forall u :: u in st.workers && u != t && st.workers[u].lock == s ==> Follows(st.scheds[s].pc, st'.scheds[s].pc, u)
    requires WorkerOk(st', t)
    ensures AllWorkers(st')
  {
    forall u | u in st'.workers ensures WorkerOk(st', u) {
      assert WorkerOk(st, u);
      if u != t { WorkerFrame(st, st', u); }
    }
  }

  /** The entries of every worker but t count as before. */
  predicate OthersUp(st: State, st': State, s: Tid, t: Tid)
    requires Touches(st, st', s, t)
  {
    forall u :: u in st.workers && u != t && st.workers[u].lock == s && st.workers[u].state != Exiting ==>
      UpIn(st.workers[u], u, st.scheds[s].pc) == UpIn(st.workers[u], u, st'.scheds[s].pc)
  }

  lemma TouchReady(st: State, st': State, s: Tid, t: Tid)
    requires AllReady(st) && Touches(st, st', s, t) && OthersUp(st, st', s, t)
    requires forall l :: l in st.lists ==>
      st'.lists[l].ready == st.lists[l].ready + UpCount(st', l, t) - UpCount(st, l, t)
    ensures AllReady(st')
  {
    ReadyMoves(st, st', t);
  }

  /** Guarantors survive a step of s that neither finishes a wake loop nor puts a thread to sleep. */
  lemma TouchSleep(st: State, st': State, s: Tid, t: Tid)
    requires AllSleep(st) && Touches(st, st', s, t)
    requires !st.scheds[s].pc.Sleeping? && !st'.scheds[s].pc.Sleeping?
    requires st'.scheds[s].pc.Exec? && st'.scheds[s].pc.ph.Wake? ==>
      st.scheds[s].pc.Exec? && st.scheds[s].pc.t == st'.scheds[s].pc.t && st'.scheds[s].pc.ph.k == 0
    requires forall u :: u in Held(st.scheds[s].pc) && (u == t ==> st'.workers[t].lock == s) ==> u in Held(st'.scheds[s].pc)
    requires st.workers[t].lock == st'.workers[t].lock || st.workers[t].lock !in st.scheds
             || forall l :: !Guards(st, t, l)
    ensures AllSleep(st')
  {
    forall x | x in st'.scheds ensures SleepOk(st', x) {
      assert SleepOk(st, x);
      if st'.scheds[x].pc.Sleeping? {
        var u :| Guards(st, u, st.scheds[x].clid);
        assert Guards(st', u, st.scheds[x].clid);
      }
    }
  }

  /** Queues and the workers on them are as before. */
  predicate SameQueues(st: State, st': State, t: Tid)
    requires t in st.workers && t in st'.workers && st.lists.Keys == st'.lists.Keys
  {
    && (st'.workers[t].state == Exiting <==> st.workers[t].state == Exiting)
    && forall l :: l in st.lists ==>
         st'.lists[l].queue == st.lists[l].queue && st'.lists[l].nthreads == st.lists[l].nthreads
  }

  /** What remains to be shown of a step of scheduler s on worker t. */
  lemma KeepTouch(st: State, st': State, s: Tid, t: Tid)
    requires Inv(st) && Touches(st, st', s, t) && SameQueues(st, st', t)
    requires st.workers[t].lock == s || st.workers[t].lock == FREE
    requires forall u :: u in st.workers && u != t && st.workers[u].lock == s ==> Follows(st.scheds[s].pc, st'.scheds[s].pc, u)
    requires SchedOk(st', s) && WorkerOk(st', t)
    requires AllReady(st') && AllSleep(st')
    ensures Inv(st')
  {
    hide SchedOk, WorkerOk, AllReady, AllSleep, AllScheds, AllWorkers, AllLists;
    OtherScheds(st, st', s, t);
    OtherWorkers(st, st', s, t);
    ListsFrame(st, st');
  }
}
