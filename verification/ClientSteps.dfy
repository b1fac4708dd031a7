/** Creation, adds, entering and leaving UMS mode, and teardown keep the invariant. */
module ClientSteps {
  import opened Totals
  import opened Protocol
  import opened Invariant
  import opened Frames

  lemma {:induction false} TotalOfZeros<K>(m: map<K, int>)
    requires forall k :: k in m ==> m[k] == 0
    ensures Total(m) == 0
  {
    TotalNonNegative(m);
    TotalBound(m, map k | k in m :: 0);
    TotalBound(map k | k in m :: 0, m);
    ZeroMap(m.Keys);
  }

  lemma {:induction false} ZeroMap<K>(keys: set<K>)
    ensures Total(map k | k in keys :: 0) == 0
    decreases keys
  {
    var m: map<K, int> := map k | k in keys :: 0;
    if keys != {} {
      var k :| k in keys;
      TotalRemove(m, k);
      assert m - {k} == map j | j in keys - {k} :: 0;
      ZeroMap(keys - {k});
    } else {
      assert m.Keys == {};
    }
  }

  // ---- UMSINITCOMPLLIST ----

  /** The id about to be given out occurs nowhere yet. */
  lemma FreshId(st: State)
    requires AllWorkers(st) && AllLists(st) && !st.closing
    ensures st.lastId !in st.lists
    ensures forall t :: t in st.workers ==> st.lastId !in st.workers[t].clids
  {
    assert st.lastId in st.lists ==> ListOk(st, st.lastId);
    forall t | t in st.workers ensures st.lastId !in st.workers[t].clids {
      assert WorkerOk(st, t);
    }
  }

  lemma UpInClids(w: Worker, t: Tid, scheds: map<Tid, Sched>, l: Clid)
    requires l !in w.clids
    ensures multiset(Up(w, t, scheds))[l] == 0
  {
    assert forall c :: c in Up(w, t, scheds) ==> c in w.clids;
  }

  lemma InitListReady(st: State)
    requires AllWorkers(st) && AllLists(st) && AllReady(st) && !st.closing
    ensures AllReady(DoInitList(st))
  {
    var st' := DoInitList(st);
    FreshId(st);
    forall l | l in st'.lists ensures ReadyOk(st', l) {
      if l == st.lastId {
        forall t | t in st.workers ensures UpMap(st', l)[t] == 0 {
          UpInClids(st.workers[t], t, st.scheds, l);
        }
        TotalOfZeros(UpMap(st', l));
      } else {
        assert ReadyOk(st, l);
        assert UpMap(st', l) == UpMap(st, l);
      }
    }
  }

  lemma InitListLists(st: State)
    requires AllWorkers(st) && AllLists(st) && !st.closing
    ensures AllLists(DoInitList(st))
  {
    var st' := DoInitList(st);
    FreshId(st);
    forall l | l in st'.lists ensures ListOk(st', l) {
      assert l != st.lastId ==> ListOk(st, l);
      forall t: Tid ensures QueueOk(st', l, t) {
        assert l != st.lastId ==> QueueOk(st, l, t);
      }
    }
  }

  lemma InitListRecords(st: State)
    requires AllScheds(st) && AllWorkers(st) && AllSleep(st)
    ensures AllScheds(DoInitList(st)) && AllWorkers(DoInitList(st)) && AllSleep(DoInitList(st))
  {
    var st' := DoInitList(st);
    hide SchedOk, WorkerOk;
    forall s | s in st'.scheds ensures SchedOk(st', s) { SchedFrame(st, st', s); }
    forall t | t in st'.workers ensures WorkerOk(st', t) { WorkerFrame(st, st', t); }
    SleepFrame(st, st');
  }

  lemma KeepInitList(st: State)
    requires Inv(st) && !st.closing
    ensures Inv(DoInitList(st))
  {
    hide AllScheds, AllWorkers, AllLists, AllReady, AllSleep;
    InitListLists(st);
    InitListReady(st);
    InitListRecords(st);
  }

  // ---- CREATEWORKERTHREAD ----

  lemma CreateReady(st: State, t: Tid, budget: nat)
    requires AllReady(st) && t !in st.workers
    ensures AllReady(DoCreate(st, t, budget))
  {
    var st' := DoCreate(st, t, budget);
    forall l | l in st'.lists ensures ReadyOk(st', l) {
      assert ReadyOk(st, l);
      CreateUp(st, t, budget, l);
      TotalSet(UpMap(st, l), t, 0);
    }
  }

  lemma CreateUp(st: State, t: Tid, budget: nat, l: Clid)
    requires t !in st.workers
    ensures UpMap(DoCreate(st, t, budget), l) == UpMap(st, l)[t := 0]
  {
    assert Up(DoCreate(st, t, budget).workers[t], t, st.scheds) == [];
    hide Up;
  }

  lemma CreateLists(st: State, t: Tid, budget: nat)
    requires AllLists(st) && t !in st.workers
    ensures AllLists(DoCreate(st, t, budget))
  {
    var st' := DoCreate(st, t, budget);
    forall l | l in st'.lists ensures ListOk(st', l) {
      assert ListOk(st, l);
      forall u: Tid ensures QueueOk(st', l, u) { assert QueueOk(st, l, u); }
    }
  }

  lemma CreateSched(st: State, t: Tid, budget: nat, s: Tid)
    requires s in st.scheds && SchedOk(st, s) && t !in st.workers
    ensures SchedOk(DoCreate(st, t, budget), s)
  {
    SchedFrame(st, DoCreate(st, t, budget), s);
  }

  lemma CreateWorker(st: State, t: Tid, budget: nat)
    ensures WorkerOk(DoCreate(st, t, budget), t)
  {}

  lemma CreateRecords(st: State, t: Tid, budget: nat)
    requires AllScheds(st) && AllWorkers(st) && AllSleep(st) && t !in st.workers
    ensures var st' := DoCreate(st, t, budget); AllScheds(st') && AllWorkers(st') && AllSleep(st')
  {
    var st' := DoCreate(st, t, budget);
    hide SchedOk, WorkerOk, AllSleep;
    forall s | s in st'.scheds ensures SchedOk(st', s) { CreateSched(st, t, budget, s); }
    CreateWorker(st, t, budget);
    forall u | u in st'.workers ensures WorkerOk(st', u) {
      if u != t { WorkerFrame(st, st', u); }
    }
    SleepFrame(st, st');
  }

  lemma KeepCreate(st: State, t: Tid, budget: nat)
    requires Inv(st) && t !in st.workers
    ensures Inv(DoCreate(st, t, budget))
  {
    hide AllScheds, AllWorkers, AllLists, AllReady, AllSleep;
    CreateReady(st, t, budget);
    CreateLists(st, t, budget);
    CreateRecords(st, t, budget);
  }

  // ---- COMPLLISTADD ----

  lemma MetSched(st: State, late: set<Tid>, t: Tid, l: Clid, s: Tid)
    requires s in st.scheds && SchedOk(st, s)
    ensures SchedOk(st.(scheds := LateScans(st.scheds, late, t, l)), s)
  {}

  /** Lengthening the part of the queue a scan has still to visit is harmless. */
  lemma KeepLate(st: State, late: set<Tid>, t: Tid, l: Clid)
    requires Inv(st)
    ensures Inv(st.(scheds := LateScans(st.scheds, late, t, l)))
  {
    var st' := st.(scheds := LateScans(st.scheds, late, t, l));
    hide SchedOk, WorkerOk, AllLists, AllReady, AllSleep, SleepOk;
    forall s | s in st'.scheds ensures SchedOk(st', s) { MetSched(st, late, t, l, s); }
    forall u | u in st'.workers ensures WorkerOk(st', u) { WorkerFrame(st, st', u); }
    ListsFrame(st, st');
    ReadyKept(st, st');
    SleepFrame(st, st');
  }

  function Added(st: State, t: Tid, l: Clid): State
    requires t in st.workers && l in st.lists
  {
    var q := st.lists[l];
    st.(workers := st.workers[t := st.workers[t].(clids := [l] + st.workers[t].clids)],
        lists := st.lists[l := CList(q.ready + 1, q.nthreads + 1, q.queue + multiset{t})])
  }

  predicate Addable(st: State, t: Tid, l: Clid) {
    t in st.workers && l in st.lists && st.workers[t].state != Exiting && st.workers[t].lock == FREE
  }

  lemma AddLists(st: State, t: Tid, l: Clid)
    requires Addable(st, t, l) && AllLists(st)
    ensures AllLists(Added(st, t, l))
  {
    var st' := Added(st, t, l);
    forall c | c in st'.lists ensures ListOk(st', c) {
      assert ListOk(st, c);
      forall u: Tid ensures QueueOk(st', c, u) { assert QueueOk(st, c, u); }
    }
  }

  lemma AddReady(st: State, t: Tid, l: Clid)
    requires Addable(st, t, l) && AllReady(st)
    ensures AllReady(Added(st, t, l))
  {
    ReadyMoves(st, Added(st, t, l), t);
  }

  lemma AddSched(st: State, t: Tid, l: Clid, s: Tid)
    requires Addable(st, t, l) && s in st.scheds && SchedOk(st, s)
    ensures SchedOk(Added(st, t, l), s)
  {
    SchedFrame(st, Added(st, t, l), s);
  }

  lemma AddWorker(st: State, t: Tid, l: Clid, u: Tid)
    requires Addable(st, t, l) && u in st.workers && WorkerOk(st, u)
    ensures WorkerOk(Added(st, t, l), u)
  {}

  lemma AddRecords(st: State, t: Tid, l: Clid)
    requires AllScheds(st) && AllWorkers(st) && AllSleep(st) && Addable(st, t, l)
    ensures var st' := Added(st, t, l); AllScheds(st') && AllWorkers(st') && AllSleep(st')
  {
    var st' := Added(st, t, l);
    hide SchedOk, WorkerOk, AllSleep;
    forall s | s in st'.scheds ensures SchedOk(st', s) { AddSched(st, t, l, s); }
    forall u | u in st'.workers ensures WorkerOk(st', u) { AddWorker(st, t, l, u); }
    SleepFrame(st, st');
  }

  lemma KeepAdded(st: State, t: Tid, l: Clid)
    requires Inv(st) && Addable(st, t, l)
    ensures Inv(Added(st, t, l))
  {
    hide AllScheds, AllWorkers, AllLists, AllReady, AllSleep;
    AddLists(st, t, l);
    AddReady(st, t, l);
    AddRecords(st, t, l);
  }

  lemma KeepAdd(st: State, t: Tid, l: Clid, late: set<Tid>)
    requires Inv(st) && Addable(st, t, l)
    ensures Inv(DoAdd(st, t, l, late))
  {
    hide Inv;
    var mid := st.(scheds := LateScans(st.scheds, late, t, l));
    KeepLate(st, late, t, l);
    KeepAdded(mid, t, l);
    assert Added(mid, t, l) == DoAdd(st, t, l, late);
  }

  // ---- ENTERUMSSCHEDMODE, SCHEDTHREADDESTROY ----

  lemma EnterWorker(st: State, s: Tid, l: Clid, t: Tid)
    requires s !in st.scheds && t in st.workers && WorkerOk(st, t)
    ensures WorkerOk(DoEnter(st, s, l), t)
    ensures Up(st.workers[t], t, DoEnter(st, s, l).scheds) == Up(st.workers[t], t, st.scheds)
  {}

  lemma EnterSched(st: State, s: Tid, l: Clid)
    requires l in st.lists
    ensures SchedOk(DoEnter(st, s, l), s)
  {}

  lemma EnterRecords(st: State, s: Tid, l: Clid)
    requires AllScheds(st) && AllWorkers(st) && AllSleep(st) && s !in st.scheds && l in st.lists
    ensures var st' := DoEnter(st, s, l); AllScheds(st') && AllWorkers(st') && AllSleep(st')
  {
    var st' := DoEnter(st, s, l);
    hide SchedOk, WorkerOk, AllSleep, Up;
    EnterSched(st, s, l);
    forall x | x in st'.scheds ensures SchedOk(st', x) {
      if x != s { SchedFrame(st, st', x); }
    }
    forall t | t in st'.workers ensures WorkerOk(st', t) { EnterWorker(st, s, l, t); }
    SleepFrame(st, st');
  }

  lemma EnterReady(st: State, s: Tid, l: Clid)
    requires AllWorkers(st) && AllReady(st) && s !in st.scheds
    ensures AllReady(DoEnter(st, s, l))
  {
    var st' := DoEnter(st, s, l);
    hide WorkerOk, AllReady, Up;
    forall t | t in st.workers ensures Up(st'.workers[t], t, st'.scheds) == Up(st.workers[t], t, st.scheds) {
      EnterWorker(st, s, l, t);
    }
    ReadyKept(st, st');
  }

  lemma KeepEnter(st: State, s: Tid, l: Clid)
    requires Inv(st) && !st.closing && s !in st.scheds && l in st.lists
    ensures Inv(DoEnter(st, s, l))
  {
    hide AllScheds, AllWorkers, AllLists, AllReady, AllSleep;
    EnterRecords(st, s, l);
    EnterReady(st, s, l);
    ListsFrame(st, DoEnter(st, s, l));
  }

  lemma LeaveWorker(st: State, s: Tid, t: Tid)
    requires s in st.scheds && st.scheds[s].pc.Leaving? && t in st.workers && WorkerOk(st, t)
    ensures WorkerOk(DoLeave(st, s), t)
    ensures Up(st.workers[t], t, DoLeave(st, s).scheds) == Up(st.workers[t], t, st.scheds)
  {}

  lemma LeaveRecords(st: State, s: Tid)
    requires AllScheds(st) && AllWorkers(st) && AllSleep(st) && s in st.scheds && st.scheds[s].pc.Leaving?
    ensures var st' := DoLeave(st, s); AllScheds(st') && AllWorkers(st') && AllSleep(st')
  {
    var st' := DoLeave(st, s);
    hide SchedOk, WorkerOk, AllSleep, Up;
    forall x | x in st'.scheds ensures SchedOk(st', x) { SchedFrame(st, st', x); }
    forall t | t in st'.workers ensures WorkerOk(st', t) { LeaveWorker(st, s, t); }
    SleepFrame(st, st');
  }

  lemma LeaveReady(st: State, s: Tid)
    requires AllWorkers(st) && AllReady(st) && s in st.scheds && st.scheds[s].pc.Leaving?
    ensures AllReady(DoLeave(st, s))
  {
    var st' := DoLeave(st, s);
    hide WorkerOk, AllReady, Up;
    forall t | t in st.workers ensures Up(st'.workers[t], t, st'.scheds) == Up(st.workers[t], t, st.scheds) {
      LeaveWorker(st, s, t);
    }
    ReadyKept(st, st');
  }

  lemma KeepLeave(st: State, s: Tid)
    requires Inv(st) && s in st.scheds && st.scheds[s].pc.Leaving?
    ensures Inv(DoLeave(st, s))
  {
    hide AllScheds, AllWorkers, AllLists, AllReady, AllSleep;
    LeaveRecords(st, s);
    LeaveReady(st, s);
    ListsFrame(st, DoLeave(st, s));
  }

  // ---- time and teardown ----

  lemma KeepTick(st: State, d: nat)
    requires Inv(st)
    ensures Inv(st.(now := st.now + d))
  {
    var st' := st.(now := st.now + d);
    hide SchedOk, WorkerOk, AllLists, AllReady, AllSleep;
    forall x | x in st'.scheds ensures SchedOk(st', x) { SchedFrame(st, st', x); }
    forall t | t in st'.workers ensures WorkerOk(st', t) { WorkerFrame(st, st', t); }
    ListsFrame(st, st');
    ReadyKept(st, st');
    SleepFrame(st, st');
  }

  lemma KeepDestroyList(st: State, l: Clid)
    requires Inv(st) && st.scheds == map[] && l in st.lists
    ensures Inv(st.(lists := st.lists - {l}, closing := true))
  {
    var st' := st.(lists := st.lists - {l}, closing := true);
    forall t | t in st'.workers ensures WorkerOk(st', t) { assert WorkerOk(st, t); }
    hide WorkerOk;
    ListsFrame(st, st');
    ReadySame(st, st');
  }

  lemma KeepDestroyWorker(st: State, t: Tid)
    requires Inv(st) && st.scheds == map[] && st.lists == map[] && t in st.workers
    ensures Inv(DoDestroyWorker(st, t))
  {
    var st' := DoDestroyWorker(st, t);
    forall u | u in st'.workers ensures WorkerOk(st', u) { assert WorkerOk(st, u); }
  }
}
