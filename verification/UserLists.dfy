/** The completion lists of user space: fixed arrays of handles, kept beside the kernel's lists. */
module UserLists {
  import opened Protocol
  import opened Safety
  import opened Solo
  import opened Answers
  import History

  /** worker_thread. The creating call returns only once the tid is known; see module Handshake. */
  class WorkerThread {
    const tid: Tid

    constructor (tid: Tid)
      ensures this.tid == tid
    {
      this.tid := tid;
    }
  }

  // ---- what a list holds ----

  /** completion_list_add on the tids of the handles: a full list stays as it is. */
  function Capped(u: seq<Tid>, t: Tid, max: nat): seq<Tid> {
    if |u| >= max then u else u + [t]
  }

  function Filled(u: seq<Tid>, adds: seq<Tid>, max: nat): seq<Tid>
    decreases |adds|
  {
    if adds == [] then u else Filled(Capped(u, adds[0], max), adds[1..], max)
  }

  function First(adds: seq<Tid>, n: nat): seq<Tid> {
    if |adds| <= n then adds else adds[..n]
  }

  /** However many adds there are, the list holds the first ones, in order, as far as they fit. */
  lemma {:induction false} HoldsTheFirst(u: seq<Tid>, adds: seq<Tid>, max: nat)
    requires |u| <= max
    ensures Filled(u, adds, max) == u + First(adds, max - |u|)
    decreases |adds|
  {
    if adds != [] {
      HoldsTheFirst(Capped(u, adds[0], max), adds[1..], max);
      if |u| < max {
        assert [adds[0]] + First(adds[1..], max - |u| - 1) == First(adds, max - |u|);
      }
    }
  }

  /** The batch entries that completion_list_get resolves. */
  function Resolved(batch: seq<Tid>, u: seq<Tid>): seq<Tid> {
    if batch == [] then []
    else Resolved(batch[..|batch| - 1], u) + (if batch[|batch| - 1] in u then [batch[|batch| - 1]] else [])
  }

  /** scheduler_proc executes its whole batch, in order, exactly if every tid resolves. */
  lemma {:induction false} WholeBatchIff(batch: seq<Tid>, u: seq<Tid>)
    ensures |Resolved(batch, u)| <= |batch|
    ensures Resolved(batch, u) == batch <==> forall t :: t in batch ==> t in u
    decreases |batch|
  {
    if batch != [] {
      var front, last := batch[..|batch| - 1], batch[|batch| - 1];
      assert batch == front + [last];
      WholeBatchIff(front, u);
      if last in u {
        assert Resolved(batch, u) == batch <==> Resolved(front, u) == front;
      } else {
        assert last in batch;
      }
    }
  }

  /** The answer may be cut anywhere: an entry without a handle ends nothing. */
  lemma {:induction false} ResolvedConcat(a: seq<Tid>, b: seq<Tid>, u: seq<Tid>)
    ensures Resolved(a + b, u) == Resolved(a, u) + Resolved(b, u)
    decreases |b|
  {
    if b == [] {
      assert a + b == a;
    } else {
      var front, last := b[..|b| - 1], b[|b| - 1];
      assert (a + b)[..|a + b| - 1] == a + front && (a + b)[|a + b| - 1] == last;
      ResolvedConcat(a, front, u);
    }
  }

  /** Every entry with a handle is executed as often as it was answered, and no other. */
  lemma {:induction false} ResolvedCounts(batch: seq<Tid>, u: seq<Tid>, t: Tid)
    ensures multiset(Resolved(batch, u))[t] == if t in u then multiset(batch)[t] else 0
    decreases |batch|
  {
    if batch != [] {
      var front, last := batch[..|batch| - 1], batch[|batch| - 1];
      assert batch == front + [last];
      ResolvedCounts(front, u, t);
    }
  }

  /** idx lists, in increasing order, exactly the first n places of the answer whose tids have a handle. */
  ghost predicate Selects(idx: seq<nat>, n: nat, ready: seq<Tid>, executed: seq<Tid>, u: seq<Tid>)
    requires n <= |ready|
  {
    && |idx| == |executed|
    && (forall k :: 0 <= k < |idx| ==> idx[k] < n && executed[k] == ready[idx[k]])
    && (forall j, k :: 0 <= j < k < |idx| ==> idx[j] < idx[k])
    && (forall i: nat :: i < n ==> (i in idx <==> ready[i] in u))
  }

  lemma SelectNext(idx: seq<nat>, n: nat, ready: seq<Tid>, executed: seq<Tid>, u: seq<Tid>)
    requires n < |ready| && Selects(idx, n, ready, executed, u)
    ensures ready[n] in u ==> Selects(idx + [n], n + 1, ready, executed + [ready[n]], u)
    ensures ready[n] !in u ==> Selects(idx, n + 1, ready, executed, u)
  {
    if ready[n] in u {
      var more := idx + [n];
      forall i: nat | i < n + 1 ensures i in more <==> ready[i] in u {
        if i == n {
          assert more[|idx|] == n;
        } else {
          assert i in more <==> i in idx;
        }
      }
    }
  }

  class CompletionList {
    var lastIndex: nat
    const wt: array<WorkerThread?>

    ghost predicate Valid()
      reads this, wt
    {
      lastIndex <= wt.Length && forall i :: 0 <= i < lastIndex ==> wt[i] != null
    }

    ghost function Tids(): (u: seq<Tid>)
      requires Valid()
      reads this, wt
      ensures |u| == lastIndex && forall i :: 0 <= i < lastIndex ==> u[i] == wt[i].tid
    {
      seq(lastIndex, i requires 0 <= i < lastIndex && i < wt.Length && wt[i] != null reads this, wt => wt[i].tid)
    }

    /** completion_list_init on an array of MAX_WT handles. */
    constructor (maxWt: nat)
      ensures Valid() && fresh(wt) && wt.Length == maxWt && Tids() == []
    {
      lastIndex := 0;
      wt := new WorkerThread?[maxWt](_ => null);
    }

    /** completion_list_add: -1 on a full list. */
    method Add(w: WorkerThread) returns (r: int)
      requires Valid()
      modifies this`lastIndex, wt
      ensures Valid()
      ensures r == if old(lastIndex) == wt.Length then -1 else 0
      ensures Tids() == Capped(old(Tids()), w.tid, wt.Length)
      ensures wt[..lastIndex] == old(wt[..lastIndex]) + (if r == 0 then [w] else [])
    {
      if lastIndex >= wt.Length {
        return -1;
      }
      wt[lastIndex] := w;
      lastIndex := lastIndex + 1;
      assert Tids() == old(Tids()) + [w.tid];
      return 0;
    }

    /** completion_list_get: null stands for the (worker_thread*) -1 of the original. */
    method Get(tid: Tid) returns (w: WorkerThread?)
      requires Valid()
      ensures w == null <==> tid !in Tids()
      ensures w != null ==> w.tid == tid && exists i :: 0 <= i < lastIndex && wt[i] == w && tid !in Tids()[..i]
    {
      var i := 0;
      while i < lastIndex
        invariant i <= lastIndex && forall j :: 0 <= j < i ==> wt[j].tid != tid
      {
        if wt[i].tid == tid {
          assert Tids()[i] == tid;
          return wt[i];
        }
        i := i + 1;
      }
      return null;
    }

    /**
     The for loop of scheduler_proc over one answer: it passes to ExecuteUmsThread, in order, the entries that
     have a handle, wherever they stand, and no others.
     */
    method ExecuteBatch(ready: seq<Tid>) returns (executed: seq<Tid>, ghost idx: seq<nat>)
      requires Valid()
      ensures Selects(idx, |ready|, ready, executed, Tids())
      ensures executed == Resolved(ready, Tids())
    {
      executed, idx := [], [];
      var i := 0;
      while i < |ready|
        invariant i <= |ready| && executed == Resolved(ready[..i], Tids())
        invariant Selects(idx, i, ready, executed, Tids())
      {
        var w := Get(ready[i]);
        assert ready[..i + 1][..i] == ready[..i];
        SelectNext(idx, i, ready, executed, Tids());
        if w != null {
          executed, idx := executed + [w.tid], idx + [i];
        }
        i := i + 1;
      }
      assert ready[..i] == ready;
    }
  }

  // ---- agreement with the kernel ----

  /** The workers added to list l during a run, in order. */
  function Adds(steps: seq<Step>, l: Clid): seq<Tid>
    decreases |steps|
  {
    if |steps| == 0 then []
    else if steps[0].Add? && steps[0].l == l then [steps[0].t] + Adds(steps[1..], l)
    else Adds(steps[1..], l)
  }

  /** The tids in the user-space half of list l: every add is made on both halves, and a refusal is ignored. */
  function UserTids(steps: seq<Step>, l: Clid, max: nat): seq<Tid> {
    Filled([], Adds(steps, l), max)
  }

  function Memberships(st: State, t: Tid, l: Clid): nat {
    if t in st.workers then multiset(st.workers[t].clids)[l] else 0
  }

  lemma SchedulerMembership(st: State, step: Step, t: Tid, l: Clid)
    requires Enabled(st, step) && (Dequeues(step) || Executes(step))
    ensures Memberships(Apply(st, step), t, l) == Memberships(st, t, l)
  {
    var st' := Apply(st, step);
    assert st'.workers.Keys == st.workers.Keys;
    assert t in st.workers ==> st'.workers[t].clids == st.workers[t].clids;
  }

  lemma AddMembership(st: State, u: Tid, c: Clid, late: set<Tid>, t: Tid, l: Clid)
    requires Enabled(st, Add(u, c, late))
    ensures Memberships(DoAdd(st, u, c, late), t, l) == Memberships(st, t, l) + if u == t && c == l then 1 else 0
  {}

  lemma MembershipStep(st: State, step: Step, t: Tid, l: Clid)
    requires Enabled(st, step) && !Apply(st, step).closing
    ensures Memberships(Apply(st, step), t, l)
         == Memberships(st, t, l) + if step.Add? && step.t == t && step.l == l then 1 else 0
  {
    if Dequeues(step) || Executes(step) {
      SchedulerMembership(st, step, t, l);
    } else if step.Add? {
      AddMembership(st, step.t, step.l, step.late, t, l);
    } else {
      var st' := Apply(st, step);
      assert t in st.workers ==> t in st'.workers && st'.workers[t].clids == st.workers[t].clids;
    }
  }

  lemma Onwards(st: State, step: Step)
    requires Enabled(st, step)
    ensures Apply(st, step).maxWt == st.maxWt && (st.closing ==> Apply(st, step).closing)
  {}

  lemma {:induction false} ClosedStays(st: State, steps: seq<Step>)
    requires ValidRun(st, steps)
    ensures After(st, steps).maxWt == st.maxWt && (st.closing ==> After(st, steps).closing)
    decreases |steps|
  {
    if steps != [] {
      Onwards(st, steps[0]);
      hide Enabled, Apply;
      ClosedStays(Apply(st, steps[0]), steps[1..]);
    }
  }

  /** Until teardown a worker is on a list exactly as often as it was added to it. */
  lemma {:induction false} MembershipsAreAdds(st: State, steps: seq<Step>, t: Tid, l: Clid)
    requires ValidRun(st, steps) && !After(st, steps).closing
    ensures Memberships(After(st, steps), t, l) == Memberships(st, t, l) + multiset(Adds(steps, l))[t]
    decreases |steps|
  {
    if steps != [] {
      ClosedStays(Apply(st, steps[0]), steps[1..]);
      MembershipStep(st, steps[0], t, l);
      hide Enabled, Apply, Memberships;
      MembershipsAreAdds(Apply(st, steps[0]), steps[1..], t, l);
    }
  }

  /** The lists worker t was added to during a run, the last first. */
  function Joined(steps: seq<Step>, t: Tid): seq<Clid>
    decreases |steps|
  {
    if |steps| == 0 then []
    else Joined(steps[1..], t) + (if steps[0].Add? && steps[0].t == t then [steps[0].l] else [])
  }

  /** clid_list names them in that order. */
  lemma {:induction false} ClidsAreJoined(st: State, steps: seq<Step>, t: Tid)
    requires ValidRun(st, steps) && t in st.workers && DestroyWorker(t) !in steps
    ensures t in After(st, steps).workers && After(st, steps).workers[t].clids == Joined(steps, t) + st.workers[t].clids
    decreases |steps|
  {
    hide Enabled, Apply;
    if steps == [] {
      assert [] + st.workers[t].clids == st.workers[t].clids;
    } else {
      History.StaysInTable(st, steps[0], t);
      JoinStep(st, steps[0], t);
      ClidsAreJoined(Apply(st, steps[0]), steps[1..], t);
      var head := if steps[0].Add? && steps[0].t == t then [steps[0].l] else [];
      assert Joined(steps[1..], t) + (head + st.workers[t].clids) == (Joined(steps[1..], t) + head) + st.workers[t].clids;
    }
  }

  lemma JoinStep(st: State, step: Step, t: Tid)
    requires Enabled(st, step) && t in st.workers && t in Apply(st, step).workers
    ensures Apply(st, step).workers[t].clids == (if step.Add? && step.t == t then [step.l] else []) + st.workers[t].clids
  {
    assert [] + st.workers[t].clids == st.workers[t].clids;
    if !step.Add? { History.SameMembership(st, step, t); }
  }

  /** Every live worker of list l has a handle in the user-space half of l. */
  ghost predicate AllResolve(st: State, steps: seq<Step>, l: Clid) {
    forall t :: t in st.workers && l in st.workers[t].clids ==> t in UserTids(steps, l, st.maxWt)
  }

  /**
   The two halves agree exactly if the adds that come after the list is full repeat workers that are on it
   already. In particular they agree after at most MAX_WT adds.
   */
  lemma AgreementIff(init: State, steps: seq<Step>, l: Clid)
    requires Init(init) && ValidRun(init, steps) && !After(init, steps).closing
    ensures var st, adds := After(init, steps), Adds(steps, l);
      && (AllResolve(st, steps, l) <==> forall t :: t in adds ==> t in First(adds, st.maxWt))
      && (|adds| <= st.maxWt ==> AllResolve(st, steps, l))
  {
    var st, adds := After(init, steps), Adds(steps, l);
    HoldsTheFirst([], adds, st.maxWt);
    assert UserTids(steps, l, st.maxWt) == First(adds, st.maxWt);
    hide After, ValidRun, UserTids;
    forall t: Tid ensures t in st.workers && l in st.workers[t].clids <==> t in adds {
      MembershipsAreAdds(init, steps, t, l);
    }
  }

  lemma RunIsReachable(init: State, steps: seq<Step>)
    requires Init(init) && ValidRun(init, steps)
    ensures Reachable(After(init, steps))
  {}

  /**
   While the adds that came after the list was full only repeat workers, every answer of DEQUEUECOMPLLIST for
   it resolves to a handle, so that scheduler_proc executes all of it, in order.
   */
  lemma AnswersResolve(init: State, steps: seq<Step>, s: Tid)
    requires Init(init) && ValidRun(init, steps) && Enabled(After(init, steps), EndScan(s))
    requires var adds := Adds(steps, After(init, steps).scheds[s].clid); forall t :: t in adds ==> t in First(adds, init.maxWt)
    ensures var st := After(init, steps);
      var next := Apply(st, EndScan(s)).scheds[s].pc;
      next.InUser? ==> Resolved(next.batch, UserTids(steps, st.scheds[s].clid, init.maxWt)) == next.batch
  {
    var st := After(init, steps);
    RunIsReachable(init, steps);
    ClosedStays(init, steps);
    hide Reachable, After, ValidRun;
    SchedFact(st, s);
    AgreementIff(init, steps, st.scheds[s].clid);
    History.PositiveAnswer(st, s);
    var next := Apply(st, EndScan(s)).scheds[s].pc;
    if next.InUser? {
      WholeBatchIff(next.batch, UserTids(steps, st.scheds[s].clid, init.maxWt));
    }
  }

  /** In particular with at most MAX_WT adds to the list. */
  lemma AnswersResolveWithinMax(init: State, steps: seq<Step>, s: Tid)
    requires Init(init) && ValidRun(init, steps) && Enabled(After(init, steps), EndScan(s))
    requires |Adds(steps, After(init, steps).scheds[s].clid)| <= init.maxWt
    ensures var st := After(init, steps);
      var next := Apply(st, EndScan(s)).scheds[s].pc;
      next.InUser? ==> Resolved(next.batch, UserTids(steps, st.scheds[s].clid, init.maxWt)) == next.batch
  {
    hide After, ValidRun, Enabled, Apply;
    AnswersResolve(init, steps, s);
  }

  /**
   That condition is needed: a worker that the next scan may take and that has no handle can be part of the
   answer, and scheduler_proc then leaves it out.
   */
  lemma UnresolvedAnswer(init: State, steps: seq<Step>, s: Tid, t: Tid) returns (more: seq<Step>)
    requires Init(init) && ValidRun(init, steps) && Enabled(After(init, steps), BeginScan(s))
    requires Takeable(After(init, steps), s, t)
    requires t !in UserTids(steps, After(init, steps).scheds[s].clid, init.maxWt)
    ensures ValidRun(After(init, steps), more) && OnlyDequeues(more, s)
    ensures var st := After(init, steps);
      && s in After(st, more).scheds
      && var pc := After(st, more).scheds[s].pc;
         && pc.InUser? && t in pc.batch
         && Resolved(pc.batch, UserTids(steps, st.scheds[s].clid, init.maxWt)) != pc.batch
  {
    var st := After(init, steps);
    RunIsReachable(init, steps);
    var ready;
    more, ready := CanBeAnswered(st, s, t);
    WholeBatchIff(ready, UserTids(steps, st.scheds[s].clid, init.maxWt));
  }

  // ---- such a run exists ----

  /** With room for one handle, workers 1 and 2 are added to list 0 and scheduler 9 is about to scan it. */
  function OneTooMany(): seq<Step> {
    [InitList, Create(1, 0), Create(2, 0), Add(1, 0, {}), Add(2, 0, {}), Enter(9, 0), CallDequeue(9), CheckReady(9)]
  }

  function Snapshot(workers: map<Tid, Worker>, lists: map<Clid, CList>, scheds: map<Tid, Sched>, lastId: Clid): State {
    State(1, workers, lists, scheds, lastId, 0, false, Ledger(0, 0, 0, 0, 0))
  }

  function NewWorker(clids: seq<Clid>): Worker { Worker(Idle, 0, 0, 0, clids, NO_SCHED, FREE, true, 0, 0, 0) }

  function Both(c: seq<Clid>, d: seq<Clid>): map<Tid, Worker> { map[1 := NewWorker(c), 2 := NewWorker(d)] }

  function Nine(pc: PC): map<Tid, Sched> { map[9 := Sched(false, 0, -1, 0, 0, pc, 0, 0, 0, 0)] }

  function ListOf(n: int, q: multiset<Tid>): map<Clid, CList> { map[0 := CList(n, n, q)] }

  /** The states of that run. */
  function Moment(i: nat): State {
    if i == 0 then Snapshot(map[], map[], map[], 0)
    else if i == 1 then Snapshot(map[], ListOf(0, multiset{}), map[], 1)
    else if i == 2 then Snapshot(map[1 := NewWorker([])], ListOf(0, multiset{}), map[], 1)
    else if i == 3 then Snapshot(Both([], []), ListOf(0, multiset{}), map[], 1)
    else if i == 4 then Snapshot(Both([0], []), ListOf(1, multiset{1}), map[], 1)
    else if i == 5 then Snapshot(Both([0], [0]), ListOf(2, multiset{1, 2}), map[], 1)
    else Snapshot(Both([0], [0]), ListOf(2, multiset{1, 2}), Nine(if i == 6 then InUser([]) else if i == 7 then Checking else Entering), 1)
  }

  ghost predicate Leads(f: nat -> State, steps: seq<Step>, i: nat)
    requires i < |steps|
  {
    Enabled(f(i), steps[i]) && Apply(f(i), steps[i]) == f(i + 1)
  }

  /** States that lead from one to the next are a run. */
  lemma {:induction false} RunOf(f: nat -> State, steps: seq<Step>, n: nat)
    requires n <= |steps| && forall i :: 0 <= i < n ==> Leads(f, steps, i)
    ensures ValidRun(f(0), steps[..n]) && After(f(0), steps[..n]) == f(n)
  {
    if n == 0 {
      assert steps[..0] == [];
    } else {
      RunOf(f, steps, n - 1);
      assert Leads(f, steps, n - 1);
      assert steps[..n] == steps[..n - 1] + [steps[n - 1]];
      hide Enabled, Apply;
      RunSnoc(f(0), steps[..n - 1], steps[n - 1]);
    }
  }

  lemma SetsUp(i: nat)
    requires i < 3
    ensures Leads(Moment, OneTooMany(), i)
  {}

  lemma AddsBoth(i: nat)
    requires i == 3 || i == 4
    ensures Leads(Moment, OneTooMany(), i)
  {
    var st := Apply(Moment(i), OneTooMany()[i]);
    assert st.scheds == map[];
    assert multiset{} + multiset{1} == multiset{1} && multiset{1} + multiset{2} == multiset{1, 2};
    assert [0] + [] == [0];
    assert st.workers == Moment(i + 1).workers;
    assert st.lists == Moment(i + 1).lists;
  }

  lemma GoesToScan(i: nat)
    requires 5 <= i < 8
    ensures Leads(Moment, OneTooMany(), i)
  {}

  /** Worker 2 meets the hypotheses of UnresolvedAnswer: the next scan may take it, and it has no handle. */
  lemma OverflowHappens()
    ensures var init, steps := Moment(0), OneTooMany();
      && Init(init) && ValidRun(init, steps) && Enabled(After(init, steps), BeginScan(9))
      && Takeable(After(init, steps), 9, 2) && After(init, steps).scheds[9].clid == 0
      && 2 !in UserTids(steps, 0, init.maxWt)
  {
    OnlyTheFirst();
    FirstAndLast();
    assert OneTooMany()[..8] == OneTooMany();
    hide *;
    forall i | 0 <= i < 8 ensures Leads(Moment, OneTooMany(), i) {
      if i < 3 { SetsUp(i); } else if i < 5 { AddsBoth(i); } else { GoesToScan(i); }
    }
    RunOf(Moment, OneTooMany(), 8);
  }

  lemma FirstAndLast()
    ensures Init(Moment(0)) && Moment(0).maxWt == 1 && |OneTooMany()| == 8
    ensures Enabled(Moment(8), BeginScan(9)) && Takeable(Moment(8), 9, 2) && Moment(8).scheds[9].clid == 0
  {}

  lemma AddsFrom(steps: seq<Step>, i: nat, l: Clid)
    requires i < |steps|
    ensures Adds(steps[i..], l) ==
      if steps[i].Add? && steps[i].l == l then [steps[i].t] + Adds(steps[i + 1..], l) else Adds(steps[i + 1..], l)
  {
    assert steps[i..][1..] == steps[i + 1..];
  }

  lemma OnlyTheFirst()
    ensures 2 !in UserTids(OneTooMany(), 0, 1)
  {
    hide Adds, Filled;
    var steps := OneTooMany();
    AddsFrom(steps, 0, 0);
    AddsFrom(steps, 1, 0);
    AddsFrom(steps, 2, 0);
    AddsFrom(steps, 3, 0);
    AddsFrom(steps, 4, 0);
    AddsFrom(steps, 5, 0);
    AddsFrom(steps, 6, 0);
    AddsFrom(steps, 7, 0);
    assert steps[0..] == steps && steps[8..] == [];
    NoAdds([], 0);
    assert Adds(steps[3..], 0) == [1] + ([2] + []);
    assert Adds(steps, 0) == [1, 2];
    RoomForOne();
  }

  lemma RoomForOne()
    ensures 2 !in Filled([], [1, 2], 1)
  {
    HoldsTheFirst([], [1, 2], 1);
  }

  lemma NoAdds(steps: seq<Step>, l: Clid)
    requires steps == []
    ensures Adds(steps, l) == []
  {}
}
