/** The module's tables and its ioctl handlers, each proved to take steps of the protocol. */
module Kernel {
  import opened Totals
  import opened Protocol
  import opened Invariant
  import opened Records
  import Buckets
  import opened Solo
  import opened Safety
  import opened Theorems

  class UmsModule {
    const maxWt: nat
    const hash: Buckets.Hash  // of the queue of every list
    const buckets: nat        // their size, at least one
    var workers: map<Tid, KWorkerThread>
    var lists: map<Clid, KCompletionList>
    var scheds: map<Tid, KSchedThread>
    var lastId: Clid
    var now: int              // ktime_get
    var closing: bool
    ghost var ledger: Ledger

    /** Every record is filed under its own identifier, so no two entries share a record. */
    ghost predicate Valid()
      reads this, workers.Values, lists.Values, scheds.Values
    {
      buckets >= 1 && WorkersFiled() && ListsFiled() && SchedsFiled()
    }

    ghost predicate WorkersFiled()
      reads this`workers, workers.Values
    {
      forall t :: t in workers ==> workers[t].tid == t
    }

    ghost predicate ListsFiled()
      reads this`lists, lists.Values
    {
      forall l :: l in lists ==> lists[l].id == l && lists[l].Valid()
    }

    ghost predicate SchedsFiled()
      reads this`scheds, scheds.Values
    {
      forall s :: s in scheds ==> scheds[s].tid == s
    }

    ghost function View(): State
      reads this, workers.Values, lists.Values, scheds.Values
    {
      State(maxWt, Workers(), Lists(), Scheds(), lastId, now, closing, ledger)
    }

    ghost function Workers(): map<Tid, Worker>
      reads this`workers, workers.Values
    {
      map t | t in workers :: workers[t].View()
    }

    ghost function Lists(): map<Clid, CList>
      reads this`lists, lists.Values
    {
      map l | l in lists :: lists[l].View()
    }

    ghost function Scheds(): map<Tid, Sched>
      reads this`scheds, scheds.Values
    {
      map s | s in scheds :: scheds[s].View()
    }

    /** Only the contents of records have changed. */
    twostate predicate SameTables()
      reads this
    {
      workers == old(workers) && lists == old(lists) && scheds == old(scheds)
    }

    constructor (maxWt: nat, hash: Buckets.Hash, buckets: nat)
      requires maxWt >= 1 && buckets >= 1
      ensures Valid() && Init(View()) && View().maxWt == maxWt
    {
      this.maxWt, this.hash, this.buckets := maxWt, hash, buckets;
      workers, lists, scheds := map[], map[], map[];
      lastId, now, closing := 0, 0, false;
      ledger := Ledger(0, 0, 0, 0, 0);
    }

    // ---- how a change of one record shows in the view ----

    twostate lemma WorkerChanged(t: Tid)
      requires old(Valid()) && t in workers && unchanged(this)
      requires forall u :: u in workers && u != t ==> unchanged(workers[u])
      requires forall l :: l in lists ==> unchanged(lists[l])
      requires forall s :: s in scheds ==> unchanged(scheds[s])
      ensures Valid() && View() == WithWorker(old(View()), t, workers[t].View())
    {
      hide Buckets.Filed, Buckets.Keys;
      assert Workers() == old(Workers())[t := workers[t].View()];
      assert Lists() == old(Lists()) && Scheds() == old(Scheds());
    }

    twostate lemma ListChanged(l: Clid)
      requires old(Valid()) && l in lists && unchanged(this) && lists[l].Valid()
      requires forall t :: t in workers ==> unchanged(workers[t])
      requires forall c :: c in lists && c != l ==> unchanged(lists[c])
      requires forall s :: s in scheds ==> unchanged(scheds[s])
      ensures Valid() && View() == WithList(old(View()), l, lists[l].View())
    {
      hide Buckets.Filed, Buckets.Keys;
      assert Lists() == old(Lists())[l := lists[l].View()];
      assert Workers() == old(Workers()) && Scheds() == old(Scheds());
    }

    twostate lemma SchedChanged(s: Tid)
      requires old(Valid()) && s in scheds && unchanged(this)
      requires forall t :: t in workers ==> unchanged(workers[t])
      requires forall l :: l in lists ==> unchanged(lists[l])
      requires forall x :: x in scheds && x != s ==> unchanged(scheds[x])
      ensures Valid() && View() == WithSched(old(View()), s, scheds[s].View())
    {
      hide Buckets.Filed, Buckets.Keys;
      assert Scheds() == old(Scheds())[s := scheds[s].View()];
      assert Workers() == old(Workers()) && Lists() == old(Lists());
    }

    // ---- the macros, applied to a filed record ----

    method AddClid(t: Tid, l: Clid)
      requires Valid() && t in View().workers
      modifies workers.Values, lists.Values, scheds.Values
      ensures Valid() && SameTables()
      ensures View() == WithWorker(old(View()), t, Listed(old(View()).workers[t], l))
    {
      workers[t].AddClid(l);
      WorkerChanged(t);
    }

    method AddWorker(t: Tid, l: Clid)
      requires Valid() && l in View().lists
      modifies workers.Values, lists.Values, scheds.Values
      ensures Valid() && SameTables()
      ensures View() == WithList(old(View()), l, Enlisted(old(View()).lists[l], t))
    {
      hide KCompletionList.View, KCompletionList.Valid, Enlisted, Delisted, Bumped;
      lists[l].AddWorker(t);
      ListChanged(l);
    }

    method RemoveWorker(t: Tid, l: Clid)
      requires Valid() && l in View().lists
      modifies workers.Values, lists.Values, scheds.Values
      ensures Valid() && SameTables()
      ensures View() == WithList(old(View()), l, Delisted(old(View()).lists[l], t))
    {
      hide KCompletionList.View, KCompletionList.Valid, Enlisted, Delisted, Bumped;
      lists[l].RemoveWorker(t);
      ListChanged(l);
    }

    method Bump(l: Clid, d: int)
      requires Valid() && l in View().lists
      modifies workers.Values, lists.Values, scheds.Values
      ensures Valid() && SameTables()
      ensures View() == WithList(old(View()), l, Bumped(old(View()).lists[l], d))
    {
      hide KCompletionList.View, KCompletionList.Valid, Enlisted, Delisted, Bumped;
      lists[l].Bump(d);
      ListChanged(l);
    }

    method TryLock(t: Tid, s: Tid) returns (ok: bool)
      requires Valid() && t in View().workers
      modifies workers.Values, lists.Values, scheds.Values
      ensures Valid() && SameTables()
      ensures ok <==> old(View()).workers[t].lock == FREE
      ensures View() == WithWorker(old(View()), t, if ok then LockedBy(old(View()).workers[t], s) else old(View()).workers[t])
    {
      ok := workers[t].TryLock(s);
      WorkerChanged(t);
    }

    method MutexUnlock(t: Tid)
      requires Valid() && t in View().workers
      modifies workers.Values, lists.Values, scheds.Values
      ensures Valid() && SameTables()
      ensures View() == WithWorker(old(View()), t, LockedBy(old(View()).workers[t], FREE))
    {
      workers[t].Unlock();
      WorkerChanged(t);
    }

    method WorkerRuns(t: Tid, s: Tid)
      requires Valid() && t in View().workers
      modifies workers.Values, lists.Values, scheds.Values
      ensures Valid() && SameTables()
      ensures View() == WithWorker(old(View()), t, Started(old(View()).workers[t], s, old(View()).now))
    {
      workers[t].SetRunning(s, now);
      WorkerChanged(t);
    }

    method WorkerIdles(t: Tid)
      requires Valid() && t in View().workers && View().workers[t].left > 0
      modifies workers.Values, lists.Values, scheds.Values
      ensures Valid() && SameTables()
      ensures View() == WithWorker(old(View()), t, Idled(old(View()).workers[t]))
    {
      workers[t].SetIdle();
      WorkerChanged(t);
    }

    method WorkerExits(t: Tid)
      requires Valid() && t in View().workers
      modifies workers.Values, lists.Values, scheds.Values
      ensures Valid() && SameTables()
      ensures View() == WithWorker(old(View()), t, Ended(old(View()).workers[t]))
    {
      workers[t].SetExiting();
      WorkerChanged(t);
    }

    method Measure(t: Tid) returns (elapsed: int)
      requires Valid() && t in View().workers
      modifies workers.Values, lists.Values, scheds.Values
      ensures Valid() && SameTables()
      ensures elapsed == SliceOf(old(View()), t)
      ensures View() == WithWorker(old(View()), t, Timed(old(View()).workers[t], old(View()).now))
    {
      elapsed := workers[t].UpdateTimeMeasured(now);
      WorkerChanged(t);
    }

    method SchedRuns(s: Tid, t: Tid)
      requires Valid() && s in View().scheds
      modifies workers.Values, lists.Values, scheds.Values
      ensures Valid() && SameTables()
      ensures View() == WithSched(old(View()), s, Busied(old(View()).scheds[s], t, old(View()).now))
    {
      scheds[s].SetRunning(t, now);
      SchedChanged(s);
    }

    method SchedIdles(s: Tid, elapsed: int)
      requires Valid() && s in View().scheds
      modifies workers.Values, lists.Values, scheds.Values
      ensures Valid() && SameTables()
      ensures View() == WithSched(old(View()), s, Rested(old(View()).scheds[s], elapsed, old(View()).now))
    {
      scheds[s].SetIdle(elapsed, now);
      SchedChanged(s);
    }

    method MoveTo(s: Tid, pc: PC)
      requires Valid() && s in View().scheds
      modifies workers.Values, lists.Values, scheds.Values
      ensures Valid() && SameTables()
      ensures View() == WithSched(old(View()), s, Placed(old(View()).scheds[s], pc))
    {
      scheds[s].MoveTo(pc);
      SchedChanged(s);
    }

    method WakeScheduler(s: Tid)
      requires Valid() && s in View().scheds
      modifies workers.Values, lists.Values, scheds.Values
      ensures Valid() && SameTables()
      ensures View() == WithSched(old(View()), s, Placed(old(View()).scheds[s], Woken(old(View()).scheds[s].pc)))
    {
      scheds[s].Wake();
      SchedChanged(s);
    }

    // ---- records that come and go ----

    method FileList(l: Clid)
      requires Valid() && l !in View().lists
      modifies this`lists
      ensures Valid() && l in lists && fresh(lists[l])
      ensures View() == WithList(old(View()), l, CList(0, 0, multiset{}))
    {
      hide KCompletionList.View, KCompletionList.Valid, Workers, Scheds, WorkersFiled, SchedsFiled;
      var kcl := new KCompletionList(l, hash, buckets);
      lists := lists[l := kcl];
      assert Lists() == old(Lists())[l := kcl.View()];
    }

    method FileWorker(t: Tid, budget: nat)
      requires Valid() && t !in View().workers
      modifies this`workers
      ensures Valid() && t in workers && fresh(workers[t])
      ensures View() == WithWorker(old(View()), t, Worker(Idle, 0, 0, 0, [], NO_SCHED, FREE, true, budget, old(View()).now, 0))
    {
      hide Lists, Scheds, ListsFiled, SchedsFiled;
      var kwt := new KWorkerThread(t, budget, now);
      workers := workers[t := kwt];
      assert Workers() == old(Workers())[t := kwt.View()];
    }

    method FileSched(s: Tid, l: Clid)
      requires Valid() && s !in View().scheds
      modifies this`scheds
      ensures Valid() && s in scheds && fresh(scheds[s])
      ensures View() == WithSched(old(View()), s, Sched(false, 0, -1, 0, l, InUser([]), old(View()).now, old(View()).now, old(View()).now, 0))
    {
      hide Workers, Lists, WorkersFiled, ListsFiled;
      var kst := new KSchedThread(s, l, now);
      scheds := scheds[s := kst];
      assert Scheds() == old(Scheds())[s := kst.View()];
    }

    method DropWorker(t: Tid)
      requires Valid()
      modifies this`workers
      ensures Valid() && View() == old(View()).(workers := old(View()).workers - {t})
    {
      hide Lists, Scheds, ListsFiled, SchedsFiled;
      workers := workers - {t};
      assert Workers() == old(Workers()) - {t};
    }

    method DropList(l: Clid)
      requires Valid()
      modifies this`lists
      ensures Valid() && View() == old(View()).(lists := old(View()).lists - {l})
    {
      hide Buckets.Filed, Buckets.Keys, Workers, Scheds, WorkersFiled, SchedsFiled;
      lists := lists - {l};
      assert Lists() == old(Lists()) - {l};
    }

    method DropSched(s: Tid)
      requires Valid()
      modifies this`scheds
      ensures Valid() && View() == old(View()).(scheds := old(View()).scheds - {s})
    {
      hide Workers, Lists, WorkersFiled, ListsFiled;
      scheds := scheds - {s};
      assert Scheds() == old(Scheds()) - {s};
    }

    method Close()
      requires Valid()
      modifies this`closing
      ensures Valid() && View() == old(View()).(closing := true)
    {
      hide Workers, Lists, Scheds, WorkersFiled, ListsFiled, SchedsFiled;
      closing := true;
    }

    ghost method Book(entry: Ledger)
      requires Valid()
      modifies this`ledger
      ensures Valid() && View() == old(View()).(ledger := entry)
    {
      hide Workers, Lists, Scheds, WorkersFiled, ListsFiled, SchedsFiled;
      ledger := entry;
    }

    /** The id counter moves on. */
    method NextId() returns (id: Clid)
      requires Valid()
      modifies this`lastId
      ensures id == old(View()).lastId
      ensures Valid() && View() == old(View()).(lastId := id + 1)
    {
      hide Workers, Lists, Scheds, WorkersFiled, ListsFiled, SchedsFiled;
      id := lastId;
      lastId := lastId + 1;
    }

    // ---- reads ----

    function Limit(): (max: nat)
      reads this, workers.Values, lists.Values, scheds.Values
      ensures max == View().maxWt
    {
      maxWt
    }

    /** get_kworker_thread finds a record. */
    predicate HasWorker(t: Tid)
      reads this, workers.Values, lists.Values, scheds.Values
      ensures HasWorker(t) <==> t in View().workers
    {
      t in workers
    }

    function RunnerOf(t: Tid): (s: int)
      requires t in View().workers
      reads this, workers.Values, lists.Values, scheds.Values
      ensures s == View().workers[t].currSched
    {
      workers[t].currSchedTid
    }

    function StateOf(t: Tid): (r: WorkerState)
      requires t in View().workers
      reads this, workers.Values, lists.Values, scheds.Values
      ensures r == View().workers[t].state
    {
      workers[t].state
    }

    function ClidsOf(t: Tid): (c: seq<Clid>)
      requires t in View().workers
      reads this, workers.Values, lists.Values, scheds.Values
      ensures c == View().workers[t].clids
    {
      workers[t].clidList
    }

    function PositionOf(s: Tid): (pc: PC)
      requires s in View().scheds
      reads this, workers.Values, lists.Values, scheds.Values
      ensures pc == View().scheds[s].pc
    {
      scheds[s].pc
    }

    function ListServed(s: Tid): (l: Clid)
      requires s in View().scheds
      reads this, workers.Values, lists.Values, scheds.Values
      ensures l == View().scheds[s].clid
    {
      scheds[s].clid
    }

    function SchedIds(): (ids: set<Tid>)
      reads this, workers.Values, lists.Values, scheds.Values
      ensures ids == View().scheds.Keys
    {
      scheds.Keys
    }

    /** get_kcompletion_list for the list scheduler s serves, and the counters and queue found there. */
    function ServedList(s: Tid): (q: CList)
      requires s in View().scheds && View().scheds[s].clid in View().lists
      reads this, workers.Values, lists.Values, scheds.Values
      ensures q == View().lists[View().scheds[s].clid]
    {
      var kcl := lists[scheds[s].clid];
      CList(kcl.threadsReady, kcl.nthreads, Buckets.Keys(kcl.queue))
    }

    // ---- requests that are one step ----

    /** UMSINITCOMPLLIST. */
    method InitCompletionList() returns (id: Clid)
      requires Valid() && Reachable(View()) && Enabled(View(), InitList)
      modifies this
      ensures Valid() && View() == Apply(old(View()), InitList)
      ensures id == old(View()).lastId && id in lists && fresh(lists[id])
    {
      FreshListId(View());
      hide View, Valid, Apply, Enabled, Reachable;
      id := NextId();
      FileList(id);
    }

    /** CREATEWORKERTHREAD. */
    method CreateWorkerThread(t: Tid, budget: nat)
      requires Valid() && Enabled(View(), Create(t, budget))
      modifies this
      ensures Valid() && View() == Apply(old(View()), Create(t, budget))
      ensures t in workers && fresh(workers[t])
    {
      CreateAsUpdates(View(), t, budget);
      hide View, Valid, Apply, Enabled;
      FileWorker(t, budget);
    }

    /** ENTERUMSSCHEDMODE. */
    method EnterSchedMode(s: Tid, l: Clid)
      requires Valid() && Enabled(View(), Enter(s, l))
      modifies this
      ensures Valid() && View() == Apply(old(View()), Enter(s, l))
      ensures s in scheds && fresh(scheds[s])
    {
      EnterAsUpdates(View(), s, l);
      hide View, Valid, Apply, Enabled;
      FileSched(s, l);
    }

    /** SCHEDTHREADDESTROY. */
    method SchedThreadDestroy(s: Tid)
      requires Valid() && Enabled(View(), Leave(s))
      modifies this
      ensures Valid() && View() == Apply(old(View()), Leave(s))
    {
      ghost var end := Apply(View(), Leave(s));
      LeaveAsUpdates(View(), s);
      hide View, Valid, Apply, Enabled;
      DropSched(s);
      Book(end.ledger);
    }

    /** COMPLLISTDESTROY. */
    method CompletionListDestroy(l: Clid)
      requires Valid() && Enabled(View(), DestroyList(l))
      modifies this
      ensures Valid() && View() == Apply(old(View()), DestroyList(l))
    {
      DestroyListAsUpdates(View(), l);
      hide View, Valid, Apply, Enabled;
      DropList(l);
      Close();
    }

    /** WORKERTHREADDESTROY; a tid without a record is ignored. */
    method WorkerThreadDestroy(t: Tid)
      requires Valid() && (t in View().workers ==> Enabled(View(), DestroyWorker(t)))
      modifies this
      ensures Valid()
      ensures View() == if t in old(View()).workers then Apply(old(View()), DestroyWorker(t)) else old(View())
    {
      hide View, Valid, Apply, Enabled;
      if HasWorker(t) {
        ghost var end := Apply(View(), DestroyWorker(t));
        DestroyWorkerAsUpdates(View(), t);
        DropWorker(t);
        Close();
        Book(end.ledger);
      }
    }

    /** COMPLLISTADD: worker_thread_add_clid, then add_worker_thread; the scans of `late` will meet the new element. */
    method CompletionListAdd(t: Tid, l: Clid, late: set<Tid>)
      requires Valid() && Enabled(View(), Add(t, l, late))
      modifies workers.Values, lists.Values, scheds.Values
      ensures Valid() && SameTables() && View() == Apply(old(View()), Add(t, l, late))
    {
      hide View, Valid, Apply, Enabled, Listed, Enlisted, LateScans;
      AddAsUpdates(View(), t, l, late);
      AddClid(t, l);
      AddWorker(t, l);
      ShowToScans(t, l, late);
    }

    /** The cursors of these scans have the new element of t before them. */
    method ShowToScans(t: Tid, l: Clid, late: set<Tid>)
      requires Valid()
      modifies workers.Values, lists.Values, scheds.Values
      ensures Valid() && SameTables()
      ensures View() == old(View()).(scheds := LateScans(old(View()).scheds, late, t, l))
    {
      ghost var v := View();
      var todo := late * SchedIds();
      hide View, Valid, LateScans, Placed, Met;
      LateNone(v.scheds, late, todo, t, l);
      while todo != {}
        invariant Valid() && SameTables() && todo <= v.scheds.Keys && todo <= late
        invariant View() == v.(scheds := LateScans(v.scheds, late - todo, t, l))
        decreases |todo|
      {
        var x :| x in todo;
        LateOne(v.scheds, late, todo, x, t, l);
        MoveTo(x, SeenBy(PositionOf(x), ListServed(x), t, l));
        todo := todo - {x};
      }
      assert late - todo == late;
    }

    /** UMSTHREADTYIELD. */
    method YieldHandler(t: Tid)
      requires Valid() && Enabled(View(), Yield(t))
      modifies workers.Values, lists.Values, scheds.Values
      ensures Valid() && SameTables() && View() == Apply(old(View()), Yield(t))
    {
      YieldAsUpdates(View(), t);
      hide View, Valid, Apply, Enabled, Listed, Enlisted, Idled, Ended, LockedBy, Placed;
      var s := RunnerOf(t);
      WorkerIdles(t);
      WakeScheduler(s);
    }

    /** for_each_dec_kcl_nthreads: visit the lists of t's clid_list in order. */
    method ForEachDecNthreads(t: Tid)
      requires Valid() && t in View().workers
      requires forall c :: c in View().workers[t].clids ==> c in View().lists
      modifies workers.Values, lists.Values, scheds.Values
      ensures Valid() && SameTables()
      ensures View() == old(View()).(lists := ExitLists(old(View()).lists, t, old(View()).workers[t].clids))
    {
      ghost var v := View();
      hide View, Valid, Delisted, ExitLists;
      var c := ClidsOf(t);
      var i := 0;
      ExitNone(v.lists, t);
      assert c[..0] == [];
      while i < |c|
        invariant i <= |c| && Valid() && SameTables()
        invariant View() == v.(lists := ExitLists(v.lists, t, c[..i]))
      {
        ExitSnoc(v.lists, t, c, i);
        RemoveWorker(t, c[i]);
        i := i + 1;
      }
      assert c[..i] == c;
    }

    /** WORKERTHREADEXIT. */
    method ExitHandler(t: Tid)
      requires Valid() && Enabled(View(), Exit(t))
      modifies workers.Values, lists.Values, scheds.Values
      ensures Valid() && SameTables() && View() == Apply(old(View()), Exit(t))
    {
      ExitAsUpdates(View(), t);
      hide View, Valid, Apply, Enabled, Listed, Enlisted, Idled, Ended, LockedBy, Placed;
      var s := RunnerOf(t);
      WorkerExits(t);
      ForEachDecNthreads(t);
      WakeScheduler(s);
    }

    // ---- sub-steps of DEQUEUECOMPLLIST ----

    /** The wait_event condition. */
    method CheckCondition(s: Tid)
      requires Valid() && Enabled(View(), CheckReady(s))
      modifies workers.Values, lists.Values, scheds.Values
      ensures Valid() && SameTables() && View() == Apply(old(View()), CheckReady(s))
    {
      var q := ServedList(s);
      MoveTo(s, if q.ready > 0 || q.nthreads == 0 then Entering else Sleeping);
    }

    /** The nthreads == 0 test, and the start of the scan. */
    method EnterScan(s: Tid) returns (n: int)
      requires Valid() && Enabled(View(), BeginScan(s))
      modifies workers.Values, lists.Values, scheds.Values
      ensures Valid() && SameTables() && View() == Apply(old(View()), BeginScan(s))
      ensures n == if old(View()).lists[old(View()).scheds[s].clid].nthreads == 0 then -1 else 0
    {
      var q := ServedList(s);
      n := if q.nthreads == 0 then -1 else 0;
      MoveTo(s, if q.nthreads == 0 then Leaving else Scanning(q.queue, []));
    }

    /** One element of the queue: skip it, or lock its worker and report it. */
    method VisitElement(s: Tid, t: Tid) returns (took: bool)
      requires Valid() && Enabled(View(), Visit(s, t))
      modifies workers.Values, lists.Values, scheds.Values
      ensures Valid() && SameTables() && View() == Apply(old(View()), Visit(s, t))
      ensures took <==> CanTake(old(View()), s, t)
    {
      hide View, Valid, Apply, Enabled, CanTake, WithWorker, WithSched, LockedBy, Placed;
      VisitAsUpdates(View(), s, t);
      var pc := PositionOf(s);
      var there := t in ServedList(s).queue;
      took := false;
      if there && |pc.got| < Limit() {
        SameWorker(View(), t);
        took := TryLock(t, s);
      }
      if took {
        MoveTo(s, Dec(pc.rest - multiset{t}, pc.got + [t], 0));
      } else {
        MoveTo(s, Scanning(pc.rest - multiset{t}, pc.got));
      }
    }

    method FinishScan(s: Tid)
      requires Valid() && Enabled(View(), EndScan(s))
      modifies workers.Values, lists.Values, scheds.Values
      ensures Valid() && SameTables() && View() == Apply(old(View()), EndScan(s))
    {
      var pc := PositionOf(s);
      MoveTo(s, if pc.got == [] then Checking else InUser(pc.got));
    }

    method DecrementOne(s: Tid)
      requires Valid() && Enabled(View(), DecOne(s))
      modifies workers.Values, lists.Values, scheds.Values
      ensures Valid() && SameTables() && View() == Apply(old(View()), DecOne(s))
    {
      DecOneAsUpdates(View(), s);
      var pc := PositionOf(s);
      var c := ClidsOf(pc.got[|pc.got| - 1])[pc.k];
      hide View, Valid, Apply, Enabled, Listed, Enlisted, Idled, Ended, LockedBy, Placed, Bumped, Started, Busied, Timed, Rested, StepOn;
      Bump(c, -1);
      MoveTo(s, StepOn(pc));
    }

    method DecrementDone(s: Tid)
      requires Valid() && Enabled(View(), DecDone(s))
      modifies workers.Values, lists.Values, scheds.Values
      ensures Valid() && SameTables() && View() == Apply(old(View()), DecDone(s))
    {
      var pc := PositionOf(s);
      MoveTo(s, Scanning(pc.rest, pc.got));
    }

    /** for_each_dec_kcl_threads_ready for the worker s has just locked, without interference. */
    method ForEachDecThreadsReady(s: Tid, ghost v: State, got: seq<Tid>, ghost rest: multiset<Tid>)
      returns (ghost steps: seq<Step>)
      requires Valid() && Reachable(View())
      requires s in v.scheds && Known(v.workers, got) && got != [] && View() == DecAt(v, s, got, rest, 0)
      modifies workers.Values, lists.Values, scheds.Values
      ensures Valid() && SameTables()
      ensures ValidRun(old(View()), steps) && View() == After(old(View()), steps)
      ensures View() == ScanAt(v, s, got, Scanning(rest, got))
    {
      hide View, Valid, Apply, Enabled, Reachable, Dropped, Locked, BumpBy;
      ghost var u := View();
      steps := [];
      ghost var c := v.workers[got[|got| - 1]].clids;
      var i := 0;
      DecPosition(v, s, got, rest, 0);
      var n := |ClidsOf(got[|got| - 1])|;
      while i < n
        invariant 0 <= i <= n == |c| && Valid() && SameTables()
        invariant ValidRun(u, steps) && View() == After(u, steps) == DecAt(v, s, got, rest, i)
      {
        DecPosition(v, s, got, rest, i);
        Extend(u, steps, DecOne(s));
        DecGoesOn(v, s, got, rest, i);
        DecrementOne(s);
        steps := steps + [DecOne(s)];
        i := i + 1;
      }
      DecPosition(v, s, got, rest, i);
      Extend(u, steps, DecDone(s));
      DecEnds(v, s, got, rest, i);
      DecrementDone(s);
      steps := steps + [DecDone(s)];
    }

    /** One visit of the scan and, if it locks the worker, the decrement loop for it. */
    method ScanOne(s: Tid, t: Tid, ghost v: State, ready: seq<Tid>, rest: multiset<Tid>)
      returns (ready': seq<Tid>, ghost steps: seq<Step>)
      requires Valid() && Reachable(View()) && Reachable(v)
      requires s in v.scheds && v.scheds[s].clid in v.lists && Known(v.workers, ready) && t in rest
      requires View() == ScanAt(v, s, ready, Scanning(rest, ready)) && ScanSoFar(v, s, ready, rest)
      modifies workers.Values, lists.Values, scheds.Values
      ensures Valid() && SameTables() && Known(v.workers, ready')
      ensures ValidRun(old(View()), steps) && View() == After(old(View()), steps)
      ensures View() == ScanAt(v, s, ready', Scanning(rest - multiset{t}, ready'))
      ensures ScanSoFar(v, s, ready', rest - multiset{t})
    {
      hide View, Valid, Apply, Enabled, Reachable, Dropped, Locked, ScanSoFar;
      ghost var u := View();
      assert ValidRun(u, []) && After(u, []) == u;
      Extend(u, [], Visit(s, t));
      var took := VisitElement(s, t);
      steps := [] + [Visit(s, t)];
      if took {
        TakeStarts(v, s, ready, rest, t);
        TakeFits(v, s, ready, rest, t);
        ScanTakes(v, s, ready, rest, t);
        ready' := ready + [t];
        ghost var more := ForEachDecThreadsReady(s, v, ready', rest - multiset{t});
        RunConcat(u, steps, more);
        steps := steps + more;
      } else {
        MissGoesOn(v, s, ready, rest, t);
        ScanPasses(v, s, ready, rest, t);
        ready' := ready;
      }
    }

    /**
     get_wt_ready_queue, without interference. It answers -1 if nthreads is 0. Otherwise it reports at most
     MAX_WT distinct workers; they are exactly the ones it has locked, each was unlocked, idle and on the
     list; none that it could have taken is left out while there is room; and threads_ready of every list
     has fallen by exactly their multiplicities.
     */
    method GetWtReadyQueue(s: Tid) returns (n: int, ready: seq<Tid>, ghost steps: seq<Step>)
      requires Valid() && Reachable(View()) && Guard(View(), BeginScan(s))
      modifies workers.Values, lists.Values, scheds.Values
      ensures Valid() && SameTables()
      ensures ValidRun(old(View()), steps) && View() == After(old(View()), steps)
      ensures ScanReports(old(View()), View(), s, n, ready)
    {
      hide View, Valid, Apply, Enabled, Reachable, Dropped, Locked, ScanSoFar, Known, ScanReports;
      ghost var v := View();
      assert ValidRun(v, []) && After(v, []) == v;
      ready, steps := [], [];
      Extend(v, [], BeginScan(s));
      Serves(v, s);
      n := EnterScan(s);
      steps := steps + [BeginScan(s)];
      if n == -1 {
        NoneReported(v, s);
        return;
      }
      ScanBegins(v, s);
      ScanNothingYet(v, s);
      NoneKnown(v.workers);
      var rest := PositionOf(s).rest;
      while rest != multiset{}
        invariant Valid() && SameTables() && Reachable(View()) && Known(v.workers, ready)
        invariant ValidRun(v, steps) && View() == After(v, steps) == ScanAt(v, s, ready, Scanning(rest, ready))
        invariant ScanSoFar(v, s, ready, rest)
        decreases |rest|
      {
        var t :| t in rest;
        ghost var more;
        ready, more := ScanOne(s, t, v, ready, rest);
        RunConcat(v, steps, more);
        steps, rest := steps + more, rest - multiset{t};
        ReachableRun(v, steps);
      }
      EndIsDue(v, s, ready);
      Extend(v, steps, EndScan(s));
      ScanEnds(v, s, ready);
      FinishScan(s);
      steps, n := steps + [EndScan(s)], |ready|;
      SomeReported(v, s, ready);
    }

    method CallDequeueItems(s: Tid)
      requires Valid() && Enabled(View(), CallDequeue(s))
      modifies workers.Values, lists.Values, scheds.Values
      ensures Valid() && SameTables() && View() == Apply(old(View()), CallDequeue(s))
    {
      MoveTo(s, Checking);
    }

    /**
     One round of the loop of DEQUEUECOMPLLIST, without interference: the thread falls asleep on the wait
     queue exactly if the condition is false, and scans otherwise.
     */
    method DequeueRound(s: Tid, ghost v: State) returns (asleep: bool, n: int, ready: seq<Tid>, ghost steps: seq<Step>)
      requires Valid() && View() == v && Reachable(v) && Guard(v, CheckReady(s))
      modifies workers.Values, lists.Values, scheds.Values
      ensures Valid() && SameTables()
      ensures ValidRun(v, steps) && View() == After(v, steps)
      ensures RoundEnds(v, View(), s, asleep, n, ready)
    {
      hide View, Valid, Apply, Enabled, Reachable, Guard, HasAnswer, ScanReports, RoundEnds;
      assert ValidRun(v, []) && After(v, []) == v;
      Extend(v, [], CheckReady(s));
      RoundBegins(v, s);
      CheckCondition(s);
      asleep := PositionOf(s).Sleeping?;
      n, ready, steps := 0, [], [] + [CheckReady(s)];
      if !asleep {
        ReachableRun(v, steps);
        ghost var more;
        n, ready, more := GetWtReadyQueue(s);
        RunConcat(v, steps, more);
        steps := steps + more;
      }
      RoundIs(v, View(), s, asleep, n, ready);
    }

    /**
     DEQUEUECOMPLLIST without interference, up to the answer or to the moment it falls asleep. While no other
     scheduler is between a change of a counter and the change of the lock that belongs to it, the loop that
     repeats while the answer is 0 takes one round, whatever the others have in execution.
     */
    method DequeueHandler(s: Tid) returns (asleep: bool, n: int, ready: seq<Tid>, ghost steps: seq<Step>)
      requires Valid() && Reachable(View()) && Guard(View(), CallDequeue(s)) && Settled(View())
      modifies workers.Values, lists.Values, scheds.Values
      ensures Valid() && SameTables()
      ensures ValidRun(old(View()), steps) && View() == After(old(View()), steps)
      ensures Answered(old(View()), View(), s, asleep, n, ready)
    {
      hide View, Valid, Apply, Enabled, Reachable, Guard, Settled, HasAnswer, ScanReports, RoundEnds, Answered;
      ghost var v := View();
      assert ValidRun(v, []) && After(v, []) == v;
      CallIsDue(v, s);
      Extend(v, [], CallDequeue(s));
      CallDequeueItems(s);
      asleep, n, ready, steps := false, 0, [], [] + [CallDequeue(s)];
      while n == 0 && !asleep
        invariant Valid() && SameTables() && ValidRun(v, steps) && View() == After(v, steps) && Reachable(View())
        invariant n == 0 && !asleep ==> View() == At(v, s, Checking)
        invariant n != 0 || asleep ==> Answered(v, View(), s, asleep, n, ready)
        decreases n == 0 && !asleep
      {
        ghost var more;
        asleep, n, ready, more := DequeueRound(s, View());
        RunConcat(v, steps, more);
        steps := steps + more;
        ReachableRun(v, steps);
        AnswersAtOnce(v, s, View(), asleep, n, ready);
      }
    }

    /** wait_event_interruptible returns because of a signal; nobody looks at its result. */
    method Interrupt(s: Tid)
      requires Valid() && Enabled(View(), Signal(s))
      modifies workers.Values, lists.Values, scheds.Values
      ensures Valid() && SameTables() && View() == Apply(old(View()), Signal(s))
    {
      MoveTo(s, Entering);
    }

    /** A sleeper of DEQUEUECOMPLLIST that a signal interrupts scans at once, whatever its condition says. */
    method InterruptedRound(s: Tid, ghost v: State) returns (n: int, ready: seq<Tid>, ghost steps: seq<Step>)
      requires Valid() && View() == v && Reachable(v) && Guard(v, Signal(s))
      modifies workers.Values, lists.Values, scheds.Values
      ensures Valid() && SameTables()
      ensures ValidRun(v, steps) && View() == After(v, steps)
      ensures ScanReports(v, View(), s, n, ready)
    {
      hide View, Valid, Apply, Enabled, Reachable, Guard, ScanReports;
      assert ValidRun(v, []) && After(v, []) == v;
      Extend(v, [], Signal(s));
      InterruptedAt(v, s);
      Interrupt(s);
      steps := [] + [Signal(s)];
      ReachableRun(v, steps);
      ghost var more;
      n, ready, more := GetWtReadyQueue(s);
      RunConcat(v, steps, more);
      steps := steps + more;
      ReportsFromHere(v, View(), s, n, ready);
    }

    // ---- sub-steps of EXECUTEUMSTHREAD ----

    /** Both records to running, and wake_up_worker. */
    method StartWorker(s: Tid, i: nat)
      requires Valid() && Enabled(View(), Execute(s, i))
      modifies workers.Values, lists.Values, scheds.Values
      ensures Valid() && SameTables() && View() == Apply(old(View()), Execute(s, i))
    {
      ExecuteAsUpdates(View(), s, i);
      var batch := PositionOf(s).batch;
      hide View, Valid, Apply, Enabled, Listed, Enlisted, Idled, Ended, LockedBy, Placed, Bumped, Started, Busied, Timed, Rested, StepOn;
      SchedRuns(s, batch[i]);
      WorkerRuns(batch[i], s);
      MoveTo(s, Exec(batch[i], Without(batch, i), Waiting));
    }

    /** The condition of wait_worker_thread. */
    method WaitForWorker(s: Tid)
      requires Valid() && Enabled(View(), WaitCheck(s))
      modifies workers.Values, lists.Values, scheds.Values
      ensures Valid() && SameTables() && View() == Apply(old(View()), WaitCheck(s))
    {
      var pc := PositionOf(s);
      MoveTo(s, Exec(pc.t, pc.batch, if StateOf(pc.t) == Running then Asleep else Timing));
    }

    /** update_time_measured and set_kst_in_idle_state. */
    method MeasureSlice(s: Tid)
      requires Valid() && Enabled(View(), UpdateTime(s))
      modifies workers.Values, lists.Values, scheds.Values
      ensures Valid() && SameTables() && View() == Apply(old(View()), UpdateTime(s))
    {
      UpdateTimeAsUpdates(View(), s);
      var pc := PositionOf(s);
      var next := if StateOf(pc.t) == Idle then Inc(0) else Wake(0);
      hide View, Valid, Apply, Enabled, Listed, Enlisted, Idled, Ended, LockedBy, Placed, Bumped, Started, Busied, Timed, Rested, StepOn, SliceOf;
      var slice := Measure(pc.t);
      SchedIdles(s, slice);
      MoveTo(s, Exec(pc.t, pc.batch, next));
    }

    method IncrementOne(s: Tid)
      requires Valid() && Enabled(View(), IncOne(s))
      modifies workers.Values, lists.Values, scheds.Values
      ensures Valid() && SameTables() && View() == Apply(old(View()), IncOne(s))
    {
      IncOneAsUpdates(View(), s);
      var pc := PositionOf(s);
      var c := ClidsOf(pc.t)[pc.ph.k];
      hide View, Valid, Apply, Enabled, Listed, Enlisted, Idled, Ended, LockedBy, Placed, Bumped, Started, Busied, Timed, Rested, StepOn;
      Bump(c, 1);
      MoveTo(s, StepOn(pc));
    }

    method IncrementDone(s: Tid)
      requires Valid() && Enabled(View(), IncDone(s))
      modifies workers.Values, lists.Values, scheds.Values
      ensures Valid() && SameTables() && View() == Apply(old(View()), IncDone(s))
    {
      var pc := PositionOf(s);
      MoveTo(s, pc.(ph := Wake(0)));
    }

    /** wake_up_interruptible_all on list l: every thread asleep there re-evaluates its condition. */
    method WakeAll(l: Clid)
      requires Valid()
      modifies workers.Values, lists.Values, scheds.Values
      ensures Valid() && SameTables()
      ensures View() == old(View()).(scheds := WakeList(old(View()).scheds, l))
    {
      ghost var v := View();
      var todo := SchedIds();
      hide View, Valid, WakeList, WokenBut, Placed;
      WokenButAll(v.scheds, l);
      while todo != {}
        invariant Valid() && SameTables() && todo <= v.scheds.Keys
        invariant View() == v.(scheds := WokenBut(v.scheds, l, todo))
        decreases |todo|
      {
        var x :| x in todo;
        WokenButOne(v.scheds, l, todo, x);
        if WaitsOn(x, l) {
          WakeScheduler(x);
        }
        todo := todo - {x};
      }
      WokenButNone(v.scheds, l);
    }

    /** Thread x is on the wait queue of list l. */
    function WaitsOn(x: Tid, l: Clid): (r: bool)
      requires x in View().scheds
      reads this, workers.Values, lists.Values, scheds.Values
      ensures r <==> View().scheds[x].clid == l && View().scheds[x].pc.Sleeping?
    {
      scheds[x].clid == l && scheds[x].pc.Sleeping?
    }

    method WakeListed(s: Tid)
      requires Valid() && Enabled(View(), WakeOne(s))
      modifies workers.Values, lists.Values, scheds.Values
      ensures Valid() && SameTables() && View() == Apply(old(View()), WakeOne(s))
    {
      WakeOneAsUpdates(View(), s);
      var pc := PositionOf(s);
      var l := ClidsOf(pc.t)[pc.ph.k];
      hide View, Valid, Apply, Enabled, Placed, StepOn, WakeList;
      WakeAll(l);
      MoveTo(s, StepOn(pc));
    }

    method ReleaseWorker(s: Tid)
      requires Valid() && Enabled(View(), Unlock(s))
      modifies workers.Values, lists.Values, scheds.Values
      ensures Valid() && SameTables() && View() == Apply(old(View()), Unlock(s))
    {
      UnlockAsUpdates(View(), s);
      var pc := PositionOf(s);
      hide View, Valid, Apply, Enabled, Listed, Enlisted, Idled, Ended, LockedBy, Placed, Bumped, Started, Busied, Timed, Rested, StepOn;
      MutexUnlock(pc.t);
      MoveTo(s, InUser(pc.batch));
    }

    /** for_each_inc_kcl_threads_ready for the worker s has in hand, without interference. */
    method ForEachIncThreadsReady(s: Tid, ghost u: State) returns (ghost steps: seq<Step>)
      requires Valid() && View() == u && Reachable(u) && InPhase(u, s) && u.scheds[s].pc.ph == Inc(0)
      modifies workers.Values, lists.Values, scheds.Values
      ensures Valid() && SameTables()
      ensures ValidRun(u, steps) && View() == After(u, steps) == IncAt(u, s, |ExecClids(u, s)|)
    {
      hide View, Valid, Apply, Enabled, Reachable, IncAt, InPhase, ExecClids, Guard, Resolves;
      IncStarts(u, s);
      InHand(u, s);
      var n := |ClidsOf(PositionOf(s).t)|;
      var i := 0;
      steps := [];
      while i < n
        invariant 0 <= i <= n && Valid() && SameTables()
        invariant ValidRun(u, steps) && View() == After(u, steps) == IncAt(u, s, i)
      {
        IncPosition(u, s, i);
        Extend(u, steps, IncOne(s));
        IncGoesOn(u, s, i);
        IncrementOne(s);
        steps := steps + [IncOne(s)];
        i := i + 1;
      }
    }

    /** wake_up_schedulers for the worker s has in hand, without interference. */
    method WakeUpSchedulers(s: Tid, ghost u: State) returns (ghost steps: seq<Step>)
      requires Valid() && View() == u && Reachable(u) && InPhase(u, s) && u.scheds[s].pc.ph == Wake(0)
      modifies workers.Values, lists.Values, scheds.Values
      ensures Valid() && SameTables()
      ensures ValidRun(u, steps) && View() == After(u, steps) == WakeAt(u, s, |ExecClids(u, s)|)
    {
      hide View, Valid, Apply, Enabled, Reachable, WakeAt, InPhase, ExecClids, Guard, Resolves;
      WakeStarts(u, s);
      InHand(u, s);
      var n := |ClidsOf(PositionOf(s).t)|;
      var i := 0;
      steps := [];
      while i < n
        invariant 0 <= i <= n && Valid() && SameTables()
        invariant ValidRun(u, steps) && View() == After(u, steps) == WakeAt(u, s, i)
      {
        WakePosition(u, s, i);
        Extend(u, steps, WakeOne(s));
        WakeGoesOn(u, s, i);
        WakeListed(s);
        steps := steps + [WakeOne(s)];
        i := i + 1;
      }
    }

    /** The slice is measured and, if the worker only yielded, its lists count it as ready again. */
    method StopAndRefill(s: Tid, ghost v: State) returns (ghost steps: seq<Step>)
      requires Valid() && View() == v && Reachable(v) && Guard(v, WaitCheck(s))
      requires InPhase(v, s) && v.workers[v.scheds[s].pc.t].state != Running
      modifies workers.Values, lists.Values, scheds.Values
      ensures Valid() && SameTables()
      ensures ValidRun(v, steps) && View() == After(v, steps) == Refilled(v, s)
    {
      hide View, Valid, Apply, Enabled, Reachable, InPhase, IncAt, ExecClids, Stopped, Refilled;
      assert ValidRun(v, []) && After(v, []) == v;
      InHand(v, s);
      var idle := StateOf(PositionOf(s).t) == Idle;
      TimingIsDue(v, s);
      Extend(v, [], WaitCheck(s));
      WaitForWorker(s);
      Extend(v, [] + [WaitCheck(s)], UpdateTime(s));
      MeasureSlice(s);
      steps := [] + [WaitCheck(s)] + [UpdateTime(s)];
      if idle {
        ghost var u := View();
        ghost var more := ForEachIncThreadsReady(s, u);
        RunConcat(v, steps, more);
        steps := steps + more;
        IncDoneIsDue(u, s);
        Extend(v, steps, IncDone(s));
        RefilledIsDone(v, s);
        IncrementDone(s);
        steps := steps + [IncDone(s)];
      } else {
        RefilledAlready(v, s);
      }
    }

    /** EXECUTEUMSTHREAD from the moment the worker has stopped to the return to user space, without interference. */
    method FinishExecute(s: Tid) returns (ghost steps: seq<Step>)
      requires Valid() && Reachable(View()) && Guard(View(), WaitCheck(s))
      requires View().workers[View().scheds[s].pc.t].state != Running
      modifies workers.Values, lists.Values, scheds.Values
      ensures Valid() && SameTables()
      ensures ValidRun(old(View()), steps) && View() == After(old(View()), steps)
      ensures InPhase(old(View()), s) && View() == TailDone(old(View()), s)
    {
      hide View, Valid, Apply, Enabled, Reachable, InPhase, WakeAt, TailDone, ExecClids, Refilled;
      ghost var v := View();
      TimingIsDue(v, s);
      steps := StopAndRefill(s, v);
      RefilledWakes(v, s);
      ReachableRun(v, steps);
      ghost var more := WakeUpSchedulers(s, View());
      RunConcat(v, steps, more);
      steps := steps + more;
      WakeEnds(v, s);
      Extend(v, steps, Unlock(s));
      ReleaseWorker(s);
      steps := steps + [Unlock(s)];
    }
  }

  /** What a scan of s without interference answers, and what it leaves behind. */
  ghost predicate ScanReports(v: State, w: State, s: Tid, n: int, ready: seq<Tid>)
    requires s in v.scheds
  {
    && v.scheds[s].clid in v.lists
    && if v.lists[v.scheds[s].clid].nthreads == 0 then n == -1 && ready == [] && w == At(v, s, Leaving)
       else
         && n == |ready| && Known(v.workers, ready)
         && ScanSoFar(v, s, ready, multiset{})
         && w == ScanAt(v, s, ready, if ready == [] then Checking else InUser(ready))
  }

  lemma NoneReported(v: State, s: Tid)
    requires Enabled(v, BeginScan(s)) && v.lists[v.scheds[s].clid].nthreads == 0
    ensures ScanReports(v, Apply(v, BeginScan(s)), s, -1, [])
  {}

  lemma SomeReported(v: State, s: Tid, ready: seq<Tid>)
    requires s in v.scheds && v.scheds[s].clid in v.lists && v.lists[v.scheds[s].clid].nthreads != 0
    requires Known(v.workers, ready) && ScanSoFar(v, s, ready, multiset{})
    ensures ScanReports(v, ScanAt(v, s, ready, if ready == [] then Checking else InUser(ready)), s, |ready|, ready)
  {}

  /** The wait_event condition of s holds. */
  predicate HasAnswer(v: State, s: Tid)
    requires s in v.scheds
  {
    v.scheds[s].clid in v.lists && (v.lists[v.scheds[s].clid].ready > 0 || v.lists[v.scheds[s].clid].nthreads == 0)
  }

  /** Where a round of s that began in v ends. */
  ghost predicate RoundEnds(v: State, w: State, s: Tid, asleep: bool, n: int, ready: seq<Tid>)
    requires s in v.scheds
  {
    && asleep == !HasAnswer(v, s)
    && if asleep then n == 0 && ready == [] && w == At(v, s, Sleeping) else ScanReports(At(v, s, Entering), w, s, n, ready)
  }

  /** Asleep if the condition is false; -1 from a list without live workers; otherwise a batch of at least one. */
  ghost predicate Answered(v: State, w: State, s: Tid, asleep: bool, n: int, ready: seq<Tid>)
    requires s in v.scheds
  {
    && v.scheds[s].clid in v.lists
    && asleep == !HasAnswer(v, s)
    && if asleep then n == 0 && ready == [] && w == At(v, s, Sleeping)
       else if v.lists[v.scheds[s].clid].nthreads == 0 then n == -1 && ready == [] && w == At(v, s, Leaving)
       else
         && n == |ready| >= 1 && Known(v.workers, ready)
         && ScanSoFar(v, s, ready, multiset{})
         && w == ScanAt(v, s, ready, InUser(ready))
  }

  lemma CallIsDue(v: State, s: Tid)
    requires Guard(v, CallDequeue(s))
    ensures s in v.scheds && Enabled(v, CallDequeue(s)) && Apply(v, CallDequeue(s)) == At(v, s, Checking)
    ensures Guard(At(v, s, Checking), CheckReady(s))
  {}

  lemma RoundBegins(v: State, s: Tid)
    requires Enabled(v, CheckReady(s))
    ensures s in v.scheds && v.scheds[s].clid in v.lists
    ensures Apply(v, CheckReady(s)) == At(v, s, if HasAnswer(v, s) then Entering else Sleeping)
    ensures s in Apply(v, CheckReady(s)).scheds
    ensures Apply(v, CheckReady(s)).scheds[s].pc.Sleeping? <==> !HasAnswer(v, s)
    ensures HasAnswer(v, s) ==> Guard(Apply(v, CheckReady(s)), BeginScan(s))
  {}

  lemma RoundIs(v: State, w: State, s: Tid, asleep: bool, n: int, ready: seq<Tid>)
    requires s in v.scheds && asleep == !HasAnswer(v, s)
    requires asleep ==> n == 0 && ready == [] && w == At(v, s, Sleeping)
    requires !asleep ==> ScanReports(At(v, s, Entering), w, s, n, ready)
    ensures RoundEnds(v, w, s, asleep, n, ready)
  {}

  /** An empty answer means that there was nobody to take. */
  lemma EmptyRoundIff(v: State, w: State, s: Tid, asleep: bool, n: int, ready: seq<Tid>)
    requires Reachable(v) && s in v.scheds && v.scheds[s].clid in v.lists && RoundEnds(v, w, s, asleep, n, ready)
    ensures !asleep && n == 0 <==>
      HasAnswer(v, s) && v.lists[v.scheds[s].clid].nthreads != 0 && forall t :: !Takeable(v, s, t)
  {
    hide Reachable, Locked, Dropped;
    RoomForOne(v);
    if !asleep && v.lists[v.scheds[s].clid].nthreads != 0 {
      SoFarHere(v, s, ready);
      if ready != [] { assert ready[0] in ready && Takeable(v, s, ready[0]); }
    }
  }

  /** While Settled, a positive threads_ready means an unlocked worker. */
  lemma SomebodyUnlocked(v: State, l: Clid)
    requires Reachable(v) && Settled(v) && l in v.lists && v.lists[l].ready > 0
    ensures exists t :: t in v.workers && v.workers[t].lock == FREE && LiveCount(v, l, t) > 0
  {
    hide Reachable;
    ReadyBetweenHandlers(v, l);
    var m := UnlockedMap(v, l);
    if forall t :: t in m ==> m[t] <= 0 {
      var zero := map t | t in m :: 0;
      TotalBound(m, zero);
      ZeroTotal(zero);
      assert false;
    }
    var t :| t in m && m[t] > 0;
  }

  lemma {:induction false} ZeroTotal(m: map<Tid, int>)
    requires forall t :: t in m ==> m[t] == 0
    ensures Total(m) == 0
    decreases |m|
  {
    if m.Keys != {} {
      var t :| t in m;
      TotalRemove(m, t);
      ZeroTotal(m - {t});
    }
  }

  lemma UnlockedTakeable(v: State, s: Tid, t: Tid)
    requires Reachable(v) && s in v.scheds && v.scheds[s].clid in v.lists
    requires t in v.workers && v.workers[t].lock == FREE && LiveCount(v, v.scheds[s].clid, t) > 0
    ensures Takeable(v, s, t)
  {
    hide Reachable;
    CrossIndex(v, t, v.scheds[s].clid);
    WorkerFact(v, t);
  }

  lemma ReadyIsNotEmpty(v: State, s: Tid, ready: seq<Tid>)
    requires Reachable(v) && Settled(v) && s in v.scheds && HasAnswer(v, s)
    requires v.lists[v.scheds[s].clid].nthreads != 0 && ScanSoFar(v, s, ready, multiset{})
    ensures ready != []
  {
    hide Reachable, Settled, Takeable, LiveCount;
    RoomForOne(v);
    SomebodyUnlocked(v, v.scheds[s].clid);
    var t :| t in v.workers && v.workers[t].lock == FREE && LiveCount(v, v.scheds[s].clid, t) > 0;
    UnlockedTakeable(v, s, t);
  }

  lemma SoFarHere(v: State, s: Tid, ready: seq<Tid>)
    requires s in v.scheds && v.scheds[s].clid in v.lists && ScanSoFar(At(v, s, Entering), s, ready, multiset{})
    ensures ScanSoFar(v, s, ready, multiset{})
  {
    assert forall t :: Takeable(v, s, t) <==> Takeable(At(v, s, Entering), s, t);
  }

  lemma AnswersAtOnce(v: State, s: Tid, w: State, asleep: bool, n: int, ready: seq<Tid>)
    requires Reachable(v) && Settled(v) && Guard(v, CallDequeue(s))
    requires RoundEnds(At(v, s, Checking), w, s, asleep, n, ready)
    ensures (n != 0 || asleep) && Answered(v, w, s, asleep, n, ready)
  {
    hide Reachable, Settled, ScanSoFar, Locked, Dropped;
    OwnList(v, s);
    SamePlace(v, s);
    if !asleep && v.lists[v.scheds[s].clid].nthreads != 0 {
      SoFarHere(v, s, ready);
      ReadyIsNotEmpty(v, s, ready);
      ScanFromHere(v, s, ready, InUser(ready));
    }
  }

  lemma SamePlace(v: State, s: Tid)
    requires s in v.scheds
    ensures var u := At(v, s, Checking);
      HasAnswer(u, s) == HasAnswer(v, s) && At(u, s, Entering) == At(v, s, Entering) && At(u, s, Sleeping) == At(v, s, Sleeping)
  {}

  lemma ScanFromHere(v: State, s: Tid, got: seq<Tid>, pc: PC)
    requires s in v.scheds && Known(v.workers, got)
    ensures ScanAt(At(v, s, Entering), s, got, pc) == ScanAt(v, s, got, pc)
  {
    hide Dropped;
  }

  lemma InterruptedAt(v: State, s: Tid)
    requires Enabled(v, Signal(s))
    ensures s in v.scheds && Apply(v, Signal(s)) == At(v, s, Entering) && Guard(At(v, s, Entering), BeginScan(s))
  {}

  lemma ReportsFromHere(v: State, w: State, s: Tid, n: int, ready: seq<Tid>)
    requires s in v.scheds && ScanReports(At(v, s, Entering), w, s, n, ready)
    ensures ScanReports(v, w, s, n, ready)
  {
    hide ScanSoFar, ScanAt;
    if v.lists[v.scheds[s].clid].nthreads != 0 {
      SoFarHere(v, s, ready);
      ScanFromHere(v, s, ready, if ready == [] then Checking else InUser(ready));
    }
  }

  lemma Serves(v: State, s: Tid)
    requires Enabled(v, BeginScan(s))
    ensures s in v.scheds && v.scheds[s].clid in v.lists
  {}

  lemma NoneKnown(workers: map<Tid, Worker>)
    ensures Known(workers, [])
  {}

  lemma ScanNothingYet(v: State, s: Tid)
    requires Enabled(v, BeginScan(s)) && v.maxWt >= 0
    ensures ScanSoFar(v, s, [], v.lists[v.scheds[s].clid].queue)
  {}

  /** The worker s has in hand, and its lists. */
  lemma InHand(v: State, s: Tid)
    requires InPhase(v, s)
    ensures s in v.scheds && v.scheds[s].pc.Exec? && v.scheds[s].pc.t in v.workers
    ensures v.workers[v.scheds[s].pc.t].clids == ExecClids(v, s)
  {}

  lemma TakeFits(v: State, s: Tid, got: seq<Tid>, rest: multiset<Tid>, t: Tid)
    requires s in v.scheds && Known(v.workers, got)
    requires Enabled(ScanAt(v, s, got, Scanning(rest, got)), Visit(s, t))
    requires CanTake(ScanAt(v, s, got, Scanning(rest, got)), s, t)
    ensures |got| < v.maxWt
  {}

  function WithWorker(v: State, t: Tid, w: Worker): State {
    v.(workers := v.workers[t := w])
  }

  function WithList(v: State, l: Clid, q: CList): State {
    v.(lists := v.lists[l := q])
  }

  function WithSched(v: State, s: Tid, x: Sched): State {
    v.(scheds := v.scheds[s := x])
  }

  // ---- steps as updates of single records ----

  lemma FreshListId(v: State)
    requires Reachable(v) && Enabled(v, InitList)
    ensures v.lastId !in v.lists
    ensures Apply(v, InitList) == WithList(v.(lastId := v.lastId + 1), v.lastId, CList(0, 0, multiset{}))
  {
    hide Reachable;
    if v.lastId in v.lists { ListFact(v, v.lastId); }
  }

  lemma CreateAsUpdates(v: State, t: Tid, budget: nat)
    requires Enabled(v, Create(t, budget))
    ensures t !in v.workers
    ensures Apply(v, Create(t, budget)) == WithWorker(v, t, Worker(Idle, 0, 0, 0, [], NO_SCHED, FREE, true, budget, v.now, 0))
  {}

  lemma EnterAsUpdates(v: State, s: Tid, l: Clid)
    requires Enabled(v, Enter(s, l))
    ensures s !in v.scheds
    ensures Apply(v, Enter(s, l)) == WithSched(v, s, Sched(false, 0, -1, 0, l, InUser([]), v.now, v.now, v.now, 0))
  {}

  lemma LeaveAsUpdates(v: State, s: Tid)
    requires Enabled(v, Leave(s))
    ensures var end := Apply(v, Leave(s)); end == v.(scheds := v.scheds - {s}).(ledger := end.ledger)
  {}

  lemma DestroyListAsUpdates(v: State, l: Clid)
    requires Enabled(v, DestroyList(l))
    ensures Apply(v, DestroyList(l)) == v.(lists := v.lists - {l}).(closing := true)
  {}

  lemma DestroyWorkerAsUpdates(v: State, t: Tid)
    requires Enabled(v, DestroyWorker(t))
    ensures var end := Apply(v, DestroyWorker(t)); end == v.(workers := v.workers - {t}).(closing := true).(ledger := end.ledger)
  {}

  lemma YieldAsUpdates(v: State, t: Tid)
    requires Enabled(v, Yield(t))
    ensures t in v.workers && v.workers[t].left > 0 && v.workers[t].currSched in v.scheds
    ensures var s := v.workers[t].currSched;
      Apply(v, Yield(t)) == WithSched(WithWorker(v, t, Idled(v.workers[t])), s, Placed(v.scheds[s], Woken(v.scheds[s].pc)))
  {}

  lemma ExitAsUpdates(v: State, t: Tid)
    requires Enabled(v, Exit(t))
    ensures t in v.workers && v.workers[t].currSched in v.scheds && Ended(v.workers[t]).clids == v.workers[t].clids
    ensures forall c :: c in v.workers[t].clids ==> c in v.lists
    ensures var w, s := v.workers[t], v.workers[t].currSched;
      Apply(v, Exit(t)) ==
        WithSched(WithWorker(v, t, Ended(w)).(lists := ExitLists(v.lists, t, w.clids)), s,
                  Placed(v.scheds[s], Woken(v.scheds[s].pc)))
  {}

  lemma ExitNone(lists: map<Clid, CList>, t: Tid)
    ensures ExitLists(lists, t, []) == lists
  {}

  lemma ExitSnoc(lists: map<Clid, CList>, t: Tid, c: seq<Clid>, i: nat)
    requires i < |c| && c[i] in lists
    ensures c[i] in ExitLists(lists, t, c[..i])
    ensures ExitLists(lists, t, c[..i + 1])
         == ExitLists(lists, t, c[..i])[c[i] := Delisted(ExitLists(lists, t, c[..i])[c[i]], t)]
  {
    assert c[..i + 1] == c[..i] + [c[i]];
    var a, b := ExitLists(lists, t, c[..i + 1]), ExitLists(lists, t, c[..i]);
    assert c[i] !in c[..i] ==> multiset(c[..i])[c[i]] == 0;
    assert a[c[i]] == Delisted(b[c[i]], t);
  }

  lemma DecOneAsUpdates(v: State, s: Tid)
    requires Enabled(v, DecOne(s))
    ensures DecWorker(v, s) && v.scheds[s].pc.k < |DecClids(v, s)| && DecClids(v, s)[v.scheds[s].pc.k] in v.lists
    ensures var x, l := v.scheds[s], DecClids(v, s)[v.scheds[s].pc.k];
      Apply(v, DecOne(s)) == WithSched(WithList(v, l, Bumped(v.lists[l], -1)), s, Placed(x, StepOn(x.pc)))
  {}

  /** How long worker t has been running. */
  function SliceOf(v: State, t: Tid): int
    requires t in v.workers
  {
    v.now - v.workers[t].lastMeasured
  }

  /** The loop at this position after one more iteration. */
  function StepOn(pc: PC): PC {
    match pc
    case Dec(rest, got, k) => Dec(rest, got, k + 1)
    case Exec(t, b, Inc(k)) => Exec(t, b, Inc(k + 1))
    case Exec(t, b, Wake(k)) => Exec(t, b, Wake(k + 1))
    case _ => pc
  }

  lemma ExecuteAsUpdates(v: State, s: Tid, i: nat)
    requires Enabled(v, Execute(s, i))
    ensures s in v.scheds && v.scheds[s].pc.InUser? && i < |v.scheds[s].pc.batch| && v.scheds[s].pc.batch[i] in v.workers
    ensures var x, b := v.scheds[s], v.scheds[s].pc.batch;
      Apply(v, Execute(s, i)) ==
        WithSched(WithWorker(WithSched(v, s, Busied(x, b[i], v.now)), b[i], Started(v.workers[b[i]], s, v.now)), s,
                  Placed(Busied(x, b[i], v.now), Exec(b[i], Without(b, i), Waiting)))
  {}

  lemma UpdateTimeAsUpdates(v: State, s: Tid)
    requires Enabled(v, UpdateTime(s))
    ensures InPhase(v, s)
    ensures var x := v.scheds[s];
      var t := x.pc.t;
      var w := v.workers[t];
      var slice := SliceOf(v, t);
      Apply(v, UpdateTime(s)) ==
        WithSched(WithSched(WithWorker(v, t, Timed(w, v.now)), s, Rested(x, slice, v.now)), s,
                  Placed(Rested(x, slice, v.now), Exec(t, x.pc.batch, if w.state == Idle then Inc(0) else Wake(0))))
  {}

  lemma IncOneAsUpdates(v: State, s: Tid)
    requires Enabled(v, IncOne(s))
    ensures InPhase(v, s) && v.scheds[s].pc.ph.Inc? && v.scheds[s].pc.ph.k < |ExecClids(v, s)|
    ensures ExecClids(v, s)[v.scheds[s].pc.ph.k] in v.lists
    ensures var x, l := v.scheds[s], ExecClids(v, s)[v.scheds[s].pc.ph.k];
      Apply(v, IncOne(s)) == WithSched(WithList(v, l, Bumped(v.lists[l], 1)), s, Placed(x, StepOn(x.pc)))
  {}

  lemma WakeOneAsUpdates(v: State, s: Tid)
    requires Enabled(v, WakeOne(s))
    ensures InPhase(v, s) && v.scheds[s].pc.ph.Wake? && v.scheds[s].pc.ph.k < |ExecClids(v, s)|
    ensures var x, l := v.scheds[s], ExecClids(v, s)[v.scheds[s].pc.ph.k];
      s in WakeList(v.scheds, l) && WakeList(v.scheds, l)[s] == x
      && Apply(v, WakeOne(s)) == WithSched(v.(scheds := WakeList(v.scheds, l)), s, Placed(x, StepOn(x.pc)))
  {}

  lemma UnlockAsUpdates(v: State, s: Tid)
    requires Enabled(v, Unlock(s))
    ensures InPhase(v, s)
    ensures var x, t := v.scheds[s], v.scheds[s].pc.t;
      Apply(v, Unlock(s)) == WithSched(WithWorker(v, t, LockedBy(v.workers[t], FREE)), s, Placed(x, InUser(x.pc.batch)))
  {}

  /** WakeList, done for everybody but todo. */
  function WokenBut(scheds: map<Tid, Sched>, l: Clid, todo: set<Tid>): map<Tid, Sched> {
    map s | s in scheds ::
      if s !in todo && scheds[s].clid == l && scheds[s].pc.Sleeping? then scheds[s].(pc := Checking) else scheds[s]
  }

  lemma WokenButAll(scheds: map<Tid, Sched>, l: Clid)
    ensures WokenBut(scheds, l, scheds.Keys) == scheds
  {}

  lemma WokenButNone(scheds: map<Tid, Sched>, l: Clid)
    ensures WokenBut(scheds, l, {}) == WakeList(scheds, l)
  {}

  lemma WokenButOne(scheds: map<Tid, Sched>, l: Clid, todo: set<Tid>, x: Tid)
    requires x in todo && x in scheds
    ensures x in WokenBut(scheds, l, todo) && WokenBut(scheds, l, todo)[x] == scheds[x]
    ensures WokenBut(scheds, l, todo - {x}) ==
      if scheds[x].clid == l && scheds[x].pc.Sleeping? then WokenBut(scheds, l, todo)[x := Placed(scheds[x], Woken(scheds[x].pc))]
      else WokenBut(scheds, l, todo)
  {}

  lemma SameWorker(v: State, t: Tid)
    requires t in v.workers
    ensures WithWorker(v, t, v.workers[t]) == v
  {
    assert v.workers[t := v.workers[t]] == v.workers;
  }

  lemma VisitAsUpdates(v: State, s: Tid, t: Tid)
    requires Enabled(v, Visit(s, t))
    ensures s in v.scheds && v.scheds[s].pc.Scanning? && v.scheds[s].clid in v.lists
    ensures t in v.lists[v.scheds[s].clid].queue ==> t in v.workers
    ensures CanTake(v, s, t) <==>
      && t in v.lists[v.scheds[s].clid].queue && |v.scheds[s].pc.got| < v.maxWt && v.workers[t].lock == FREE
    ensures CanTake(v, s, t) ==>
      var x, u := v.scheds[s], WithWorker(v, t, LockedBy(v.workers[t], s));
      && u.scheds == v.scheds
      && Apply(v, Visit(s, t)) == WithSched(u, s, Placed(x, Dec(x.pc.rest - multiset{t}, x.pc.got + [t], 0)))
    ensures var x := v.scheds[s];
      !CanTake(v, s, t) ==> Apply(v, Visit(s, t)) == WithSched(v, s, Placed(x, Scanning(x.pc.rest - multiset{t}, x.pc.got)))
  {}

  lemma AddAsUpdates(v: State, t: Tid, l: Clid, late: set<Tid>)
    requires Enabled(v, Add(t, l, late))
    ensures t in v.workers && l in v.lists
    ensures var u := WithList(WithWorker(v, t, Listed(v.workers[t], l)), l, Enlisted(v.lists[l], t));
      u.scheds == v.scheds && Apply(v, Add(t, l, late)) == u.(scheds := LateScans(v.scheds, late, t, l))
  {
    hide LateScans;
  }

  lemma LateNone(scheds: map<Tid, Sched>, late: set<Tid>, todo: set<Tid>, t: Tid, l: Clid)
    requires todo == late * scheds.Keys
    ensures LateScans(scheds, late - todo, t, l) == scheds
  {}

  lemma LateOne(scheds: map<Tid, Sched>, late: set<Tid>, todo: set<Tid>, x: Tid, t: Tid, l: Clid)
    requires x in todo && todo <= scheds.Keys && todo <= late
    ensures x in LateScans(scheds, late - todo, t, l) && LateScans(scheds, late - todo, t, l)[x] == scheds[x]
    ensures LateScans(scheds, late - (todo - {x}), t, l) ==
      LateScans(scheds, late - todo, t, l)[x := Placed(scheds[x], SeenBy(scheds[x].pc, scheds[x].clid, t, l))]
  {}
}
