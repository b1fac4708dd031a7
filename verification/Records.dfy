/** The kernel records as objects, with the macros that update them in place. */
module Records {
  import opened Protocol
  import Buckets

  // ---- what the macros make of a record ----

  function Listed(w: Worker, l: Clid): Worker { w.(clids := [l] + w.clids) }

  function Started(w: Worker, s: Tid, now: int): Worker {
    w.(state := Running, lastMeasured := now, currSched := s, asleep := false, execs := w.execs + 1)
  }

  function Idled(w: Worker): Worker
    requires w.left > 0
  {
    w.(nswitches := w.nswitches + 1, state := Idle, currSched := NO_SCHED, asleep := true, left := w.left - 1)
  }

  function Ended(w: Worker): Worker { w.(state := Exiting, currSched := NO_SCHED) }

  function Timed(w: Worker, now: int): Worker {
    w.(totalMeasured := w.totalMeasured + (now - w.lastMeasured), lastMeasured := now)
  }

  function LockedBy(w: Worker, s: int): Worker { w.(lock := s) }

  /** A list after one add_worker_thread of t. */
  function Enlisted(q: CList, t: Tid): CList {
    CList(q.ready + 1, q.nthreads + 1, q.queue + multiset{t})
  }

  /** A list after one visit of t's exit loop. */
  function Delisted(q: CList, t: Tid): CList {
    CList(q.ready, q.nthreads - 1, q.queue[t := 0])
  }

  function Bumped(q: CList, d: int): CList { q.(ready := q.ready + d) }

  function Busied(x: Sched, t: Tid, now: int): Sched {
    x.(nswitches := x.nswitches + 1, wtRunning := t, running := true, sliceStart := now)
  }

  function Rested(x: Sched, slice: int, now: int): Sched {
    x.(elapsed := slice, running := false, sliceEnd := now, sliceSum := x.sliceSum + (now - x.sliceStart))
  }

  function Placed(x: Sched, pc: PC): Sched { x.(pc := pc) }

  /** kworker_thread, together with the state of the thread it describes. */
  class KWorkerThread {
    const tid: Tid
    var state: WorkerState
    var nswitches: nat
    var lastMeasured: int
    var totalMeasured: int
    var clidList: seq<Clid>
    var currSchedTid: int
    var mutex: int
    var asleep: bool
    var left: nat
    ghost const born: int
    ghost var execs: nat

    ghost function View(): Worker
      reads this
    {
      Worker(state, nswitches, lastMeasured, totalMeasured, clidList, currSchedTid, mutex, asleep, left, born, execs)
    }

    /** create_worker_thread, after which the new thread goes to sleep. */
    constructor (tid: Tid, budget: nat, ghost now: int)
      ensures this.tid == tid
      ensures View() == Worker(Idle, 0, 0, 0, [], NO_SCHED, FREE, true, budget, now, 0)
    {
      this.tid := tid;
      state, nswitches := Idle, 0;
      lastMeasured, totalMeasured := 0, 0;
      clidList := [];
      currSchedTid, mutex := NO_SCHED, FREE;
      asleep, left := true, budget;
      born, execs := now, 0;
    }

    /** set_kwt_in_running_state and wake_up_worker. */
    method SetRunning(sched: Tid, now: int)
      modifies this
      ensures View() == Started(old(View()), sched, now)
    {
      state := Running;
      lastMeasured := now;
      currSchedTid := sched;
      asleep := false;
      execs := execs + 1;
    }

    /** set_kwt_in_idle_state, and the thread going to sleep at the end of the yield. */
    method SetIdle()
      requires left > 0
      modifies this
      ensures View() == Idled(old(View()))
    {
      nswitches := nswitches + 1;
      state := Idle;
      currSchedTid := NO_SCHED;
      left := left - 1;
      asleep := true;
    }

    method SetExiting()
      modifies this
      ensures View() == Ended(old(View()))
    {
      state := Exiting;
      currSchedTid := NO_SCHED;
    }

    /** update_time_measured. */
    method UpdateTimeMeasured(now: int) returns (elapsed: int)
      modifies this
      ensures elapsed == now - old(lastMeasured)
      ensures View() == Timed(old(View()), now)
    {
      elapsed := now - lastMeasured;
      totalMeasured := totalMeasured + elapsed;
      lastMeasured := now;
    }

    /** mutex_trylock by thread s: it fails, and changes nothing, if anybody holds the mutex. */
    method TryLock(s: Tid) returns (ok: bool)
      modifies this
      ensures ok <==> old(mutex) == FREE
      ensures View() == if ok then LockedBy(old(View()), s) else old(View())
    {
      ok := mutex == FREE;
      if ok { mutex := s; }
    }

    method Unlock()
      modifies this
      ensures View() == LockedBy(old(View()), FREE)
    {
      mutex := FREE;
    }

    /** worker_thread_add_clid: list_add puts the new element first. */
    method AddClid(l: Clid)
      modifies this
      ensures View() == Listed(old(View()), l)
    {
      clidList := [l] + clidList;
    }
  }

  /** kcompletion_list, with its queue in hash buckets. */
  class KCompletionList {
    const id: Clid
    const hash: Buckets.Hash
    var threadsReady: int
    var nthreads: int
    var queue: Buckets.Table<()>

    ghost predicate Valid()
      reads this
    {
      Buckets.Filed(queue, hash)
    }

    ghost function View(): CList
      reads this
    {
      CList(threadsReady, nthreads, Buckets.Keys(queue))
    }

    constructor (id: Clid, hash: Buckets.Hash, size: nat)
      requires size >= 1
      ensures Valid() && this.id == id && View() == CList(0, 0, multiset{})
    {
      this.id, this.hash := id, hash;
      threadsReady, nthreads := 0, 0;
      var empty: Buckets.Table<()> := seq(size, _ => []);
      queue := empty;
      Buckets.NoKeys(empty);
    }

    /** add_worker_thread. */
    method AddWorker(t: Tid)
      requires Valid()
      modifies this
      ensures Valid() && View() == Enlisted(old(View()), t)
    {
      Buckets.InsertAdds(queue, hash, t, ());
      queue := Buckets.Inserted(queue, hash, t, ());
      threadsReady := threadsReady + 1;
      nthreads := nthreads + 1;
    }

    /** One visit of the exit loop: every element of t goes (Buckets.HashTable.Purge is the walk), nthreads falls by one. */
    method RemoveWorker(t: Tid)
      requires Valid()
      modifies this
      ensures Valid() && View() == Delisted(old(View()), t)
    {
      Buckets.PurgeEmpties(queue, hash, t);
      queue := Buckets.Purged(queue, hash, t);
      nthreads := nthreads - 1;
    }

    method Bump(d: int)
      modifies this
      ensures (Valid() <==> old(Valid())) && View() == Bumped(old(View()), d)
    {
      threadsReady := threadsReady + d;
    }
  }

  /** ksched_thread, together with the position of the thread it describes. */
  class KSchedThread {
    const tid: Tid
    var running: bool
    var nswitches: nat
    var wtRunning: int
    var elapsedWtRunning: int
    const clid: Clid
    var pc: PC
    ghost const entered: int
    ghost var sliceStart: int
    ghost var sliceEnd: int
    ghost var sliceSum: int

    ghost function View(): Sched
      reads this
    {
      Sched(running, nswitches, wtRunning, elapsedWtRunning, clid, pc, entered, sliceStart, sliceEnd, sliceSum)
    }

    /** create_sched_thread. */
    constructor (tid: Tid, clid: Clid, ghost now: int)
      ensures this.tid == tid && View() == Sched(false, 0, -1, 0, clid, InUser([]), now, now, now, 0)
    {
      this.tid := tid;
      running, nswitches := false, 0;
      wtRunning, elapsedWtRunning := -1, 0;
      this.clid := clid;
      pc := InUser([]);
      entered, sliceStart, sliceEnd, sliceSum := now, now, now, 0;
    }

    /** set_kst_in_running_state. */
    method SetRunning(t: Tid, ghost now: int)
      modifies this
      ensures View() == Busied(old(View()), t, now)
    {
      sliceStart := now;
      nswitches := nswitches + 1;
      wtRunning := t;
      running := true;
    }

    /** set_kst_in_idle_state. */
    method SetIdle(elapsed: int, ghost now: int)
      modifies this
      ensures View() == Rested(old(View()), elapsed, now)
    {
      elapsedWtRunning := elapsed;
      running := false;
      sliceEnd := now;
      sliceSum := sliceSum + (now - sliceStart);
    }

    method MoveTo(next: PC)
      modifies this
      ensures View() == Placed(old(View()), next)
    {
      pc := next;
    }

    /** wake_up_process. */
    method Wake()
      modifies this
      ensures View() == Placed(old(View()), Woken(old(pc)))
    {
      pc := Woken(pc);
    }
  }
}
