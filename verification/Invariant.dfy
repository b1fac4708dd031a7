/** The inductive invariant of the protocol, one predicate per kind of record. */
module Invariant {
  import opened Totals
  import opened Protocol

  /** The workers whose mutex a scheduler at this position holds. */
  function Held(pc: PC): seq<Tid> {
    match pc
    case InUser(b) => b
    case Scanning(_, got) => got
    case Dec(_, got, _) => got
    case Exec(t, b, _) => [t] + b
    case _ => []
  }

  /** Held, without the one in execution. */
  function Pending(pc: PC): seq<Tid> {
    if pc.Exec? then pc.batch else Held(pc)
  }

  predicate Distinct(s: seq<Tid>) {
    forall i, j :: 0 <= i < j < |s| ==> s[i] != s[j]
  }

  predicate Measuring(pc: PC) {
    pc.Exec? && (pc.ph.Waiting? || pc.ph.Asleep? || pc.ph.Timing?)
  }

  predicate Awaiting(pc: PC, t: Tid) {
    pc.Exec? && pc.t == t && (pc.ph.Waiting? || pc.ph.Asleep?)
  }

  /** What the position of scheduler s says about the worker in hand. */
  predicate PhaseOk(st: State, s: Tid, pc: PC) {
    match pc
    case Dec(_, got, k) =>
      got != [] && got[|got| - 1] in st.workers && k <= |st.workers[got[|got| - 1]].clids|
    case Exec(t, _, ph) =>
      t in st.workers && var w := st.workers[t];
      (match ph
       case Waiting => w.state == Running ==> w.currSched == s
       case Asleep => w.state == Running && w.currSched == s
       case Timing => w.state != Running
       case Inc(k) => w.state == Idle && k <= |w.clids|
       case Wake(k) => w.state != Running && k <= |w.clids|)
    case _ => true
  }

  predicate SchedOk(st: State, s: Tid)
    requires s in st.scheds
  {
    var x := st.scheds[s];
    && x.clid in st.lists
    && Distinct(Held(x.pc))
    && |Pending(x.pc)| <= st.maxWt
    && (forall t :: t in Held(x.pc) ==> t in st.workers && st.workers[t].lock == s && x.clid in st.workers[t].clids)
    && (forall t :: t in Pending(x.pc) ==> t in st.workers && st.workers[t].state == Idle)
    && PhaseOk(st, s, x.pc)
    && x.running == Measuring(x.pc)
    && (x.running ==> x.wtRunning == x.pc.t)
  }

  predicate WorkerOk(st: State, t: Tid)
    requires t in st.workers
  {
    var w := st.workers[t];
    && (w.lock == FREE || (w.lock in st.scheds && t in Held(st.scheds[w.lock].pc)))
    && (w.state == Running <==> w.currSched != NO_SCHED)
    && (w.state == Running ==> w.lock == w.currSched && w.lock in st.scheds && Awaiting(st.scheds[w.lock].pc, t))
    && (w.state == Exiting ==> w.lock != FREE ==> st.scheds[w.lock].pc.Exec? && st.scheds[w.lock].pc.t == t)
    && (w.state == Exiting ==> w.left == 0)
    && (w.asleep <==> w.state == Idle)
    && (!st.closing ==> forall c :: c in w.clids ==> c in st.lists)
  }

  /** How often worker t can still be met on list l. */
  function LiveCount(st: State, l: Clid, t: Tid): nat {
    if t in st.workers && st.workers[t].state != Exiting then multiset(st.workers[t].clids)[l] else 0
  }

  /** The occurrences of a held worker that are up while its holder is at pc. */
  function UpIn(w: Worker, t: Tid, pc: PC): seq<Clid> {
    match pc
    case Dec(_, got, k) =>
      if got != [] && got[|got| - 1] == t && k <= |w.clids| then w.clids[k..] else []
    case Exec(t', _, ph) =>
      if t' != t then []
      else
        (match ph
         case Inc(k) => if k <= |w.clids| then w.clids[..k] else []
         case Wake(_) => w.clids
         case _ => [])
    case _ => []
  }

  /**
   The clid_list entries of worker t that threads_ready counts: all of them while t is unlocked; those
   not yet decremented in a dequeue; those already incremented again in an execute.
   */
  function Up(w: Worker, t: Tid, scheds: map<Tid, Sched>): seq<Clid> {
    if w.state == Exiting then []
    else if w.lock in scheds then UpIn(w, t, scheds[w.lock].pc)
    else w.clids
  }

  ghost function UpMap(st: State, l: Clid): map<Tid, int> {
    map t | t in st.workers :: multiset(Up(st.workers[t], t, st.scheds))[l]
  }

  ghost predicate ReadyOk(st: State, l: Clid)
    requires l in st.lists
  {
    st.lists[l].ready == Total(UpMap(st, l))
  }

  predicate QueueOk(st: State, l: Clid, t: Tid)
    requires l in st.lists
  {
    st.lists[l].queue[t] == LiveCount(st, l, t)
  }

  ghost predicate ListOk(st: State, l: Clid)
    requires l in st.lists
  {
    && (forall t: Tid :: QueueOk(st, l, t))
    && st.lists[l].nthreads == |st.lists[l].queue|
    && l < st.lastId
  }

  /** Scheduler at pc holds t and has not yet passed l in t's wake loop. */
  predicate Owes(pc: PC, t: Tid, clids: seq<Clid>, l: Clid) {
    && t in Held(pc) && l in clids
    && (pc.Exec? && pc.t == t && pc.ph.Wake? ==> pc.ph.k <= |clids| && l in clids[pc.ph.k..])
  }

  /** Worker t guarantees a wake on l: its holder will call wake_up on l before it lets go of t. */
  predicate Guards(st: State, t: Tid, l: Clid) {
    && t in st.workers && st.workers[t].lock in st.scheds
    && Owes(st.scheds[st.workers[t].lock].pc, t, st.workers[t].clids, l)
  }

  ghost predicate SleepOk(st: State, s: Tid)
    requires s in st.scheds
  {
    st.scheds[s].pc.Sleeping? ==> exists t :: Guards(st, t, st.scheds[s].clid)
  }

  ghost predicate AllScheds(st: State) { forall s :: s in st.scheds ==> SchedOk(st, s) }

  ghost predicate AllWorkers(st: State) { forall t :: t in st.workers ==> WorkerOk(st, t) }

  ghost predicate AllLists(st: State) { forall l :: l in st.lists ==> ListOk(st, l) }

  ghost predicate AllReady(st: State) { forall l :: l in st.lists ==> ReadyOk(st, l) }

  ghost predicate AllSleep(st: State) { forall s :: s in st.scheds ==> SleepOk(st, s) }

  ghost predicate Inv(st: State) {
    && st.maxWt >= 1
    && (st.closing ==> st.scheds == map[])
    && AllScheds(st) && AllWorkers(st) && AllLists(st) && AllReady(st) && AllSleep(st)
  }
}
