/**
 Under fair scheduling every scheduler leaves UMS mode, and every worker some scheduler serves exits, however
 often sleeping schedulers are woken for no reason or interrupted.
 */
module Liveness {
  import opened Protocol
  import opened Safety
  import opened Theorems
  import opened Measure
  import opened Progress
  import opened Strays

  // ---- fairness ----

  /** Every scheduler not asleep on a wait queue always has a step to take: fairness asks nothing of a blocked thread. */
  lemma CanAct(st: State, s: Tid)
    requires Reachable(st) && s in st.scheds && !st.scheds[s].pc.Sleeping?
    ensures exists step :: Closed(step) && Enabled(st, step) && Acts(st, step, s)
  {
    hide Reachable, Resolves;
    if Busy(st.scheds[s].pc) {
      var step := BusyWorks(st, s);
    } else {
      var step := RoundGuard(st, s);
      NoDangling(st, step);
    }
  }

  /** No scheduler that is not asleep on a wait queue is passed over forever. */
  ghost predicate Fair(f: nat -> State, g: nat -> Step) {
    forall s: Tid, n: nat :: s in f(n).scheds && !f(n).scheds[s].pc.Sleeping? ==> ActsFrom(f, g, s, n)
  }

  /** No worker that executes user code does so forever: it yields or its routine ends. */
  ghost predicate WorkersFair(f: nat -> State, g: nat -> Step) {
    forall t: Tid, n: nat :: ThreadRuns(f(n), t) ==> StopsFrom(g, t, n)
  }

  ghost predicate StopsFrom(g: nat -> Step, t: Tid, n: nat) {
    exists m: nat :: n <= m && (g(m) == Yield(t) || g(m) == Exit(t))
  }

  ghost predicate ActsFrom(f: nat -> State, g: nat -> Step, s: Tid, n: nat) {
    exists m: nat :: n <= m && s in f(m).scheds && Acts(f(m), g(m), s)
  }

  // ---- a suffix of pauses ----

  /** A pause moves at most one scheduler, which is not busy before or after. */
  lemma PauseKeeps(st: State, step: Step, s: Tid)
    requires Enabled(st, step) && Pauses(st, step) && s in st.scheds
    ensures var st' := Apply(st, step);
      && st'.scheds.Keys == st.scheds.Keys && st'.lists == st.lists
      && st'.scheds[s].clid == st.scheds[s].clid
      && (Acts(st, step, s) ==> !Busy(st.scheds[s].pc) && !Busy(st'.scheds[s].pc))
      && (!Acts(st, step, s) ==> st'.scheds[s] == st.scheds[s])
  {}

  lemma PauseKeepsQuiet(st: State, step: Step)
    requires Enabled(st, step) && Pauses(st, step)
    ensures Quiet(st) ==> Quiet(Apply(st, step))
  {
    var st' := Apply(st, step);
    hide Enabled, Pauses, Busy;
    if Quiet(st) {
      forall s | s in st'.scheds ensures !Busy(st'.scheds[s].pc) {
        PauseKeepsKeys(st, step);
        PauseKeeps(st, step, s);
      }
    }
  }

  lemma PauseKeepsKeys(st: State, step: Step)
    requires Enabled(st, step) && Pauses(st, step)
    ensures Apply(st, step).scheds.Keys == st.scheds.Keys
  {}

  /** What stays of a quiet state during pauses, until s acts. */
  lemma {:induction false} QuietStays(f: nat -> State, g: nat -> Step, n: nat, m: nat, s: Tid)
    requires Endless(f, g) && PausesFrom(f, g, n) && n <= m
    requires Quiet(f(n)) && s in f(n).scheds && f(n).scheds[s].clid in f(n).lists
    requires forall i: nat :: n <= i < m && s in f(i).scheds ==> !Acts(f(i), g(i), s)
    ensures Quiet(f(m)) && s in f(m).scheds && f(m).scheds[s] == f(n).scheds[s] && f(m).lists == f(n).lists
    decreases m - n
  {
    hide Quiet, Acts;
    if n < m {
      QuietStays(f, g, n, m - 1, s);
      PauseKeeps(f(m - 1), g(m - 1), s);
      PauseKeepsQuiet(f(m - 1), g(m - 1));
    }
  }

  /** The first time s acts at or after n. */
  lemma {:induction false} FirstAct(f: nat -> State, g: nat -> Step, n: nat, m: nat, s: Tid) returns (k: nat)
    requires n <= m && s in f(m).scheds && Acts(f(m), g(m), s)
    ensures n <= k && s in f(k).scheds && Acts(f(k), g(k), s)
    ensures forall i: nat :: n <= i < k && s in f(i).scheds ==> !Acts(f(i), g(i), s)
    decreases m - n
  {
    if s in f(n).scheds && Acts(f(n), g(n), s) {
      k := n;
    } else {
      k := FirstAct(f, g, n + 1, m, s);
    }
  }

  /** A fair suffix of pauses cannot keep a scheduler in dequeue rounds: each act of s brings its round nearer to a lock. */
  lemma {:induction false} QuietImpossible(f: nat -> State, g: nat -> Step, n: nat, s: Tid)
    requires Endless(f, g) && Fair(f, g) && PausesFrom(f, g, n) && Reachable(f(0))
    requires Quiet(f(n)) && s in f(n).scheds && f(n).scheds[s].clid in f(n).lists
    ensures false
    decreases RoundLeft(f(n), s)
  {
    hide Reachable, Quiet, Acts, Endless, Fair, PausesFrom, RoundLeft;
    var k := NextAct(f, g, n, s);
    QuietImpossible(f, g, k + 1, s);
  }

  /** The next act of s, and what it leaves. */
  lemma NextAct(f: nat -> State, g: nat -> Step, n: nat, s: Tid) returns (k: nat)
    requires Endless(f, g) && Fair(f, g) && PausesFrom(f, g, n) && Reachable(f(0))
    requires Quiet(f(n)) && s in f(n).scheds && f(n).scheds[s].clid in f(n).lists
    ensures n <= k && PausesFrom(f, g, k + 1)
    ensures Quiet(f(k + 1)) && s in f(k + 1).scheds && f(k + 1).scheds[s].clid in f(k + 1).lists
    ensures RoundLeft(f(k + 1), s) < RoundLeft(f(n), s)
  {
    hide Reachable, Quiet, Acts, Endless, PausesFrom, Fair, RoundLeft, Enabled, Apply, Pauses;
    EndlessReachable(f, g, n);
    QuietAwake(f(n), s);
    var m := SomeAct(f, g, n, s);
    k := FirstAct(f, g, n, m, s);
    QuietStays(f, g, n, k, s);
    EndlessReachable(f, g, k);
    PauseAt(f, g, n, k);
    ActNears(f(k), g(k), s);
    RoundShorter(f(n), f(k), s);
  }

  lemma SomeAct(f: nat -> State, g: nat -> Step, n: nat, s: Tid) returns (m: nat)
    requires Fair(f, g) && s in f(n).scheds && !f(n).scheds[s].pc.Sleeping?
    ensures n <= m && s in f(m).scheds && Acts(f(m), g(m), s)
  {
    hide Acts;
    assert ActsFrom(f, g, s, n);
    m :| n <= m && s in f(m).scheds && Acts(f(m), g(m), s);
  }

  lemma PauseAt(f: nat -> State, g: nat -> Step, n: nat, k: nat)
    requires Endless(f, g) && PausesFrom(f, g, n) && n <= k
    ensures PausesFrom(f, g, k + 1)
    ensures Enabled(f(k), g(k)) && Pauses(f(k), g(k)) && f(k + 1) == Apply(f(k), g(k))
  {
    hide Enabled, Apply, Pauses;
  }

  lemma RoundShorter(a: State, b: State, s: Tid)
    requires s in a.scheds && s in b.scheds && b.scheds[s] == a.scheds[s] && b.lists == a.lists && a.scheds[s].clid in a.lists
    ensures RoundLeft(a, s) == RoundLeft(b, s)
  {}

  lemma ActNears(st: State, step: Step, s: Tid)
    requires Reachable(st) && Quiet(st) && s in st.scheds && st.scheds[s].clid in st.lists
    requires Enabled(st, step) && Pauses(st, step) && Acts(st, step, s)
    ensures Nears(st, s, step)
  {
    hide Reachable, Quiet, Nears;
    PauseNears(st, s, step);
  }

  // ---- a suffix of idle steps ----

  /** No worker executes user code. */
  ghost predicate NobodyRuns(st: State) {
    forall t :: !ThreadRuns(st, t)
  }

  /** A worker that ran in a fair run would stop, which is not an idle step. */
  lemma IdleStopsWorkers(f: nat -> State, g: nat -> Step, n: nat, m: nat)
    requires EndlessOpen(f, g) && WorkersFair(f, g) && IdlesFrom(f, g, n) && n <= m
    ensures NobodyRuns(f(m))
  {
    hide ThreadRuns, EndlessOpen, WorkersFair, IdlesFrom;
    forall t ensures !ThreadRuns(f(m), t) {
      if ThreadRuns(f(m), t) {
        var k := WillStop(f, g, m, t);
        IdleIsNoStop(f, g, n, k, t);
      }
    }
  }

  lemma WillStop(f: nat -> State, g: nat -> Step, m: nat, t: Tid) returns (k: nat)
    requires WorkersFair(f, g) && ThreadRuns(f(m), t)
    ensures m <= k && (g(k) == Yield(t) || g(k) == Exit(t))
  {
    hide ThreadRuns;
    assert StopsFrom(g, t, m);
    k :| m <= k && (g(k) == Yield(t) || g(k) == Exit(t));
  }

  lemma IdleIsNoStop(f: nat -> State, g: nat -> Step, n: nat, k: nat, t: Tid)
    requires EndlessOpen(f, g) && IdlesFrom(f, g, n) && n <= k
    ensures g(k) != Yield(t) && g(k) != Exit(t)
  {
    IdleAt(f, g, n, k);
  }

  lemma IdleAt(f: nat -> State, g: nat -> Step, n: nat, k: nat)
    requires EndlessOpen(f, g) && IdlesFrom(f, g, n) && n <= k
    ensures Open(g(k)) && Enabled(f(k), g(k)) && f(k + 1) == Apply(f(k), g(k)) && Idles(f(k), g(k))
  {
    hide Enabled, Apply, Idles, Open;
  }

  lemma AwaitedRuns(st: State, s: Tid)
    requires Reachable(st) && NobodyRuns(st) && s in st.scheds && st.scheds[s].pc.Exec?
    ensures InPhase(st, s) && st.workers[st.scheds[s].pc.t].state != Running && !st.scheds[s].pc.ph.Asleep?
  {
    hide Reachable;
    ExecHasWorker(st, s);
    var t := st.scheds[s].pc.t;
    WorkerFact(st, t);
    assert !ThreadRuns(st, t);
  }

  /** An idle step neither moves a busy scheduler nor is one of its own. */
  lemma IdleSparesBusy(st: State, step: Step, s: Tid)
    requires Reachable(st) && NobodyRuns(st) && Enabled(st, step) && Idles(st, step)
    requires s in st.scheds && Busy(st.scheds[s].pc)
    ensures s in Apply(st, step).scheds && Apply(st, step).scheds[s] == st.scheds[s] && !Acts(st, step, s)
  {
    hide Reachable, NobodyRuns;
    if st.scheds[s].pc.Exec? { AwaitedRuns(st, s); }
    if step.WaitCheck? { AwaitedRuns(st, step.s); }
  }

  lemma {:induction false} BusyStays(f: nat -> State, g: nat -> Step, n: nat, m: nat, s: Tid)
    requires EndlessOpen(f, g) && WorkersFair(f, g) && IdlesFrom(f, g, n) && Reachable(f(0)) && n <= m
    requires s in f(n).scheds && Busy(f(n).scheds[s].pc)
    ensures s in f(m).scheds && f(m).scheds[s] == f(n).scheds[s]
    decreases m - n
  {
    hide Reachable, NobodyRuns, Acts, Busy, WorkersFair, EndlessOpen, IdlesFrom, Enabled, Apply, Idles, Open;
    if n < m {
      BusyStays(f, g, n, m - 1, s);
      OpenReachable(f, g, m - 1);
      IdleAt(f, g, n, m - 1);
      IdleStopsWorkers(f, g, n, m - 1);
      IdleSparesBusy(f(m - 1), g(m - 1), s);
    }
  }

  /** So in a fair run nobody is busy once there are only idle steps. */
  lemma IdleIsQuiet(f: nat -> State, g: nat -> Step, n: nat)
    requires EndlessOpen(f, g) && Fair(f, g) && WorkersFair(f, g) && IdlesFrom(f, g, n) && Reachable(f(0))
    ensures Quiet(f(n))
  {
    hide Reachable, NobodyRuns, Acts, WorkersFair, EndlessOpen, IdlesFrom, Enabled, Apply, Idles, Open;
    forall s | s in f(n).scheds ensures !Busy(f(n).scheds[s].pc) {
      if Busy(f(n).scheds[s].pc) {
        var m := SomeAct(f, g, n, s);
        hide Busy;
        BusyStays(f, g, n, m, s);
        OpenReachable(f, g, m);
        IdleAt(f, g, n, m);
        IdleStopsWorkers(f, g, n, m);
        IdleSparesBusy(f(m), g(m), s);
      }
    }
  }

  /** In a quiet state nobody sleeps, so nobody can be woken, and the wait condition of everybody holds. */
  lemma QuietIdles(st: State, step: Step)
    requires Reachable(st) && Quiet(st) && Open(step) && Enabled(st, step) && Idles(st, step)
    ensures Closed(step) && Pauses(st, step)
  {
    hide Reachable;
    match step
    case CheckReady(s) => QuietReady(st, st.scheds[s].clid);
    case Spurious(s) => QuietAwake(st, s);
    case Signal(s) => QuietAwake(st, s);
    case _ =>
  }

  /** The run from moment n on. */
  lemma SuffixPauses(f: nat -> State, g: nat -> Step, n: nat, f': nat -> State, g': nat -> Step)
    requires EndlessOpen(f, g) && Fair(f, g) && WorkersFair(f, g) && IdlesFrom(f, g, n) && Reachable(f(0))
    requires (forall i: nat :: f'(i) == f(n + i)) && (forall i: nat :: g'(i) == g(n + i))
    ensures Endless(f', g') && PausesFrom(f', g', 0) && Fair(f', g') && Reachable(f'(0)) && Quiet(f'(0))
  {
    hide Reachable, Acts, Quiet, Enabled, Apply, WorkersFair, Pauses, Idles, Closed;
    forall i: nat ensures Closed(g'(i)) && Enabled(f'(i), g'(i)) && f'(i + 1) == Apply(f'(i), g'(i)) && Pauses(f'(i), g'(i)) {
      OpenReachable(f, g, n + i);
      IdleIsQuiet(f, g, n + i);
      QuietIdles(f(n + i), g(n + i));
    }
    forall s: Tid, i: nat | s in f'(i).scheds && !f'(i).scheds[s].pc.Sleeping? ensures ActsFrom(f', g', s, i) {
      var m := SomeAct(f, g, n + i, s);
      assert f'(m - n) == f(m) && g'(m - n) == g(m);
    }
    OpenReachable(f, g, n);
    IdleIsQuiet(f, g, n);
    assert f'(0) == f(n);
  }

  /** Liveness: in every fair endless run, with any number of stray wakes and interrupted waits, all schedulers leave. */
  lemma FairRunsFinish(f: nat -> State, g: nat -> Step)
    requires EndlessOpen(f, g) && Fair(f, g) && WorkersFair(f, g) && Reachable(f(0))
    ensures exists n: nat :: f(n).scheds == map[]
  {
    hide Reachable, EndlessOpen, IdlesFrom, Endless, Fair, WorkersFair, PausesFrom, Quiet;
    var n := WorkStops(f, g, 0);
    if f(n).scheds != map[] {
      var s :| s in f(n).scheds;
      SuffixEnds(f, g, n, (i: nat) => f(n + i), (i: nat) => g(n + i), s);
    }
  }

  lemma SuffixEnds(f: nat -> State, g: nat -> Step, n: nat, f': nat -> State, g': nat -> Step, s: Tid)
    requires EndlessOpen(f, g) && Fair(f, g) && WorkersFair(f, g) && IdlesFrom(f, g, n) && Reachable(f(0))
    requires (forall i: nat :: f'(i) == f(n + i)) && (forall i: nat :: g'(i) == g(n + i))
    ensures s !in f(n).scheds
  {
    hide Reachable, EndlessOpen, IdlesFrom, Endless, Fair, WorkersFair, PausesFrom, Quiet;
    if s in f(n).scheds {
      SuffixPauses(f, g, n, f', g');
      assert f'(0) == f(n);
      OwnList(f'(0), s);
      QuietImpossible(f', g', 0, s);
    }
  }

  // ---- fair runs exist ----

  /** The states of a finite run, the last one forever. */
  function Stretched(st: State, steps: seq<Step>, i: nat): State
    requires ValidRun(st, steps)
    decreases |steps|
  {
    if i == 0 || |steps| == 0 then st else Stretched(Apply(st, steps[0]), steps[1..], i - 1)
  }

  lemma {:induction false} StretchedRuns(st: State, steps: seq<Step>, i: nat)
    requires ClosedRun(st, steps)
    ensures i >= |steps| ==> Stretched(st, steps, i) == After(st, steps)
    ensures i < |steps| ==>
      && Enabled(Stretched(st, steps, i), steps[i])
      && Stretched(st, steps, i + 1) == Apply(Stretched(st, steps, i), steps[i])
    decreases |steps|
  {
    hide Enabled, Apply;
    if steps != [] {
      var st' := Apply(st, steps[0]);
      assert forall j :: 0 <= j < |steps[1..]| ==> steps[1..][j] == steps[j + 1];
      if i > 0 {
        StretchedRuns(st', steps[1..], i - 1);
      } else {
        assert Stretched(st', steps[1..], 0) == st';
      }
    }
  }

  /** Who is gone later has left by a step of its own. */
  lemma {:induction false} LeavesSometime(f: nat -> State, g: nat -> Step, i: nat, n: nat, s: Tid) returns (m: nat)
    requires EndlessOpen(f, g) && i <= n && s in f(i).scheds && s !in f(n).scheds
    ensures i <= m && s in f(m).scheds && Acts(f(m), g(m), s)
    decreases n - i
  {
    hide Enabled, Apply, Acts, Open;
    if s in f(i + 1).scheds {
      m := LeavesSometime(f, g, i + 1, n, s);
    } else {
      m := i;
      OnlyLeaveRemoves(f(i), g(i), s);
    }
  }

  lemma OnlyLeaveRemoves(st: State, step: Step, s: Tid)
    requires Open(step) && Enabled(st, step) && s in st.scheds && s !in Apply(st, step).scheds
    ensures Acts(st, step, s)
  {}

  lemma {:induction false} StopsSometime(f: nat -> State, g: nat -> Step, i: nat, n: nat, t: Tid) returns (m: nat)
    requires EndlessOpen(f, g) && i <= n && ThreadRuns(f(i), t) && !ThreadRuns(f(n), t)
    ensures i <= m && (g(m) == Yield(t) || g(m) == Exit(t))
    decreases n - i
  {
    hide Enabled, Apply, ThreadRuns, Open;
    if ThreadRuns(f(i + 1), t) {
      m := StopsSometime(f, g, i + 1, n, t);
    } else {
      m := i;
      OnlyStopsStop(f(i), g(i), t);
    }
  }

  lemma OnlyStopsStop(st: State, step: Step, t: Tid)
    requires Open(step) && Enabled(st, step) && ThreadRuns(st, t) && !ThreadRuns(Apply(st, step), t)
    ensures step == Yield(t) || step == Exit(t)
  {}

  lemma NobodyLeftRunning(st: State, t: Tid)
    requires Reachable(st) && st.scheds == map[]
    ensures !ThreadRuns(st, t)
  {
    hide Reachable;
    if t in st.workers { WorkerFact(st, t); }
  }

  /** Every reachable state starts a fair endless run. */
  lemma FairRunExists(st: State) returns (f: nat -> State, g: nat -> Step)
    requires Reachable(st)
    ensures f(0) == st && EndlessOpen(f, g) && Fair(f, g) && WorkersFair(f, g)
  {
    hide Reachable;
    CanFinish(st);
    var steps :| ClosedRun(st, steps) && After(st, steps).scheds == map[];
    f, g := (i: nat) => Stretched(st, steps, i), (i: nat) => if i < |steps| then steps[i] else Tick(0);
    StretchedIsEndless(st, steps, f, g);
    ReachableRun(st, steps);
    var n := |steps|;
    StretchedRuns(st, steps, n);
    hide Acts, ThreadRuns, EndlessOpen;
    forall s: Tid, i: nat | s in f(i).scheds && !f(i).scheds[s].pc.Sleeping? ensures ActsFrom(f, g, s, i) {
      StretchedRuns(st, steps, i);
      var m := LeavesSometime(f, g, i, n, s);
    }
    forall t: Tid, i: nat | ThreadRuns(f(i), t) ensures StopsFrom(g, t, i) {
      NobodyLeftRunning(After(st, steps), t);
      StretchedRuns(st, steps, i);
      var m := StopsSometime(f, g, i, n, t);
    }
  }

  lemma StretchedIsEndless(st: State, steps: seq<Step>, f: nat -> State, g: nat -> Step)
    requires ClosedRun(st, steps)
    requires (forall i: nat :: f(i) == Stretched(st, steps, i)) && (forall i: nat :: g(i) == if i < |steps| then steps[i] else Tick(0))
    ensures EndlessOpen(f, g)
  {
    forall i: nat ensures Open(g(i)) && Enabled(f(i), g(i)) && f(i + 1) == Apply(f(i), g(i)) {
      StretchedRuns(st, steps, i);
      StretchedRuns(st, steps, i + 1);
      TickStays(f(i));
      hide Enabled, Apply, Stretched;
    }
  }

  lemma TickStays(st: State)
    ensures Enabled(st, Tick(0)) && Apply(st, Tick(0)) == st
  {}

  // ---- served workers exit ----

  /** Some scheduler that has not been answered -1 serves a list of worker t. */
  predicate ServedBy(st: State, t: Tid, s: Tid) {
    t in st.workers && s in st.scheds && !st.scheds[s].pc.Leaving? && st.scheds[s].clid in st.workers[t].clids
  }

  ghost predicate Served(st: State) {
    forall t :: t in st.workers && st.workers[t].state != Exiting ==> exists s :: ServedBy(st, t, s)
  }

  lemma ServedStep(st: State, step: Step)
    requires Reachable(st) && Served(st) && Open(step) && Enabled(st, step)
    ensures Served(Apply(st, step))
  {
    hide Reachable;
    var st' := Apply(st, step);
    forall t | t in st'.workers && st'.workers[t].state != Exiting ensures exists s :: ServedBy(st', t, s) {
      ServedBefore(st, step, t);
      var s :| ServedBy(st, t, s);
      ServedAfter(st, step, t, s);
    }
  }

  lemma ServedBefore(st: State, step: Step, t: Tid)
    requires Served(st) && Open(step) && Enabled(st, step)
    requires t in Apply(st, step).workers && Apply(st, step).workers[t].state != Exiting
    requires Reachable(st)
    ensures exists s :: ServedBy(st, t, s)
  {
    hide Reachable, ServedBy, Open;
    NoNewcomer(st, step, t);
    if st.workers[t].state == Exiting {
      StaysExited(st, step, t);
    }
    hide Enabled, Apply;
  }

  lemma NoNewcomer(st: State, step: Step, t: Tid)
    requires Open(step) && Enabled(st, step) && t in Apply(st, step).workers
    ensures t in st.workers
  {}

  lemma StaysExited(st: State, step: Step, t: Tid)
    requires Reachable(st) && Enabled(st, step) && t in st.workers && st.workers[t].state == Exiting
    ensures t in Apply(st, step).workers ==> Apply(st, step).workers[t].state == Exiting
  {
    hide Reachable;
    match step
    case Execute(s, i) => PendingIdle(st, s, st.scheds[s].pc.batch[i]);
    case _ =>
  }

  /** A scheduler is answered -1 only when no live worker is left on its list. */
  lemma ServedAfter(st: State, step: Step, t: Tid, s: Tid)
    requires Reachable(st) && Open(step) && Enabled(st, step) && ServedBy(st, t, s)
    requires t in Apply(st, step).workers && Apply(st, step).workers[t].state != Exiting
    ensures ServedBy(Apply(st, step), t, s)
  {
    hide Reachable;
    if st.workers[t].state == Exiting {
      StaysExited(st, step, t);
    } else if step == BeginScan(s) {
      ServedByGoesOn(st, t, s);
    } else if Dequeues(step) {
      ServedByDequeue(st, step, t, s);
    } else {
      ServedByRest(st, step, t, s);
    }
  }

  lemma ServedByDequeue(st: State, step: Step, t: Tid, s: Tid)
    requires Enabled(st, step) && ServedBy(st, t, s) && Dequeues(step) && step != BeginScan(s)
    ensures ServedBy(Apply(st, step), t, s)
  {}

  lemma ServedByRest(st: State, step: Step, t: Tid, s: Tid)
    requires Open(step) && Enabled(st, step) && ServedBy(st, t, s) && !Dequeues(step)
    ensures ServedBy(Apply(st, step), t, s)
  {}

  /** A scheduler of a list with a live worker is not answered -1. */
  lemma ServedByGoesOn(st: State, t: Tid, s: Tid)
    requires Reachable(st) && Enabled(st, BeginScan(s)) && ServedBy(st, t, s) && st.workers[t].state != Exiting
    ensures ServedBy(Apply(st, BeginScan(s)), t, s)
  {
    hide Reachable;
    CrossIndex(st, t, st.scheds[s].clid);
    LiveExact(st, st.scheds[s].clid);
  }

  lemma {:induction false} ServedForever(f: nat -> State, g: nat -> Step, n: nat)
    requires EndlessOpen(f, g) && Reachable(f(0)) && Served(f(0))
    ensures Served(f(n))
  {
    hide Reachable, Served;
    if n > 0 {
      ServedForever(f, g, n - 1);
      OpenReachable(f, g, n - 1);
      ServedStep(f(n - 1), g(n - 1));
    }
  }

  /** In a fair endless run in which every live worker is on a served list, every worker exits and every scheduler leaves. */
  lemma ServedWorkersExit(f: nat -> State, g: nat -> Step)
    requires EndlessOpen(f, g) && Fair(f, g) && WorkersFair(f, g) && Reachable(f(0)) && Served(f(0))
    ensures exists n: nat :: Drained(f(n))
  {
    hide Reachable, Fair, WorkersFair;
    FairRunsFinish(f, g);
    var n: nat :| f(n).scheds == map[];
    ServedForever(f, g, n);
    forall t | t in f(n).workers ensures f(n).workers[t].state == Exiting {
      assert forall s :: !ServedBy(f(n), t, s);
    }
    assert Drained(f(n));
  }

  lemma {:induction false} ServedRun(st: State, steps: seq<Step>)
    requires Reachable(st) && Served(st) && ClosedRun(st, steps)
    ensures Served(After(st, steps))
    decreases |steps|
  {
    hide Reachable, Served;
    if steps != [] {
      var st' := Apply(st, steps[0]);
      ServedStep(st, steps[0]);
      ReachableStep(st, steps[0]);
      assert forall i :: 0 <= i < |steps[1..]| ==> steps[1..][i] == steps[i + 1];
      ServedRun(st', steps[1..]);
    }
  }

  /** From every reachable state whose live workers are all served, a run ends with all workers exited. */
  lemma CanDrain(st: State)
    requires Reachable(st) && Served(st)
    ensures exists steps :: ClosedRun(st, steps) && Drained(After(st, steps))
  {
    hide Reachable;
    CanFinish(st);
    var steps :| ClosedRun(st, steps) && After(st, steps).scheds == map[];
    ServedRun(st, steps);
    var end := After(st, steps);
    forall t | t in end.workers ensures end.workers[t].state == Exiting {
      assert forall s :: !ServedBy(end, t, s);
    }
    assert Drained(After(st, steps));
  }

  predicate Drained(st: State) {
    st.scheds == map[] && forall t :: t in st.workers ==> st.workers[t].state == Exiting
  }
}
