/**
 Creation of a worker: the creator waits on a condition variable for the tid, then in WAITWTCREATION for the
 kernel record, while the new thread publishes its tid and, in CREATEWORKERTHREAD, inserts the record and then
 wakes the creator.
 */
module Handshake {

  /** The creator's position. `found` is the outcome of its last look-up of the record. */
  datatype Creator =
    | Testing               // the tid == -1 test, with the mutex
    | OnCond                // in pthread_cond_wait
    | FirstLook             // get_kworker_thread before the loop
    | FirstArm(found: bool) // set_current_state before the loop
    | Looping(found: bool)  // the loop test, and schedule if it holds
    | Asleep                // in schedule
    | Arming                // set_current_state inside the loop
    | Looking               // get_kworker_thread inside the loop
    | Done

  /** The new thread: its tid is published, its record inserted, its wake_up_process over. */
  datatype Newborn = Starting | Published | Created | Woke

  /** `armed`: the creator's task state is TASK_INTERRUPTIBLE. */
  datatype Shake = Shake(creator: Creator, armed: bool, newborn: Newborn)

  datatype Move = Advance | Publish | Insert | Wake | Spurious

  const BEGIN := Shake(Testing, false, Starting)

  predicate HasTid(x: Shake) { !x.newborn.Starting? }

  predicate HasRecord(x: Shake) { x.newborn.Created? || x.newborn.Woke? }

  /** wake_up_process: a sleeper runs again; one that is about to sleep will not. */
  function WokenUp(x: Shake): Shake {
    if x.creator.Asleep? then x.(creator := Arming, armed := false) else x.(armed := false)
  }

  predicate Blocked(x: Shake) { x.creator.OnCond? || x.creator.Asleep? || x.creator.Done? }

  /** The creator's next step of its own. */
  function Forward(x: Shake): Shake {
    match x.creator
    case Testing => x.(creator := if HasTid(x) then FirstLook else OnCond)
    case FirstLook => x.(creator := FirstArm(HasRecord(x)))
    case FirstArm(found) => x.(creator := Looping(found), armed := true)
    case Looping(found) =>
      if found then x.(creator := Done, armed := false)
      else if x.armed then x.(creator := Asleep)
      else x.(creator := Arming)
    case Arming => x.(creator := Looking, armed := true)
    case Looking => x.(creator := Looping(HasRecord(x)))
    case _ => x
  }

  /** The creator is between a set_current_state and the end of the wait. */
  predicate InWait(x: Shake) { x.creator.Looping? || x.creator.Asleep? || x.creator.Looking? }

  predicate Possible(x: Shake, m: Move) {
    match m
    case Advance => !Blocked(x)
    case Publish => x.newborn.Starting?
    case Insert => x.newborn.Published?
    case Wake => x.newborn.Created?
    case Spurious => x.creator.OnCond? || (x.armed && InWait(x))
  }

  function Next(x: Shake, m: Move): Shake
    requires Possible(x, m)
  {
    match m
    case Advance => Forward(x)
    case Publish => x.(newborn := Published, creator := if x.creator.OnCond? then Testing else x.creator)
    case Insert => x.(newborn := Created)
    case Wake => WokenUp(x.(newborn := Woke))
    case Spurious => if x.creator.OnCond? then x.(creator := Testing) else WokenUp(x)
  }

  predicate CanRun(x: Shake, moves: seq<Move>)
    decreases |moves|
  {
    moves == [] || (Possible(x, moves[0]) && CanRun(Next(x, moves[0]), moves[1..]))
  }

  function RunOf(x: Shake, moves: seq<Move>): Shake
    requires CanRun(x, moves)
    decreases |moves|
  {
    if moves == [] then x else RunOf(Next(x, moves[0]), moves[1..])
  }

  predicate Sound(x: Shake) {
    && (!x.creator.Testing? && !x.creator.OnCond? ==> HasTid(x))
    && (x.creator.OnCond? ==> !HasTid(x))
    && (x.creator.FirstArm? || x.creator.Looping? ==> x.creator.found ==> HasRecord(x))
    && (x.creator.Done? ==> HasRecord(x))
    && (x.armed ==> InWait(x))
    && (x.creator.Asleep? ==> x.armed)
  }

  lemma {:induction false} StaysSound(x: Shake, moves: seq<Move>)
    requires Sound(x) && CanRun(x, moves)
    ensures Sound(RunOf(x, moves))
    decreases |moves|
  {
    if moves != [] {
      StaysSound(Next(x, moves[0]), moves[1..]);
    }
  }

  /** The creator returns only after the tid is published and the kernel record exists. */
  lemma ReturnsWhenReady(moves: seq<Move>)
    requires CanRun(BEGIN, moves) && RunOf(BEGIN, moves).creator.Done?
    ensures HasTid(RunOf(BEGIN, moves)) && HasRecord(RunOf(BEGIN, moves))
  {
    StaysSound(BEGIN, moves);
  }

  /** It is armed only inside the wait, always while it sleeps, and never when it returns. */
  lemma ReturnsRunning(moves: seq<Move>)
    requires CanRun(BEGIN, moves)
    ensures var x := RunOf(BEGIN, moves);
      && (x.armed ==> InWait(x))
      && (x.creator.Asleep? ==> x.armed)
      && (x.creator.Done? ==> !x.armed)
  {
    StaysSound(BEGIN, moves);
  }

  // ---- the wake that can be lost ----

  /** The wake is over, and the creator is asleep or bound to fall asleep. */
  predicate Lost(x: Shake) {
    && x.newborn.Woke?
    && (x.creator.Asleep? || x.creator == FirstArm(false) || (x.creator == Looping(false) && x.armed))
  }

  /**
   The wake is lost exactly if it comes after a first look-up in vain and before the set_current_state that
   follows it; only a stray wake gets the creator out again.
   */
  lemma LostIff(x: Shake, m: Move)
    requires Possible(x, m)
    ensures !Lost(x) ==> (Lost(Next(x, m)) <==> m == Wake && x.creator == FirstArm(false))
    ensures Lost(x) ==> (!Lost(Next(x, m)) <==> m == Spurious)
  {}

  function Alone(x: Shake, n: nat): Shake
    decreases n
  {
    if n == 0 then x else Alone(Forward(x), n - 1)
  }

  lemma FourForward(x: Shake, n: nat)
    requires n >= 4
    ensures Alone(x, n) == Alone(Forward(Forward(Forward(Forward(x)))), n - 4)
  {
    hide Forward;
    var a := Forward(Forward(x));
    assert Alone(x, n) == Alone(Forward(x), n - 1) == Alone(a, n - 2) == Alone(Forward(a), n - 3);
  }

  lemma {:induction false} StaysPut(x: Shake, n: nat)
    requires Blocked(x)
    ensures Alone(x, n) == x
  {
    if n > 0 { StaysPut(Forward(x), n - 1); }
  }

  /** A stray wake of a sleeper before the record exists costs one round: the creator looks again and sleeps as before. */
  lemma StrayWakeSleepsAgain(moves: seq<Move>)
    requires CanRun(BEGIN, moves)
    requires RunOf(BEGIN, moves).creator.Asleep? && !HasRecord(RunOf(BEGIN, moves))
    ensures Possible(RunOf(BEGIN, moves), Spurious)
    ensures Alone(Next(RunOf(BEGIN, moves), Spurious), 3) == RunOf(BEGIN, moves)
  {
    var x := RunOf(BEGIN, moves);
    StaysSound(BEGIN, moves);
    var a := Next(x, Spurious);
    var b := Forward(a);
    var c := Forward(b);
    assert Alone(a, 3) == Alone(b, 2) == Alone(c, 1) == Alone(Forward(c), 0);
  }

  /** Wherever a stray wake meets it in the wait, the creator sleeps again as long as there is no record. */
  lemma StrayWakeSleeps(moves: seq<Move>, n: nat)
    requires CanRun(BEGIN, moves) && RunOf(BEGIN, moves).armed && !HasRecord(RunOf(BEGIN, moves)) && n >= 5
    ensures Possible(RunOf(BEGIN, moves), Spurious)
    ensures Alone(Next(RunOf(BEGIN, moves), Spurious), n).creator.Asleep?
  {
    StaysSound(BEGIN, moves);
    var a := Next(RunOf(BEGIN, moves), Spurious);
    FourForward(Forward(a), n - 1);
    StaysPut(Forward(Forward(Forward(Forward(Forward(a))))), n - 5);
  }

  /** Once the new thread has made its wake, the creator by itself returns if and only if the wake was not lost. */
  lemma ReturnsIff(moves: seq<Move>, n: nat)
    requires CanRun(BEGIN, moves) && RunOf(BEGIN, moves).newborn.Woke? && n >= 4
    ensures Alone(RunOf(BEGIN, moves), n).creator.Done? <==> !Lost(RunOf(BEGIN, moves))
  {
    var x := RunOf(BEGIN, moves);
    StaysSound(BEGIN, moves);
    FourForward(x, n);
    StaysPut(Forward(Forward(Forward(Forward(x)))), n - 4);
  }

  lemma RunCons(x: Shake, m: Move, more: seq<Move>)
    requires Possible(x, m) && CanRun(Next(x, m), more)
    ensures CanRun(x, [m] + more) && RunOf(x, [m] + more) == RunOf(Next(x, m), more)
  {
    assert ([m] + more)[1..] == more;
  }

  /** A run in which the wake is lost: the record is inserted, and the wake made, between look-up and set_current_state. */
  lemma LossHappens()
    ensures var moves := [Advance, Publish, Advance, Advance, Insert, Wake];
      CanRun(BEGIN, moves) && Lost(RunOf(BEGIN, moves))
  {
    var looked := Shake(FirstArm(false), false, Published);
    RunCons(Next(looked, Insert), Wake, []);
    RunCons(looked, Insert, [Wake]);
    LooksInVain([Insert, Wake]);
  }

  /** The record alone does not decide it: if it is inserted there but the wake comes later, the creator returns. */
  lemma LateWakeArrives()
    ensures var moves := [Advance, Publish, Advance, Advance, Insert, Advance, Advance, Wake];
      CanRun(BEGIN, moves) && !Lost(RunOf(BEGIN, moves))
  {
    var looked := Shake(FirstArm(false), false, Published);
    var asleep := Shake(Asleep, true, Created);
    RunCons(asleep, Wake, []);
    RunCons(Shake(Looping(false), true, Created), Advance, [Wake]);
    RunCons(Next(looked, Insert), Advance, [Advance, Wake]);
    RunCons(looked, Insert, [Advance, Advance, Wake]);
    LooksInVain([Insert, Advance, Advance, Wake]);
  }

  /** The creator waits for the tid, sees it, and looks for the record in vain. */
  lemma LooksInVain(more: seq<Move>)
    requires CanRun(Shake(FirstArm(false), false, Published), more)
    ensures var moves := [Advance, Publish, Advance, Advance] + more;
      CanRun(BEGIN, moves) && RunOf(BEGIN, moves) == RunOf(Shake(FirstArm(false), false, Published), more)
  {
    RunCons(Shake(FirstLook, false, Published), Advance, more);
    RunCons(Shake(Testing, false, Published), Advance, [Advance] + more);
    RunCons(Shake(OnCond, false, Starting), Publish, [Advance] + ([Advance] + more));
    RunCons(BEGIN, Advance, [Publish] + ([Advance] + ([Advance] + more)));
    assert [Advance, Publish, Advance, Advance] + more == [Advance] + ([Publish] + ([Advance] + ([Advance] + more)));
  }
}
