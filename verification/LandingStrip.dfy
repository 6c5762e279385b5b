/** The landing-strip monitor of cw09/zad2: planes land on and take off from a
    carrier deck through one strip, three mutexes and two condition variables.

    Every plane runs the same program; `Code` lists it instruction by
    instruction, one constructor of `PC` per source statement. A state is one
    program counter per plane together with the shared variables. */
module LandingStrip {
  import opened Mutexes
  import opened Sums

  /** The fleet size, and the constants K (below it landings go first) and N (deck capacity). */
  datatype Airport = Airport(planes: nat, k: nat, n: nat) {
    predicate Valid() {
      1 <= planes && 1 <= k <= n
    }
  }

  datatype Mutex = Strip | LandCount | TakeCount

  /** Landing (lines 35-60) and taking off (lines 62-84) are mirror images. */
  datatype Phase = Landing | Takeoff {
    function Other(): Phase {
      if Landing? then Takeoff else Landing
    }

    /** The mutex guarding this phase's own waiting counter. */
    function CountMutex(): Mutex {
      if Landing? then LandCount else TakeCount
    }
  }

  datatype Place =
    | Arriving | Enqueue | Queued | WantStrip | LockOther
    | Test | Yield | Wait | Asleep | Woken | Relock
    | Cleared | LockOwn | Dequeue | UnlockOwn | Crossing | Notify | Leave

  datatype PC = PC(phase: Phase, place: Place)

  datatype Instruction =
    | Lock(m: Mutex, next: PC)
    | Unlock(m: Mutex, next: PC)
    | Count(delta: int, next: PC)
    | Board(delta: int, next: PC)
    | Guard(refused: PC, cleared: PC)
    | Sleep(asleep: PC)
    | Blocked(woken: PC)
    | Signal(next: PC)

  /** The program of a plane; the comments give the source lines of the two phases. */
  function Code(pc: PC): Instruction {
    var own, other := pc.phase.CountMutex(), pc.phase.Other().CountMutex();
    match pc.place
    case Arriving => Lock(own, pc.(place := Enqueue))           // 38, 65
    case Enqueue => Count(1, pc.(place := Queued))              // 39, 66
    case Queued => Unlock(own, pc.(place := WantStrip))         // 41, 67
    case WantStrip => Lock(Strip, pc.(place := LockOther))      // 42, 68
    case LockOther => Lock(other, pc.(place := Test))           // 44, 70
    case Test => Guard(pc.(place := Yield), pc.(place := Cleared)) // 46, 71
    case Yield => Unlock(other, pc.(place := Wait))             // 47, 72
    case Wait => Sleep(pc.(place := Asleep))                    // 48, 73
    case Asleep => Blocked(pc.(place := Woken))                 // 48, 73
    case Woken => Lock(Strip, pc.(place := Relock))             // 48, 73
    case Relock => Lock(other, pc.(place := Test))              // 49, 74
    case Cleared => Unlock(other, pc.(place := LockOwn))        // 52, 76
    case LockOwn => Lock(own, pc.(place := Dequeue))            // 54, 78
    case Dequeue => Count(-1, pc.(place := UnlockOwn))          // 55, 79
    case UnlockOwn => Unlock(own, pc.(place := Crossing))       // 56, 80
    case Crossing =>
      Board(if pc.phase.Landing? then 1 else -1, pc.(place := Notify)) // 58, 82
    case Notify => Signal(pc.(place := Leave))                  // 59, 83
    case Leave => Unlock(Strip, PC(pc.phase.Other(), Arriving)) // 60, 84
  }

  // ---------------------------------------------------------------- states

  datatype State = State(
    pc: seq<PC>,
    strip: Owner, landCount: Owner, takeCount: Owner,
    board: int, waitLand: int, waitTake: int)
  {
    function OwnerOf(m: Mutex): Owner {
      match m
      case Strip => strip
      case LandCount => landCount
      case TakeCount => takeCount
    }

    function WithOwner(m: Mutex, o: Owner): State {
      match m
      case Strip => this.(strip := o)
      case LandCount => this.(landCount := o)
      case TakeCount => this.(takeCount := o)
    }

    function WithCount(phase: Phase, d: int): State {
      match phase
      case Landing => this.(waitLand := waitLand + d)
      case Takeoff => this.(waitTake := waitTake + d)
    }

    function Goto(p: nat, next: PC): State
      requires p < |pc|
    {
      this.(pc := pc[p := next])
    }

    predicate IsAt(p: nat, where: PC) {
      p < |pc| && pc[p] == where
    }

    ghost predicate SomeAt(where: PC) {
      exists p: nat :: IsAt(p, where)
    }
  }

  ghost predicate Init(a: Airport, s: State) {
    && |s.pc| == a.planes
    && (forall p :: 0 <= p < |s.pc| ==> s.pc[p] == PC(Landing, Arriving))
    && s.strip == s.landCount == s.takeCount == Free
    && s.board == s.waitLand == s.waitTake == 0
  }

  /** The conditions of the two `while` loops around `pthread_cond_wait`. */
  predicate Refused(a: Airport, s: State, phase: Phase) {
    match phase
    case Landing => s.board == a.n || (s.board >= a.k && s.waitTake > 0)
    case Takeoff => s.board < a.k && s.waitLand > 0
  }

  /** A sleeper leaves its condition variable and starts to re-acquire the strip. */
  ghost predicate Wakes(s: State, p: nat, t: State) {
    p < |s.pc| && s.pc[p].place == Asleep && t == s.Goto(p, s.pc[p].(place := Woken))
  }

  /** `pthread_cond_signal` for the sleepers of `phase`: one wakes when there is one, otherwise nothing happens. */
  ghost predicate Signals(s: State, phase: Phase, t: State) {
    if s.SomeAt(PC(phase, Asleep)) then
      exists w: nat :: s.IsAt(w, PC(phase, Asleep)) && Wakes(s, w, t)
    else
      t == s
  }

  /** Plane `p` executes its next instruction. A landing signals `landed`, on which planes
      wait to take off; a take-off signals `took_off`, on which planes wait to land. */
  ghost predicate PlaneStep(a: Airport, s: State, p: nat, t: State) {
    p < |s.pc| &&
    var phase := s.pc[p].phase;
    match Code(s.pc[p])
    case Lock(m, next) => s.OwnerOf(m) == Free && t == s.WithOwner(m, By(p)).Goto(p, next)
    case Unlock(m, next) => t == s.WithOwner(m, Free).Goto(p, next)
    case Count(d, next) => t == s.WithCount(phase, d).Goto(p, next)
    case Board(d, next) => t == s.(board := s.board + d).Goto(p, next)
    case Guard(refused, cleared) => t == s.Goto(p, if Refused(a, s, phase) then refused else cleared)
    case Sleep(asleep) => t == s.WithOwner(Strip, Free).Goto(p, asleep)
    case Blocked(_) => false
    case Signal(next) => exists u :: Signals(s, phase.Other(), u) && |u.pc| == |s.pc| && t == u.Goto(p, next)
  }

  datatype Action = Run(p: nat) | SpuriousWake(p: nat)

  ghost predicate Step(a: Airport, s: State, act: Action, t: State) {
    match act
    case Run(p) => PlaneStep(a, s, p, t)
    case SpuriousWake(p) => Wakes(s, p, t)
  }

  /** A run: `states[i + 1]` follows from `states[i]` by `acts[i]`. */
  ghost predicate Execution(a: Airport, states: seq<State>, acts: seq<Action>) {
    && |states| == |acts| + 1
    && forall i :: 0 <= i < |acts| ==> Step(a, states[i], acts[i], states[i + 1])
  }

  // ------------------------------------------------------- regions of the program

  /** The places where a plane owns the strip. */
  predicate OwnsStrip(place: Place) {
    !(place.Arriving? || place.Enqueue? || place.Queued? || place.WantStrip? || place.Asleep? || place.Woken?)
  }

  /** The statements executed while owning a mutex. */
  predicate Holds(pc: PC, m: Mutex) {
    if m == Strip then
      OwnsStrip(pc.place)
    else if m == pc.phase.CountMutex() then
      pc.place.Enqueue? || pc.place.Queued? || pc.place.Dequeue? || pc.place.UnlockOwn?
    else
      pc.place.Test? || pc.place.Yield? || pc.place.Cleared?
  }

  /** After the increment and before the decrement of the phase's waiting counter. */
  predicate InQueue(place: Place) {
    !(place.Arriving? || place.Enqueue? || place.UnlockOwn? || place.Crossing? || place.Notify? || place.Leave?)
  }

  /** Before the plane crosses the edge of the deck, in either direction. */
  predicate BeforeCrossing(place: Place) {
    !(place.Notify? || place.Leave?)
  }

  /** Between the increment and the decrement of `planes_on_board`. */
  predicate Aboard(pc: PC) {
    pc.phase.Takeoff? == BeforeCrossing(pc.place)
  }

  /** The test has succeeded and the crossing is still to come. */
  predicate PassedTest(place: Place) {
    place.Cleared? || place.LockOwn? || place.Dequeue? || place.UnlockOwn? || place.Crossing?
  }

  /** Awake in the landing phase, past the point where the plane was counted. */
  predicate AwakeLanding(pc: PC) {
    pc.phase.Landing? && pc.place != Asleep && (InQueue(pc.place) || PassedTest(pc.place))
  }

  function AboardW(pc: PC): int { One(Aboard(pc)) }
  function ToLandW(pc: PC): int { One(pc.phase.Landing? && InQueue(pc.place)) }
  function ToTakeoffW(pc: PC): int { One(pc.phase.Takeoff? && InQueue(pc.place)) }
  function DeckSleeperW(pc: PC): int { One(pc == PC(Takeoff, Asleep)) }

  // -------------------------------------------------------------- invariant

  /** A mutex is owned exactly by the plane whose program counter lies in its region. */
  ghost predicate LockOk(s: State, p: nat, m: Mutex) {
    (p < |s.pc| && Holds(s.pc[p], m)) <==> s.OwnerOf(m) == By(p)
  }

  ghost predicate LocksOk(s: State) {
    forall p: nat, m: Mutex :: LockOk(s, p, m)
  }

  /** The three shared counters count program counters. */
  ghost predicate CountsOk(s: State) {
    && s.board == Sum(s.pc, AboardW)
    && s.waitLand == Sum(s.pc, ToLandW)
    && s.waitTake == Sum(s.pc, ToTakeoffW)
  }

  /** Somebody sleeps while waiting to land, or to take off. */
  ghost predicate Sleeps(s: State, phase: Phase) {
    s.SomeAt(PC(phase, Asleep))
  }

  function Waiting(s: State, phase: Phase): int {
    if phase.Landing? then s.waitLand else s.waitTake
  }

  /** What a plane owning the strip knows after its test. */
  ghost predicate LocalOk(a: Airport, s: State, pc: PC) {
    match pc.phase
    case Landing =>
      && (PassedTest(pc.place) ==> s.board < a.n)
      && (PassedTest(pc.place) && a.k <= s.board ==> !Sleeps(s, Takeoff))
      && (pc.place.Yield? || pc.place.Wait? ==> Refused(a, s, Landing))
    case Takeoff =>
      && (PassedTest(pc.place) && s.board < a.k ==> !Sleeps(s, Landing))
      && (pc.place.Yield? || pc.place.Wait? ==> Refused(a, s, Takeoff))
  }

  ghost predicate SomeAwakeLanding(s: State) {
    exists p: nat :: p < |s.pc| && AwakeLanding(s.pc[p])
  }

  /** Planes asleep in the air see the threshold reached, or somebody awake is on the way to reach it. */
  ghost predicate WakeUpOk(a: Airport, s: State) {
    Sleeps(s, Landing) ==>
      || a.k <= s.board
      || (s.board == a.k - 1 && (SomeAwakeLanding(s) || s.SomeAt(PC(Takeoff, Notify))))
  }

  ghost predicate DeckSleepersOk(a: Airport, s: State) {
    Sum(s.pc, DeckSleeperW) < a.k && Sum(s.pc, DeckSleeperW) < a.planes
  }

  ghost predicate Inv(a: Airport, s: State) {
    && |s.pc| == a.planes
    && LocksOk(s)
    && CountsOk(s)
    && s.board <= a.n
    && (forall p :: 0 <= p < |s.pc| ==> LocalOk(a, s, s.pc[p]))
    && WakeUpOk(a, s)
    && DeckSleepersOk(a, s)
  }

  lemma InitInv(a: Airport, s: State)
    requires a.Valid() && Init(a, s)
    ensures Inv(a, s)
  {
    SumConstant(s.pc, AboardW, 0);
    SumConstant(s.pc, ToLandW, 0);
    SumConstant(s.pc, ToTakeoffW, 0);
    SumConstant(s.pc, DeckSleeperW, 0);
  }

  // ------------------------------------------------- every instruction keeps it

  /** An instruction that moves one program counter only: everything but a signal that wakes a sleeper. */
  ghost predicate Moves(a: Airport, s: State, p: nat, t: State) {
    p < |s.pc| &&
    match Code(s.pc[p])
    case Blocked(_) => Wakes(s, p, t)
    case Signal(next) =>
      && t == s.Goto(p, next)
      && (s.pc[p].phase.Takeoff? && Sleeps(s, Landing) ==> SomeAwakeLanding(s))
    case _ => PlaneStep(a, s, p, t)
  }

  lemma MoveLocks(a: Airport, s: State, p: nat, t: State)
    requires LocksOk(s) && Moves(a, s, p, t)
    ensures LocksOk(t)
  {
    forall q: nat, m: Mutex
      ensures LockOk(t, q, m)
    {
      assert LockOk(s, q, m) && LockOk(s, p, m);
    }
  }

  predicate LeadsTo(code: Instruction, next: PC) {
    match code
    case Guard(refused, cleared) => next == refused || next == cleared
    case Sleep(asleep) => next == asleep
    case Blocked(woken) => next == woken
    case _ => next == code.next
  }

  /** `Board` is the statement where a plane comes aboard or leaves. */
  lemma CodeBoards(pc: PC, next: PC)
    requires LeadsTo(Code(pc), next)
    ensures AboardW(next) - AboardW(pc) == if Code(pc).Board? then Code(pc).delta else 0
  {
  }

  /** `Count` is the statement where a plane enters or leaves the queue of its phase. */
  lemma CodeQueues(pc: PC, next: PC)
    requires LeadsTo(Code(pc), next)
    ensures ToLandW(next) - ToLandW(pc) == if Code(pc).Count? && pc.phase.Landing? then Code(pc).delta else 0
    ensures ToTakeoffW(next) - ToTakeoffW(pc) == if Code(pc).Count? && pc.phase.Takeoff? then Code(pc).delta else 0
  {
  }

  /** What a move does to the mover and to the shared counters. */
  lemma MoveShape(a: Airport, s: State, p: nat, t: State)
    requires Moves(a, s, p, t)
    ensures |t.pc| == |s.pc| && t.pc == s.pc[p := t.pc[p]]
    ensures t.board - s.board == AboardW(t.pc[p]) - AboardW(s.pc[p])
    ensures t.waitLand - s.waitLand == ToLandW(t.pc[p]) - ToLandW(s.pc[p])
    ensures t.waitTake - s.waitTake == ToTakeoffW(t.pc[p]) - ToTakeoffW(s.pc[p])
  {
    assert LeadsTo(Code(s.pc[p]), t.pc[p]);
    CodeBoards(s.pc[p], t.pc[p]);
    CodeQueues(s.pc[p], t.pc[p]);
  }

  lemma MoveCounts(a: Airport, s: State, p: nat, t: State)
    requires CountsOk(s) && Moves(a, s, p, t)
    ensures CountsOk(t)
  {
    MoveShape(a, s, p, t);
    SumUpdate(s.pc, p, t.pc[p], AboardW);
    SumUpdate(s.pc, p, t.pc[p], ToLandW);
    SumUpdate(s.pc, p, t.pc[p], ToTakeoffW);
  }

  /** Nobody sleeps in a phase whose waiting counter is zero. */
  lemma NobodyWaitsNobodySleeps(s: State, phase: Phase)
    requires CountsOk(s) && Waiting(s, phase) <= 0
    ensures !Sleeps(s, phase)
  {
    forall q: nat | s.IsAt(q, PC(phase, Asleep))
      ensures false
    {
      if phase.Landing? {
        SumIncludesOne(s.pc, q, ToLandW);
      } else {
        SumIncludesOne(s.pc, q, ToTakeoffW);
      }
    }
  }

  /** Only a plane of that phase that owns the strip falls asleep in it. */
  lemma MoveKeepsClear(a: Airport, s: State, p: nat, t: State, phase: Phase)
    requires Moves(a, s, p, t) && !Sleeps(s, phase) && s.pc[p] != PC(phase, Wait)
    ensures !Sleeps(t, phase)
  {
    MoveShape(a, s, p, t);
    assert t.pc[p] != PC(phase, Asleep);
    assert forall q: nat :: t.IsAt(q, PC(phase, Asleep)) ==> s.IsAt(q, PC(phase, Asleep));
  }

  /** A plane that does not own the strip cannot disturb what its owner knows. */
  lemma OutsiderMove(a: Airport, s: State, p: nat, t: State)
    requires Moves(a, s, p, t) && !OwnsStrip(s.pc[p].place)
    ensures t.board == s.board && s.waitLand <= t.waitLand && s.waitTake <= t.waitTake
    ensures forall phase :: !Sleeps(s, phase) ==> !Sleeps(t, phase)
  {
    MoveShape(a, s, p, t);
    forall phase | !Sleeps(s, phase)
      ensures !Sleeps(t, phase)
    {
      MoveKeepsClear(a, s, p, t, phase);
    }
  }

  /** The mover itself knows what its new place promises. */
  lemma MoveLocalSelf(a: Airport, s: State, p: nat, t: State)
    requires Moves(a, s, p, t) && LocalOk(a, s, s.pc[p])
    requires s.board <= a.n && OwnsStrip(s.pc[p].place)
    requires forall phase :: Waiting(s, phase) <= 0 ==> !Sleeps(s, phase)
    requires forall phase :: Sleeps(t, phase) ==> Sleeps(s, phase) || s.pc[p] == PC(phase, Wait)
    requires a.k <= a.n
    ensures t.board <= a.n && LocalOk(a, t, t.pc[p])
  {
    match s.pc[p].phase
    case Landing =>
    case Takeoff =>
  }

  /** What another plane knows stays true: it owns the strip, or it knows nothing. */
  lemma MoveLocalOther(a: Airport, s: State, p: nat, t: State, q: nat)
    requires Moves(a, s, p, t) && q < |s.pc| && q != p && LocalOk(a, s, s.pc[q])
    requires LockOk(s, q, Strip) && LockOk(s, p, Strip)
    ensures |t.pc| == |s.pc| && LocalOk(a, t, t.pc[q])
  {
    MoveShape(a, s, p, t);
    if OwnsStrip(s.pc[q].place) {
      OutsiderMove(a, s, p, t);
    }
  }

  lemma MoveLocal(a: Airport, s: State, p: nat, t: State)
    requires a.Valid() && Moves(a, s, p, t) && LocksOk(s) && CountsOk(s) && s.board <= a.n
    requires forall q :: 0 <= q < |s.pc| ==> LocalOk(a, s, s.pc[q])
    ensures t.board <= a.n
    ensures forall q :: 0 <= q < |t.pc| ==> LocalOk(a, t, t.pc[q])
  {
    MoveShape(a, s, p, t);
    assert LocalOk(a, s, s.pc[p]);
    forall phase
      ensures Waiting(s, phase) <= 0 ==> !Sleeps(s, phase)
      ensures Sleeps(t, phase) ==> Sleeps(s, phase) || s.pc[p] == PC(phase, Wait)
    {
      if Waiting(s, phase) <= 0 {
        NobodyWaitsNobodySleeps(s, phase);
      }
      if !Sleeps(s, phase) && s.pc[p] != PC(phase, Wait) {
        MoveKeepsClear(a, s, p, t, phase);
      }
    }
    if OwnsStrip(s.pc[p].place) {
      MoveLocalSelf(a, s, p, t);
    } else {
      OutsiderMove(a, s, p, t);
    }
    forall q: nat | q < |t.pc| && q != p
      ensures LocalOk(a, t, t.pc[q])
    {
      assert LocalOk(a, s, s.pc[q]);
      assert LockOk(s, q, Strip) && LockOk(s, p, Strip);
      MoveLocalOther(a, s, p, t, q);
    }
  }

  /** While the count is one below the threshold, the plane that will resume the sleepers stays in place. */
  lemma MoveKeepsEvidence(a: Airport, s: State, p: nat, t: State)
    requires a.Valid() && Moves(a, s, p, t) && Sleeps(s, Landing) && WakeUpOk(a, s) && LocalOk(a, s, s.pc[p])
    requires s.board == a.k - 1 == t.board
    ensures SomeAwakeLanding(t) || t.SomeAt(PC(Takeoff, Notify))
  {
    MoveShape(a, s, p, t);
    if SomeAwakeLanding(s) {
      var q: nat :| q < |s.pc| && AwakeLanding(s.pc[q]);
      assert AwakeLanding(t.pc[q]);
    } else {
      var q: nat :| s.IsAt(q, PC(Takeoff, Notify));
      assert q != p;
      assert t.IsAt(q, PC(Takeoff, Notify));
    }
  }

  lemma MoveWakeUp(a: Airport, s: State, p: nat, t: State)
    requires a.Valid() && Moves(a, s, p, t) && WakeUpOk(a, s) && LocalOk(a, s, s.pc[p])
    ensures WakeUpOk(a, t)
  {
    MoveShape(a, s, p, t);
    if Sleeps(t, Landing) && t.board < a.k {
      if s.pc[p] != PC(Landing, Wait) && !Sleeps(s, Landing) {
        MoveKeepsClear(a, s, p, t, Landing);
      }
      assert Sleeps(s, Landing);
      if s.board < a.k {
        MoveKeepsEvidence(a, s, p, t);
      } else {
        assert t.IsAt(p, PC(Takeoff, Notify));
      }
    }
  }

  /** A plane falls asleep on deck only below the threshold and with somebody counted in the air. */
  lemma MoveDeckSleepers(a: Airport, s: State, p: nat, t: State)
    requires Moves(a, s, p, t) && |s.pc| == a.planes && CountsOk(s) && DeckSleepersOk(a, s)
    requires LocalOk(a, s, s.pc[p])
    ensures DeckSleepersOk(a, t)
  {
    MoveShape(a, s, p, t);
    SumUpdate(s.pc, p, t.pc[p], DeckSleeperW);
    if s.pc[p] == PC(Takeoff, Wait) {
      SumUpdate(s.pc, p, t.pc[p], AboardW);
      SumMonotone(t.pc, DeckSleeperW, AboardW);
      var q := SumWitness(s.pc, ToLandW);
      OneElsewhereLeavesRoom(t, q);
    }
  }

  lemma OneElsewhereLeavesRoom(t: State, q: nat)
    requires q < |t.pc| && DeckSleeperW(t.pc[q]) == 0
    ensures Sum(t.pc, DeckSleeperW) < |t.pc|
  {
    var asleep := PC(Takeoff, Asleep);
    SumUpdate(t.pc, q, asleep, DeckSleeperW);
    SumBounds(t.pc[q := asleep], DeckSleeperW, 0, 1);
  }

  lemma MoveInv(a: Airport, s: State, p: nat, t: State)
    requires a.Valid() && Inv(a, s) && Moves(a, s, p, t)
    ensures Inv(a, t)
  {
    assert LocalOk(a, s, s.pc[p]);
    MoveShape(a, s, p, t);
    MoveLocks(a, s, p, t);
    MoveCounts(a, s, p, t);
    MoveLocal(a, s, p, t);
    MoveWakeUp(a, s, p, t);
    MoveDeckSleepers(a, s, p, t);
  }

  /** A signal is the wake-up it causes followed by the signaller's own move. */
  lemma SignalSplits(a: Airport, s: State, p: nat, t: State) returns (u: State)
    requires PlaneStep(a, s, p, t) && Code(s.pc[p]).Signal?
    ensures u == s || exists w: nat :: w != p && Wakes(s, w, u)
    ensures Signals(s, s.pc[p].phase.Other(), u)
    ensures Moves(a, u, p, t) && u.pc[p] == s.pc[p]
  {
    var asleep := PC(s.pc[p].phase.Other(), Asleep);
    u :| Signals(s, s.pc[p].phase.Other(), u) && |u.pc| == |s.pc| && t == u.Goto(p, Code(s.pc[p]).next);
    if s.SomeAt(asleep) {
      var w: nat :| s.IsAt(w, asleep) && Wakes(s, w, u);
      assert asleep.phase.Landing? ==> AwakeLanding(u.pc[w]);
    }
  }

  lemma StepInv(a: Airport, s: State, act: Action, t: State)
    requires a.Valid() && Inv(a, s) && Step(a, s, act, t)
    ensures Inv(a, t)
  {
    if act.Run? && Code(s.pc[act.p]).Signal? {
      var u := SignalSplits(a, s, act.p, t);
      if u != s {
        var w: nat :| w != act.p && Wakes(s, w, u);
        MoveInv(a, s, w, u);
      }
      MoveInv(a, u, act.p, t);
    } else {
      MoveInv(a, s, act.p, t);
    }
  }

  /** The invariant holds in every state of every run. */
  lemma {:induction false} ReachableInv(a: Airport, states: seq<State>, acts: seq<Action>, i: nat)
    requires a.Valid() && Execution(a, states, acts) && Init(a, states[0]) && i < |states|
    ensures Inv(a, states[i])
  {
    if i == 0 {
      InitInv(a, states[0]);
    } else {
      ReachableInv(a, states, acts, i - 1);
      StepInv(a, states[i - 1], acts[i - 1], states[i]);
    }
  }

  // ---------------------------------------------------------- main results

  /** Counting: in every reachable state the shared counters equal the planes in their regions,
      the deck never overflows, and fewer than min(K, P) planes sleep on deck. */
  lemma CountersAreExact(a: Airport, states: seq<State>, acts: seq<Action>, i: nat)
    requires a.Valid() && Execution(a, states, acts) && Init(a, states[0]) && i < |states|
    ensures var s := states[i];
      && 0 <= s.board == Sum(s.pc, AboardW) <= a.n
      && 0 <= s.waitLand == Sum(s.pc, ToLandW)
      && 0 <= s.waitTake == Sum(s.pc, ToTakeoffW)
      && Sum(s.pc, DeckSleeperW) < a.k && Sum(s.pc, DeckSleeperW) < a.planes
  {
    ReachableInv(a, states, acts, i);
    SumNonNegative(states[i].pc, AboardW);
    SumNonNegative(states[i].pc, ToLandW);
    SumNonNegative(states[i].pc, ToTakeoffW);
  }

  /** While planes sleep in the air, the deck count is at most one below K, and when it is one below,
      an awake plane is on its way to land or a take-off is about to signal. */
  lemma AirSleepersNearThreshold(a: Airport, states: seq<State>, acts: seq<Action>, i: nat)
    requires a.Valid() && Execution(a, states, acts) && Init(a, states[0]) && i < |states|
    requires Sleeps(states[i], Landing)
    ensures a.k - 1 <= states[i].board
    ensures states[i].board == a.k - 1 ==>
      SomeAwakeLanding(states[i]) || states[i].SomeAt(PC(Takeoff, Notify))
  {
    ReachableInv(a, states, acts, i);
  }

  /** Mutexes are only released by their owners, and two planes never own the same one. */
  lemma LockDiscipline(a: Airport, states: seq<State>, acts: seq<Action>, i: nat, p: nat, m: Mutex)
    requires a.Valid() && Execution(a, states, acts) && Init(a, states[0]) && i < |states|
    requires p < |states[i].pc|
    ensures Holds(states[i].pc[p], m) <==> states[i].OwnerOf(m) == By(p)
    ensures Code(states[i].pc[p]).Unlock? ==> states[i].OwnerOf(Code(states[i].pc[p]).m) == By(p)
    ensures Code(states[i].pc[p]).Sleep? ==> states[i].strip == By(p)
  {
    ReachableInv(a, states, acts, i);
    assert LockOk(states[i], p, m);
    assert Code(states[i].pc[p]).Unlock? ==> LockOk(states[i], p, Code(states[i].pc[p]).m);
    assert LockOk(states[i], p, Strip);
  }

  /** The plane's next instruction is not blocked. */
  predicate Ready(s: State, p: nat) {
    p < |s.pc| &&
    match Code(s.pc[p])
    case Lock(m, _) => s.OwnerOf(m) == Free
    case Blocked(_) => false
    case _ => true
  }

  /** The state after a statement that is not blocked and sends no signal. */
  function After(a: Airport, s: State, p: nat): State
    requires Ready(s, p) && !Code(s.pc[p]).Signal?
  {
    match Code(s.pc[p])
    case Lock(m, next) => s.WithOwner(m, By(p)).Goto(p, next)
    case Unlock(m, next) => s.WithOwner(m, Free).Goto(p, next)
    case Count(d, next) => s.WithCount(s.pc[p].phase, d).Goto(p, next)
    case Board(d, next) => s.(board := s.board + d).Goto(p, next)
    case Guard(refused, cleared) => s.Goto(p, if Refused(a, s, s.pc[p].phase) then refused else cleared)
    case Sleep(asleep) => s.WithOwner(Strip, Free).Goto(p, asleep)
    case Blocked(_) => s
  }

  lemma ReadyCanStep(a: Airport, s: State, p: nat) returns (t: State)
    requires Ready(s, p)
    ensures PlaneStep(a, s, p, t)
    ensures !Code(s.pc[p]).Signal? ==> t == After(a, s, p)
  {
    if Code(s.pc[p]).Signal? {
      var phase := s.pc[p].phase.Other();
      var u := s;
      if s.SomeAt(PC(phase, Asleep)) {
        var w: nat :| s.IsAt(w, PC(phase, Asleep));
        u := s.Goto(w, s.pc[w].(place := Woken));
        assert Wakes(s, w, u);
      }
      assert Signals(s, phase, u);
      t := u.Goto(p, Code(s.pc[p]).next);
    } else {
      t := After(a, s, p);
    }
  }

  /** What the two tests decide, in numbers; they change nothing else. */
  lemma TestsInNumbers(a: Airport, s: State, p: nat, t: State)
    requires PlaneStep(a, s, p, t) && s.pc[p].place == Test
    ensures var cleared :=
        if s.pc[p].phase.Landing? then s.board != a.n && (s.board < a.k || s.waitTake <= 0)
        else a.k <= s.board || s.waitLand <= 0;
      t == s.Goto(p, s.pc[p].(place := if cleared then Cleared else Yield))
  {
  }

  /** In every reachable state, a plane cannot execute exactly when it is asleep or its next statement locks a mutex
      that another plane owns; and a sleeper can always wake spuriously. */
  lemma BlockedExactlyWhen(a: Airport, states: seq<State>, acts: seq<Action>, i: nat, p: nat)
    requires a.Valid() && Execution(a, states, acts) && Init(a, states[0]) && i < |states| && p < |states[i].pc|
    ensures var s := states[i];
      (exists t :: PlaneStep(a, s, p, t)) <==>
        !(s.pc[p].place == Asleep ||
          (Code(s.pc[p]).Lock? && exists q: nat :: q < |s.pc| && q != p && Holds(s.pc[q], Code(s.pc[p]).m)))
    ensures states[i].pc[p].place == Asleep ==> exists t :: Step(a, states[i], SpuriousWake(p), t)
  {
    ReachableInv(a, states, acts, i);
    var s := states[i];
    if Ready(s, p) {
      var t := ReadyCanStep(a, s, p);
    }
    if Code(s.pc[p]).Lock? {
      LockTaken(s, p, Code(s.pc[p]).m);
    }
    if s.pc[p].place == Asleep {
      assert Step(a, s, SpuriousWake(p), s.Goto(p, s.pc[p].(place := Woken)));
    }
  }

  /** Where a plane locks a mutex it does not own it, so whoever owns it is another plane. */
  lemma LockTaken(s: State, p: nat, m: Mutex)
    requires LocksOk(s) && p < |s.pc| && Code(s.pc[p]).Lock? && m == Code(s.pc[p]).m
    ensures s.OwnerOf(m) != Free <==> exists q: nat :: q < |s.pc| && q != p && Holds(s.pc[q], m)
  {
    assert LockOk(s, p, m);
    if s.OwnerOf(m).By? {
      assert LockOk(s, s.OwnerOf(m).thread, m);
    } else {
      forall q: nat | q < |s.pc|
        ensures !Holds(s.pc[q], m)
      {
        assert LockOk(s, q, m);
      }
    }
  }

  /** Not every plane can be asleep: the two tests refuse on opposite sides of K. */
  lemma SomebodyIsAwake(a: Airport, s: State) returns (p: nat)
    requires a.Valid() && Inv(a, s)
    ensures p < |s.pc| && s.pc[p].place != Asleep
  {
    if forall q :: 0 <= q < |s.pc| ==> s.pc[q].place == Asleep {
      SumMonotone(s.pc, AboardW, DeckSleeperW);
      if forall q :: 0 <= q < |s.pc| ==> s.pc[q] == PC(Takeoff, Asleep) {
        SumConstant(s.pc, DeckSleeperW, 1);
      } else {
        var q: nat :| q < |s.pc| && s.pc[q] != PC(Takeoff, Asleep);
        assert s.IsAt(q, PC(Landing, Asleep));
      }
      assert false;
    }
    p :| 0 <= p < |s.pc| && s.pc[p].place != Asleep;
  }

  /** The strip comes before the counter mutexes, which are never held together:
      an awake plane either runs, or waits for somebody who does. */
  lemma AwakeMeansProgress(s: State, p: nat) returns (q: nat)
    requires LocksOk(s) && p < |s.pc| && s.pc[p].place != Asleep
    ensures Ready(s, q)
  {
    q := p;
    if s.strip.By? {
      q := s.strip.thread;
      assert LockOk(s, q, Strip);
    }
    if !Ready(s, q) {
      var m := Code(s.pc[q]).m;
      assert s.OwnerOf(m).By?;
      var r := s.OwnerOf(m).thread;
      assert LockOk(s, r, m) && LockOk(s, r, Strip) && LockOk(s, q, m) && LockOk(s, q, Strip);
      q := r;
    }
  }

  /** Deadlock freedom: in every reachable state some plane that is not asleep can execute. */
  lemma DeadlockFree(a: Airport, states: seq<State>, acts: seq<Action>, i: nat)
    requires a.Valid() && Execution(a, states, acts) && Init(a, states[0]) && i < |states|
    ensures exists p, t :: PlaneStep(a, states[i], p, t)
  {
    ReachableInv(a, states, acts, i);
    var p := SomebodyIsAwake(a, states[i]);
    var q := AwakeMeansProgress(states[i], p);
    var t := ReadyCanStep(a, states[i], q);
  }

  /** Who has priority: a plane touches down only below N, and at K or more only when nobody sleeps on deck;
      a plane lifts off below K only when nobody sleeps in the air. */
  lemma Priority(a: Airport, states: seq<State>, acts: seq<Action>, i: nat, p: nat)
    requires a.Valid() && Execution(a, states, acts) && Init(a, states[0]) && i < |states|
    requires p < |states[i].pc| && states[i].pc[p].place == Crossing
    ensures var s := states[i];
      if s.pc[p].phase.Landing? then s.board < a.n && (a.k <= s.board ==> !Sleeps(s, Takeoff))
      else 0 < s.board && (s.board < a.k ==> !Sleeps(s, Landing))
  {
    ReachableInv(a, states, acts, i);
    assert LocalOk(a, states[i], states[i].pc[p]);
    SumIncludesOne(states[i].pc, p, AboardW);
  }

  // ------------------------------------------------------------- throughput

  /** How far a plane is from crossing the deck's edge or falling asleep. A signal pays for its wake-up. */
  function Distance(pc: PC): (d: int)
    ensures 0 <= d <= 19
  {
    match pc.place
    case Notify => 19
    case Leave => 11
    case Arriving => 10
    case Enqueue => 9
    case Queued => 8
    case WantStrip => 7
    case LockOther => 6
    case Test => 5
    case Woken => 7
    case Relock => 6
    case Yield => 2
    case Wait => 1
    case Asleep => 0
    case Cleared => 4
    case LockOwn => 3
    case Dequeue => 2
    case UnlockOwn => 1
    case Crossing => 0
  }

  /** The step is a touch-down or a lift-off. */
  predicate Crosses(s: State, act: Action) {
    act.Run? && act.p < |s.pc| && s.pc[act.p].place == Crossing
  }

  /** The budget a step adds: a crossing starts a new cycle, a spurious wake-up repeats a test. */
  function Grant(s: State, act: Action): int {
    (if Crosses(s, act) then 20 else 0) + (if act.SpuriousWake? then 8 else 0)
  }

  function Granted(states: seq<State>, acts: seq<Action>): int
    requires |acts| <= |states|
  {
    if acts == [] then 0 else Grant(states[0], acts[0]) + Granted(states[1..], acts[1..])
  }

  /** The change of the total distance when a plane leaves `place`. */
  function Advance(place: Place): int {
    match place
    case Asleep => 7
    case Notify => -8
    case Crossing => 19
    case _ => -1
  }

  lemma CodeDistance(a: Airport, s: State, p: nat, t: State)
    requires Moves(a, s, p, t) && t.pc[p].place != s.pc[p].place
    ensures Distance(t.pc[p]) <= Distance(s.pc[p]) + Advance(s.pc[p].place)
  {
    match Code(s.pc[p])
    case Lock(_, next) => assert Distance(next) < Distance(s.pc[p]);
    case Unlock(_, next) => assert Distance(next) < Distance(s.pc[p]);
    case Count(_, next) => assert Distance(next) < Distance(s.pc[p]);
    case Board(_, next) =>
    case Guard(refused, cleared) =>
    case Sleep(_) =>
    case Blocked(_) =>
    case Signal(_) =>
  }

  lemma MoveDistance(a: Airport, s: State, p: nat, t: State)
    requires Moves(a, s, p, t)
    ensures |t.pc| == |s.pc|
    ensures Sum(t.pc, Distance) <= Sum(s.pc, Distance) + Advance(s.pc[p].place)
  {
    MoveShape(a, s, p, t);
    CodeDistance(a, s, p, t);
    SumUpdate(s.pc, p, t.pc[p], Distance);
  }

  lemma WakeDistance(s: State, w: nat, u: State)
    requires Wakes(s, w, u)
    ensures |u.pc| == |s.pc| && Sum(u.pc, Distance) == Sum(s.pc, Distance) + 7
  {
    SumUpdate(s.pc, w, u.pc[w], Distance);
  }

  lemma SignalDistance(a: Airport, s: State, p: nat, t: State)
    requires PlaneStep(a, s, p, t) && Code(s.pc[p]).Signal?
    ensures Sum(t.pc, Distance) + 1 <= Sum(s.pc, Distance) && |t.pc| == |s.pc|
  {
    var u := SignalSplits(a, s, p, t);
    assert u.pc[p].place == Notify;
    if u != s {
      var w: nat :| w != p && Wakes(s, w, u);
      WakeDistance(s, w, u);
    }
    MoveDistance(a, u, p, t);
  }

  lemma StepDistance(a: Airport, s: State, act: Action, t: State)
    requires Step(a, s, act, t)
    ensures Sum(t.pc, Distance) + 1 <= Sum(s.pc, Distance) + Grant(s, act)
    ensures |t.pc| == |s.pc|
  {
    if act.Run? && Code(s.pc[act.p]).Signal? {
      SignalDistance(a, s, act.p, t);
    } else {
      MoveDistance(a, s, act.p, t);
    }
  }

  lemma {:induction false} ExecutionDistance(a: Airport, states: seq<State>, acts: seq<Action>)
    requires Execution(a, states, acts)
    ensures |states[|acts|].pc| == |states[0].pc|
    ensures |acts| + Sum(states[|acts|].pc, Distance) <= Sum(states[0].pc, Distance) + Granted(states, acts)
  {
    if acts == [] {
    } else {
      StepDistance(a, states[0], acts[0], states[1]);
      assert Execution(a, states[1..], acts[1..]) by {
        forall i | 0 <= i < |acts[1..]|
          ensures Step(a, states[1..][i], acts[1..][i], states[1..][i + 1])
        {
          assert Step(a, states[i + 1], acts[i + 1], states[i + 2]);
        }
      }
      ExecutionDistance(a, states[1..], acts[1..]);
    }
  }

  /** Throughput: whatever the scheduler does, a run of n steps of P planes contains enough crossings
      and spurious wake-ups to pay for it: n <= 19 P + 20 crossings + 8 spurious wake-ups. */
  lemma {:induction false} Throughput(a: Airport, states: seq<State>, acts: seq<Action>)
    requires Execution(a, states, acts)
    ensures |acts| <= 19 * |states[0].pc| + Granted(states, acts)
  {
    ExecutionDistance(a, states, acts);
    SumBounds(states[0].pc, Distance, 0, 19);
    SumNonNegative(states[|acts|].pc, Distance);
  }

  lemma {:induction false} NothingGranted(states: seq<State>, acts: seq<Action>)
    requires |acts| <= |states|
    requires forall i :: 0 <= i < |acts| ==> acts[i].Run? && !Crosses(states[i], acts[i])
    ensures Granted(states, acts) == 0
  {
    if acts == [] {
    } else {
      assert acts[0].Run? && !Crosses(states[0], acts[0]);
      forall i | 0 <= i < |acts[1..]|
        ensures acts[1..][i].Run? && !Crosses(states[1..][i], acts[1..][i])
      {
        assert acts[i + 1].Run? && !Crosses(states[i + 1], acts[i + 1]);
      }
      NothingGranted(states[1..], acts[1..]);
    }
  }

  /** Hence no schedule without spurious wake-ups runs for more than 19 P steps before a plane lands or takes off. */
  lemma SomebodyCrosses(a: Airport, states: seq<State>, acts: seq<Action>) returns (i: nat)
    requires Execution(a, states, acts) && 19 * |states[0].pc| < |acts|
    requires forall i :: 0 <= i < |acts| ==> acts[i].Run?
    ensures i < |acts| && Crosses(states[i], acts[i])
  {
    if forall i :: 0 <= i < |acts| ==> !Crosses(states[i], acts[i]) {
      NothingGranted(states, acts);
      Throughput(a, states, acts);
      assert false;
    }
    i :| 0 <= i < |acts| && Crosses(states[i], acts[i]);
  }
}
