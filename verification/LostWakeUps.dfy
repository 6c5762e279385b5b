/** When the single signals of cw09/zad2 lose a wake-up: a plane stays asleep although the condition
    of its loop is false, every other plane is asleep or outside the monitor, and nobody will signal it
    before starting a new cycle. */
module LostWakeUps {
  import opened Sums
  import opened Mutexes
  import opened LandingStrip
  import opened LandingSections

  /** A plane sleeps in `phase` for nothing, and nobody else is under way. */
  ghost predicate Lost(a: Airport, s: State, phase: Phase) {
    && Sleeps(s, phase) && !Refused(a, s, phase)
    && forall q :: 0 <= q < |s.pc| ==> s.pc[q].place == Asleep || s.pc[q].place == Arriving
  }

  ghost predicate CanLose(a: Airport, phase: Phase) {
    exists states: seq<State>, acts: seq<Action> ::
      Execution(a, states, acts) && Init(a, states[0]) && Lost(a, states[|acts|], phase)
  }

  // ---------------------------------------------------- where none is lost

  /** The plane has changed, or is about to change, what sleepers of `phase` wait for, and will signal them. */
  predicate WillSignal(pc: PC, phase: Phase) {
    pc.phase == phase.Other() && (pc.place.UnlockOwn? || pc.place.Crossing? || pc.place.Notify?)
  }

  ghost predicate SignalDue(s: State, phase: Phase) {
    exists p: nat :: p < |s.pc| && WillSignal(s.pc[p], phase)
  }

  /** Sleepers of `phase` are refused, or will be signalled. */
  ghost predicate Backed(a: Airport, s: State, phase: Phase) {
    Sleeps(s, phase) ==> Refused(a, s, phase) || SignalDue(s, phase)
  }

  function AirSleeperW(pc: PC): int { One(pc == PC(Landing, Asleep)) }

  function Sleepers(s: State, phase: Phase): int {
    if phase.Landing? then Sum(s.pc, AirSleeperW) else Sum(s.pc, DeckSleeperW)
  }

  lemma SleepersCount(s: State, phase: Phase, q: nat)
    requires s.IsAt(q, PC(phase, Asleep))
    ensures 1 <= Sleepers(s, phase)
  {
    SumIncludesOne(s.pc, q, if phase.Landing? then AirSleeperW else DeckSleeperW);
  }

  /** Waking the only sleeper leaves none. */
  lemma SignalEmpties(s: State, phase: Phase, u: State)
    requires Signals(s, phase, u) && (Sleeps(s, phase) ==> Sleepers(s, phase) <= 1)
    ensures !Sleeps(u, phase)
  {
    if Sleeps(s, phase) {
      var w: nat :| s.IsAt(w, PC(phase, Asleep)) && Wakes(s, w, u);
      SumUpdate(s.pc, w, u.pc[w], if phase.Landing? then AirSleeperW else DeckSleeperW);
      forall q: nat | u.IsAt(q, PC(phase, Asleep))
        ensures false
      {
        SleepersCount(u, phase, q);
      }
    }
  }

  /** A move other than the awaited signal keeps every sleeper backed. */
  lemma MoveBacked(a: Airport, s: State, p: nat, t: State, phase: Phase)
    requires Moves(a, s, p, t) && LocalOk(a, s, s.pc[p]) && Backed(a, s, phase)
    requires s.pc[p] == PC(phase.Other(), Notify) ==> !Sleeps(s, phase)
    ensures Backed(a, t, phase)
  {
    MoveShape(a, s, p, t);
    if Sleeps(t, phase) {
      if s.pc[p] != PC(phase, Wait) && !Sleeps(s, phase) {
        MoveKeepsClear(a, s, p, t, phase);
      }
      if s.pc[p] == PC(phase, Wait) {
        assert Refused(a, t, phase);
      } else if WillSignal(t.pc[p], phase) {
        assert SignalDue(t, phase);
      } else if Refused(a, s, phase) {
        assert Refused(a, t, phase);
      } else {
        var q: nat :| q < |s.pc| && WillSignal(s.pc[q], phase);
        assert q != p;
        assert WillSignal(t.pc[q], phase);
      }
    }
  }

  /** Too small an airport for two sleepers of `phase` at the moment of a signal. */
  predicate Small(a: Airport, phase: Phase) {
    match phase
    case Landing => a.planes <= a.k + 1
    case Takeoff => a.k < 3 || a.planes < 3
  }

  /** Whoever sleeps in the air while a take-off is about to signal is alone: at least K-1 planes are aboard,
      and the plane that has just taken off is neither aboard nor asleep. */
  lemma AloneInAir(a: Airport, s: State, p: nat)
    requires Inv(a, s) && a.planes <= a.k + 1 && s.IsAt(p, PC(Takeoff, Notify)) && Sleeps(s, Landing)
    ensures Sum(s.pc, AirSleeperW) <= 1
  {
    var weight := (pc: PC) => AirSleeperW(pc) + AboardW(pc);
    SumPlus(s.pc, AirSleeperW, AboardW, weight);
    var asleep := PC(Landing, Asleep);
    SumUpdate(s.pc, p, asleep, weight);
    SumBounds(s.pc[p := asleep], weight, 0, 1);
  }

  lemma FewSleepers(a: Airport, s: State, p: nat, phase: Phase)
    requires Inv(a, s) && Small(a, phase) && s.IsAt(p, PC(phase.Other(), Notify)) && Sleeps(s, phase)
    ensures Sleepers(s, phase) <= 1
  {
    if phase.Landing? {
      AloneInAir(a, s, p);
    }
  }

  lemma WakeBacked(a: Airport, s: State, w: nat, u: State, phase: Phase)
    requires a.Valid() && Inv(a, s) && Wakes(s, w, u) && Backed(a, s, phase)
    ensures Inv(a, u) && Backed(a, u, phase)
  {
    assert LocalOk(a, s, s.pc[w]);
    MoveInv(a, s, w, u);
    MoveBacked(a, s, w, u, phase);
  }

  /** The awaited signal wakes the only sleeper. */
  lemma NoneLeft(a: Airport, s: State, p: nat, u: State, phase: Phase)
    requires Inv(a, s) && Small(a, phase) && s.IsAt(p, PC(phase.Other(), Notify)) && Signals(s, phase, u)
    ensures !Sleeps(u, phase)
  {
    if Sleeps(s, phase) {
      FewSleepers(a, s, p, phase);
    }
    SignalEmpties(s, phase, u);
  }

  /** The wake-up of a signal, before the signaller's own move. */
  lemma SignalWakes(a: Airport, s: State, p: nat, t: State, phase: Phase) returns (u: State)
    requires a.Valid() && Inv(a, s) && PlaneStep(a, s, p, t) && Code(s.pc[p]).Signal?
    requires Small(a, phase) && Backed(a, s, phase)
    ensures Inv(a, u) && Backed(a, u, phase) && Moves(a, u, p, t) && u.pc[p] == s.pc[p]
    ensures s.pc[p] == PC(phase.Other(), Notify) ==> !Sleeps(u, phase)
  {
    u := SignalSplits(a, s, p, t);
    if s.pc[p] == PC(phase.Other(), Notify) {
      NoneLeft(a, s, p, u, phase);
    }
    if u != s {
      var w: nat :| w != p && Wakes(s, w, u);
      WakeBacked(a, s, w, u, phase);
    }
  }

  lemma SignalBacked(a: Airport, s: State, p: nat, t: State, phase: Phase)
    requires a.Valid() && Inv(a, s) && PlaneStep(a, s, p, t) && Code(s.pc[p]).Signal?
    requires Small(a, phase) && Backed(a, s, phase)
    ensures Backed(a, t, phase)
  {
    var u := SignalWakes(a, s, p, t, phase);
    assert LocalOk(a, u, u.pc[p]);
    MoveBacked(a, u, p, t, phase);
  }

  lemma StepBacked(a: Airport, s: State, act: Action, t: State, phase: Phase)
    requires a.Valid() && Inv(a, s) && Step(a, s, act, t) && Small(a, phase) && Backed(a, s, phase)
    ensures Backed(a, t, phase)
  {
    if act.Run? && Code(s.pc[act.p]).Signal? {
      SignalBacked(a, s, act.p, t, phase);
    } else {
      assert LocalOk(a, s, s.pc[act.p]);
      MoveBacked(a, s, act.p, t, phase);
    }
  }

  lemma {:induction false} ReachableBacked(a: Airport, states: seq<State>, acts: seq<Action>, i: nat, phase: Phase)
    requires a.Valid() && Execution(a, states, acts) && Init(a, states[0]) && i < |states| && Small(a, phase)
    ensures Backed(a, states[i], phase)
  {
    if i == 0 {
      assert forall p: nat :: !states[0].IsAt(p, PC(phase, Asleep));
    } else {
      ReachableBacked(a, states, acts, i - 1, phase);
      ReachableInv(a, states, acts, i - 1);
      StepBacked(a, states[i - 1], acts[i - 1], states[i], phase);
    }
  }

  lemma NoneLostWhenSmall(a: Airport, phase: Phase)
    requires a.Valid() && Small(a, phase)
    ensures !CanLose(a, phase)
  {
    forall states: seq<State>, acts: seq<Action> | Execution(a, states, acts) && Init(a, states[0])
      ensures !Lost(a, states[|acts|], phase)
    {
      ReachableBacked(a, states, acts, |acts|, phase);
    }
  }

  /** With K = N, a plane asleep in the air sees a full deck, or somebody is under way. */
  lemma NoneLostWhenFull(a: Airport)
    requires a.Valid() && a.k == a.n
    ensures !CanLose(a, Landing)
  {
    forall states: seq<State>, acts: seq<Action> | Execution(a, states, acts) && Init(a, states[0])
      ensures !Lost(a, states[|acts|], Landing)
    {
      ReachableInv(a, states, acts, |acts|);
    }
  }

  // ------------------------------------------------------ where one is lost

  function Start(a: Airport): State {
    State(seq(a.planes, _ => PC(Landing, Arriving)), Free, Free, Free, 0, 0, 0)
  }

  /** A plane outside the monitor goes through its next section without waiting and without waking anybody. */
  lemma Passes(a: Airport, s0: State, s: State, p: nat)
    requires Reaches(a, s0, s) && Calm(s) && p < |s.pc| && s.pc[p].place == Arriving
    requires !Refused(a, s, s.pc[p].phase) && !Sleeps(s, s.pc[p].phase.Other())
    ensures Reaches(a, s0, Crossed(Joined(s, p), p)) && Calm(Crossed(Joined(s, p), p))
  {
    Join(a, s0, s, p);
    var t, asleep := Joined(s, p), PC(s.pc[p].phase.Other(), Asleep);
    assert forall q: nat :: t.IsAt(q, asleep) ==> s.IsAt(q, asleep);
    Cross(a, s0, t, p, p);
  }

  /** A plane outside the monitor joins its queue and falls asleep. */
  lemma Waits(a: Airport, s0: State, s: State, p: nat)
    requires Reaches(a, s0, s) && Calm(s) && p < |s.pc| && s.pc[p].place == Arriving
    requires Refused(a, s, s.pc[p].phase)
    ensures Reaches(a, s0, Slept(Joined(s, p), p)) && Calm(Slept(Joined(s, p), p))
  {
    Join(a, s0, s, p);
    Refuse(a, s0, Joined(s, p), p);
  }

  /** Planes 0 and 1 have landed and sleep on deck behind plane 2, which is about to enter the strip. */
  lemma TwoSleepOnDeck(a: Airport) returns (s: State)
    requires a.Valid() && 3 <= a.k && 3 <= a.planes
    ensures Reaches(a, Start(a), s) && Calm(s) && |s.pc| == a.planes
    ensures s.pc == Start(a).pc[0 := PC(Takeoff, Asleep)][1 := PC(Takeoff, Asleep)][2 := PC(Landing, WantStrip)]
    ensures s.board == 2 && s.waitLand == 1 && s.waitTake == 2
  {
    var s0 := Start(a);
    Stay(a, s0);
    Passes(a, s0, s0, 0);
    var s1 := Crossed(Joined(s0, 0), 0);
    Passes(a, s0, s1, 1);
    var s2 := Crossed(Joined(s1, 1), 1);
    Join(a, s0, s2, 2);
    var s3 := Joined(s2, 2);
    Waits(a, s0, s3, 0);
    var s4 := Slept(Joined(s3, 0), 0);
    Waits(a, s0, s4, 1);
    s := Slept(Joined(s4, 1), 1);
  }

  /** Plane 2 lands and wakes plane 0, which takes off: plane 1 sleeps on although nobody waits to land any more. */
  lemma LostOnDeck(a: Airport)
    requires a.Valid() && 3 <= a.k && 3 <= a.planes
    ensures exists s :: Reaches(a, Start(a), s) && Lost(a, s, Takeoff)
  {
    var s := TwoSleepOnDeck(a);
    var s0 := Start(a);
    assert s.IsAt(0, PC(Takeoff, Asleep));
    Cross(a, s0, s, 2, 0);
    var t := Crossed(Roused(s, 0), 2);
    assert forall q: nat :: !t.IsAt(q, PC(Landing, Asleep));
    Cross(a, s0, t, 0, 0);
    var u := Crossed(t, 0);
    assert Roused(t, 0) == t;
    assert u.IsAt(1, PC(Takeoff, Asleep));
    assert Lost(a, u, Takeoff);
  }

  /** The first `k` planes are on deck, everybody is outside the monitor. */
  function Parked(a: Airport, k: nat): State {
    State(seq(a.planes, i => PC(if i < k then Takeoff else Landing, Arriving)), Free, Free, Free, k, 0, 0)
  }

  lemma {:induction false} PlanesLand(a: Airport, k: nat)
    requires a.Valid() && k <= a.n && k <= a.planes
    ensures Reaches(a, Start(a), Parked(a, k))
  {
    if k == 0 {
      assert Parked(a, 0).pc == Start(a).pc;
      Stay(a, Start(a));
    } else {
      PlanesLand(a, k - 1);
      var s := Parked(a, k - 1);
      Passes(a, Start(a), s, k - 1);
      assert Crossed(Joined(s, k - 1), k - 1).pc == Parked(a, k).pc;
    }
  }

  /** The deck fills up to N, or to the whole fleet: nobody who may land is kept in the air. */
  lemma DeckFills(a: Airport, k: nat)
    requires a.Valid() && k <= a.n && k <= a.planes
    ensures exists states: seq<State>, acts: seq<Action> ::
      && Execution(a, states, acts) && Init(a, states[0])
      && states[|acts|].board == k && states[|acts|].waitLand == 0 == states[|acts|].waitTake
  {
    PlanesLand(a, k);
    var states: seq<State>, acts: seq<Action> :| Leads(a, states, acts, Start(a), Parked(a, k));
    assert Init(a, Start(a));
  }

  /** K planes are on deck and plane 0 is about to enter the strip; planes K and K+1 sleep in the air. */
  lemma TwoSleepInAir(a: Airport) returns (s: State)
    requires a.Valid() && a.k < a.n && a.k + 2 <= a.planes
    ensures Reaches(a, Start(a), s) && Calm(s) && |s.pc| == a.planes
    ensures s.pc ==
      Parked(a, a.k).pc[0 := PC(Takeoff, WantStrip)][a.k := PC(Landing, Asleep)][a.k + 1 := PC(Landing, Asleep)]
    ensures s.board == a.k && s.waitLand == 2 && s.waitTake == 1
  {
    var s0 := Start(a);
    PlanesLand(a, a.k);
    var s1 := Parked(a, a.k);
    Join(a, s0, s1, 0);
    var s2 := Joined(s1, 0);
    Waits(a, s0, s2, a.k);
    var s3 := Slept(Joined(s2, a.k), a.k);
    Waits(a, s0, s3, a.k + 1);
    s := Slept(Joined(s3, a.k + 1), a.k + 1);
  }

  /** Plane 0 takes off and wakes plane K, which lands: plane K+1 sleeps on although nobody waits to take off. */
  lemma LostInAir(a: Airport)
    requires a.Valid() && a.k < a.n && a.k + 2 <= a.planes
    ensures exists s :: Reaches(a, Start(a), s) && Lost(a, s, Landing)
  {
    var s := TwoSleepInAir(a);
    var s0 := Start(a);
    assert s.IsAt(a.k, PC(Landing, Asleep));
    Cross(a, s0, s, 0, a.k);
    var t := Crossed(Roused(s, a.k), 0);
    assert forall q: nat :: !t.IsAt(q, PC(Takeoff, Asleep));
    Cross(a, s0, t, a.k, a.k);
    var u := Crossed(t, a.k);
    assert Roused(t, a.k) == t;
    assert u.IsAt(a.k + 1, PC(Landing, Asleep));
    assert Lost(a, u, Landing);
  }

  // ---------------------------------------------------------- main results

  lemma RunsFromStart(a: Airport, s: State, phase: Phase)
    requires a.Valid() && Reaches(a, Start(a), s) && Lost(a, s, phase)
    ensures CanLose(a, phase)
  {
    var states: seq<State>, acts: seq<Action> :| Leads(a, states, acts, Start(a), s);
    assert Init(a, Start(a));
  }

  /** A wake-up on `landed` can be lost exactly when two planes can sleep on deck while a third one lands. */
  lemma LosesOnDeckExactlyWhen(a: Airport)
    requires a.Valid()
    ensures CanLose(a, Takeoff) <==> 3 <= a.k && 3 <= a.planes
  {
    if 3 <= a.k && 3 <= a.planes {
      LostOnDeck(a);
      var s :| Reaches(a, Start(a), s) && Lost(a, s, Takeoff);
      RunsFromStart(a, s, Takeoff);
    } else {
      NoneLostWhenSmall(a, Takeoff);
    }
  }

  /** A wake-up on `took_off` can be lost exactly when two planes can sleep in the air beside K on a deck
      that has room for more. */
  lemma LosesInAirExactlyWhen(a: Airport)
    requires a.Valid()
    ensures CanLose(a, Landing) <==> a.k < a.n && a.k + 2 <= a.planes
  {
    if a.k < a.n && a.k + 2 <= a.planes {
      LostInAir(a);
      var s :| Reaches(a, Start(a), s) && Lost(a, s, Landing);
      RunsFromStart(a, s, Landing);
    } else if a.k == a.n {
      NoneLostWhenFull(a);
    } else {
      NoneLostWhenSmall(a, Landing);
    }
  }

  /** The constants of the program: 15 planes, K = 5, N = 10. */
  lemma TheProgramLosesBoth()
    ensures CanLose(Airport(15, 5, 10), Takeoff) && CanLose(Airport(15, 5, 10), Landing)
  {
    LosesOnDeckExactlyWhen(Airport(15, 5, 10));
    LosesInAirExactlyWhen(Airport(15, 5, 10));
  }
}
