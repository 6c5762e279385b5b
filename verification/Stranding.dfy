/** The monitor of cw09/zad1 under partial cancellation: for which sets of cancelled threads a philosopher can be
    left asleep with nobody able to move. The program's own handler goes on to cancel every thread, which wakes such
    a sleeper; here the requests stop at a given set. */
module Stranding {
  import opened Mutexes
  import opened Philosophers

  /** Nobody can move, and a living thread is asleep. */
  ghost predicate Stranded(s: State) {
    DeadOrAsleep(s) && exists i :: 0 <= i < |s.pc| && s.pc[i] == Asleep
  }

  predicate CancelledAre(s: State, gone: set<nat>) {
    forall i: nat :: i < |s.cancelled| ==> (s.cancelled[i] <==> i in gone)
  }

  /** Some run strands a philosopher when exactly the threads in `gone` are cancelled. */
  ghost predicate CanStrand(n: nat, gone: set<nat>)
    requires 2 <= n
  {
    exists states: seq<State>, acts: seq<Action> ::
      && Execution(n, states, acts) && Init(n, states[0])
      && Stranded(states[|acts|]) && CancelledAre(states[|acts|], gone)
  }

  /** The philosophers in `eaters` are cancelled, can eat at the same time, and every survivor sits beside one. */
  predicate Blocks(n: nat, gone: set<nat>, eaters: set<nat>)
    requires 2 <= n
  {
    && eaters <= gone && (forall i :: i in eaters ==> i < n)
    && (forall i: nat :: i in eaters ==> Left(n, i) !in eaters && Right(n, i) !in eaters)
    && (forall i: nat :: i < n && i !in gone ==> Left(n, i) in eaters || Right(n, i) in eaters)
  }

  ghost predicate Survives(n: nat, gone: set<nat>) {
    exists i: nat :: i < n && i !in gone
  }

  /** The dead eaters of a stranded state block its survivors. */
  lemma StrandedIsBlocked(n: nat, s: State, gone: set<nat>)
    requires 2 <= n && Inv(n, s) && Stranded(s) && CancelledAre(s, gone)
    ensures Survives(n, gone) && exists eaters :: Blocks(n, gone, eaters)
  {
    StuckState(n, s);
    var eaters := set i: nat | i < n && s.philo[i] == EAT;
    forall i: nat | i in eaters
      ensures i in gone && Left(n, i) !in eaters && Right(n, i) !in eaters
    {
      assert ThreadOk(n, s, i);
      assert !EatsBeside(s.philo, i);
    }
    forall i: nat | i < n && i !in gone
      ensures Left(n, i) in eaters || Right(n, i) in eaters
    {
      assert ThreadOk(n, s, i);
      assert BesideDeadEater(n, s, i);
    }
    assert Blocks(n, gone, eaters);
    var i: nat :| i < |s.pc| && s.pc[i] == Asleep;
    assert !s.cancelled[i];
  }

  // ------------------------------------------------------------------- runs

  ghost predicate Leads(n: nat, states: seq<State>, acts: seq<Action>, s: State, t: State)
    requires 2 <= n
  {
    Execution(n, states, acts) && states[0] == s && states[|acts|] == t
  }

  ghost predicate Reaches(n: nat, s: State, t: State)
    requires 2 <= n
  {
    exists states: seq<State>, acts: seq<Action> :: Leads(n, states, acts, s, t)
  }

  lemma Stay(n: nat, s: State)
    requires 2 <= n
    ensures Reaches(n, s, s)
  {
    assert Leads(n, [s], [], s, s);
  }

  /** One more action. */
  lemma Do(n: nat, s0: State, s: State, act: Action) returns (t: State)
    requires 2 <= n && Reaches(n, s0, s) && Enabled(n, s, act)
    ensures t == Next(n, s, act) && Reaches(n, s0, t)
  {
    t := Next(n, s, act);
    var states: seq<State>, acts: seq<Action> :| Leads(n, states, acts, s0, s);
    assert Leads(n, states + [t], acts + [act], s0, t);
  }

  /** The state with another place and mode for philosopher `i`, and another owner. */
  function At(s: State, i: nat, pc: PC, m: Mode, owner: Owner): State
    requires i < |s.pc| == |s.philo|
  {
    State(s.pc[i := pc], s.philo[i := m], owner, s.cancelled)
  }

  /** A thinker takes the mutex and gets hungry. */
  lemma GetsHungry(n: nat, s0: State, s: State, i: nat)
    requires 2 <= n && Reaches(n, s0, s) && s.Shape(n) && i < n && s.owner == Free
    requires s.pc[i] == Thinking && !s.cancelled[i]
    ensures Reaches(n, s0, At(s, i, UseTry, WAIT, By(i)))
  {
    var s1 := Do(n, s0, s, Run(i));
    var s2 := Do(n, s0, s1, Run(i));
    var s3 := Do(n, s0, s2, Run(i));
    assert s3.pc == s.pc[i := UseTry];
  }

  /** The test of `change_philo_state` succeeds between two philosophers that do not eat; nobody is signalled. */
  lemma GetsForks(n: nat, s0: State, s: State, i: nat)
    requires 2 <= n && s.Shape(n) && i < n && Reaches(n, s0, At(s, i, UseTry, WAIT, By(i)))
    requires !EatsBeside(s.philo, i)
    ensures Reaches(n, s0, At(s, i, UseCheck, EAT, By(i)))
  {
    Neighbours(n, i);
    var s1 := Do(n, s0, At(s, i, UseTry, WAIT, By(i)), Run(i));
    assert s1.philo == s.philo[i := EAT];
    var s2 := Do(n, s0, s1, Run(i));
    assert s2.pc == s.pc[i := UseCheck];
  }

  /** A thinker between two philosophers that do not eat gets its forks. */
  lemma Eats(n: nat, s0: State, s: State, i: nat)
    requires 2 <= n && Reaches(n, s0, s) && s.Shape(n) && i < n && s.owner == Free
    requires s.pc[i] == Thinking && !s.cancelled[i] && !EatsBeside(s.philo, i)
    ensures Reaches(n, s0, At(s, i, Eating, EAT, Free))
  {
    GetsHungry(n, s0, s, i);
    GetsForks(n, s0, s, i);
    var s1 := Do(n, s0, At(s, i, UseCheck, EAT, By(i)), Run(i));
    var s2 := Do(n, s0, s1, Run(i));
    assert s2.pc == s.pc[i := Eating];
  }

  lemma MissesForks(n: nat, s0: State, s: State, i: nat)
    requires 2 <= n && s.Shape(n) && i < n && Reaches(n, s0, At(s, i, UseTry, WAIT, By(i)))
    requires EatsBeside(s.philo, i)
    ensures Reaches(n, s0, At(s, i, UseCheck, WAIT, By(i)))
  {
    Neighbours(n, i);
    var s1 := Do(n, s0, At(s, i, UseTry, WAIT, By(i)), Run(i));
    assert s1.pc == s.pc[i := UseCheck];
  }

  /** A thinker beside an eating philosopher falls asleep. */
  lemma Dozes(n: nat, s0: State, s: State, i: nat)
    requires 2 <= n && Reaches(n, s0, s) && s.Shape(n) && i < n && s.owner == Free
    requires s.pc[i] == Thinking && !s.cancelled[i] && EatsBeside(s.philo, i)
    ensures Reaches(n, s0, At(s, i, Asleep, WAIT, Free))
  {
    GetsHungry(n, s0, s, i);
    MissesForks(n, s0, s, i);
    var s1 := Do(n, s0, At(s, i, UseCheck, WAIT, By(i)), Run(i));
    var s2 := Do(n, s0, s1, Run(i));
    assert s2.pc == s.pc[i := Asleep];
  }

  /** A thread outside the monitor is cancelled and ends. */
  lemma Ends(n: nat, s0: State, s: State, i: nat)
    requires 2 <= n && Reaches(n, s0, s) && s.Shape(n) && i < n
    requires s.pc[i] in {Thinking, Eating} && !s.cancelled[i]
    ensures Reaches(n, s0, State(s.pc[i := Dead], s.philo, s.owner, s.cancelled[i := true]))
  {
    var s1 := Do(n, s0, s, Cancel(i));
    var s2 := Do(n, s0, s1, Die(i));
  }

  // --------------------------------------------------------------- witness

  /** Of the philosophers below `e`, the eaters eat; of those below `w`, the survivors sleep; of those
      below `d`, the cancelled are dead. */
  function PlaceOf(gone: set<nat>, eaters: set<nat>, e: nat, w: nat, d: nat, i: nat): PC {
    if i in gone && i < d then Dead
    else if i in eaters && i < e then Eating
    else if i !in gone && i < w then Asleep
    else Thinking
  }

  function ModeOf(gone: set<nat>, eaters: set<nat>, e: nat, w: nat, i: nat): Mode {
    if i in eaters && i < e then EAT else if i !in gone && i < w then WAIT else THINK
  }

  function Stage(n: nat, gone: set<nat>, eaters: set<nat>, e: nat, w: nat, d: nat): State {
    State(seq(n, (i: nat) => PlaceOf(gone, eaters, e, w, d, i)), seq(n, (i: nat) => ModeOf(gone, eaters, e, w, i)),
          Free, seq(n, (i: nat) => i in gone && i < d))
  }

  /** One more eater eats, or nothing changes. */
  lemma EaterEats(n: nat, gone: set<nat>, eaters: set<nat>, s0: State, e: nat)
    requires 2 <= n && Blocks(n, gone, eaters) && e < n && Reaches(n, s0, Stage(n, gone, eaters, e, 0, 0))
    ensures Reaches(n, s0, Stage(n, gone, eaters, e + 1, 0, 0))
  {
    var s, t := Stage(n, gone, eaters, e, 0, 0), Stage(n, gone, eaters, e + 1, 0, 0);
    Neighbours(n, e);
    assert t.cancelled == s.cancelled;
    if e in eaters {
      Eats(n, s0, s, e);
      assert t.pc == s.pc[e := Eating] && t.philo == s.philo[e := EAT];
    } else {
      assert t.pc == s.pc && t.philo == s.philo;
    }
  }

  /** One more survivor sleeps, or nothing changes. */
  lemma SurvivorSleeps(n: nat, gone: set<nat>, eaters: set<nat>, s0: State, w: nat)
    requires 2 <= n && Blocks(n, gone, eaters) && w < n && Reaches(n, s0, Stage(n, gone, eaters, n, w, 0))
    ensures Reaches(n, s0, Stage(n, gone, eaters, n, w + 1, 0))
  {
    var s, t := Stage(n, gone, eaters, n, w, 0), Stage(n, gone, eaters, n, w + 1, 0);
    Neighbours(n, w);
    assert t.cancelled == s.cancelled;
    if w !in gone {
      Dozes(n, s0, s, w);
      assert t.pc == s.pc[w := Asleep] && t.philo == s.philo[w := WAIT];
    } else {
      assert t.pc == s.pc && t.philo == s.philo;
    }
  }

  /** One more cancelled thread ends, or nothing changes. */
  lemma OtherDies(n: nat, gone: set<nat>, eaters: set<nat>, s0: State, d: nat)
    requires 2 <= n && Blocks(n, gone, eaters) && d < n && Reaches(n, s0, Stage(n, gone, eaters, n, n, d))
    ensures Reaches(n, s0, Stage(n, gone, eaters, n, n, d + 1))
  {
    var s, t := Stage(n, gone, eaters, n, n, d), Stage(n, gone, eaters, n, n, d + 1);
    assert t.philo == s.philo;
    if d in gone {
      Ends(n, s0, s, d);
      assert t.pc == s.pc[d := Dead] && t.cancelled == s.cancelled[d := true];
    } else {
      assert t.pc == s.pc && t.cancelled == s.cancelled;
    }
  }

  lemma {:induction false} EatersEat(n: nat, gone: set<nat>, eaters: set<nat>, e: nat)
    requires 2 <= n && Blocks(n, gone, eaters) && e <= n
    ensures Reaches(n, Stage(n, gone, eaters, 0, 0, 0), Stage(n, gone, eaters, e, 0, 0))
  {
    var s0 := Stage(n, gone, eaters, 0, 0, 0);
    if e == 0 {
      Stay(n, s0);
    } else {
      EatersEat(n, gone, eaters, e - 1);
      EaterEats(n, gone, eaters, s0, e - 1);
    }
  }

  lemma {:induction false} SurvivorsSleep(n: nat, gone: set<nat>, eaters: set<nat>, w: nat)
    requires 2 <= n && Blocks(n, gone, eaters) && w <= n
    ensures Reaches(n, Stage(n, gone, eaters, 0, 0, 0), Stage(n, gone, eaters, n, w, 0))
  {
    if w == 0 {
      EatersEat(n, gone, eaters, n);
    } else {
      SurvivorsSleep(n, gone, eaters, w - 1);
      SurvivorSleeps(n, gone, eaters, Stage(n, gone, eaters, 0, 0, 0), w - 1);
    }
  }

  lemma {:induction false} OthersDie(n: nat, gone: set<nat>, eaters: set<nat>, d: nat)
    requires 2 <= n && Blocks(n, gone, eaters) && d <= n
    ensures Reaches(n, Stage(n, gone, eaters, 0, 0, 0), Stage(n, gone, eaters, n, n, d))
  {
    if d == 0 {
      SurvivorsSleep(n, gone, eaters, n);
    } else {
      OthersDie(n, gone, eaters, d - 1);
      OtherDies(n, gone, eaters, Stage(n, gone, eaters, 0, 0, 0), d - 1);
    }
  }

  lemma BlockedIsStranded(n: nat, gone: set<nat>, eaters: set<nat>)
    requires 2 <= n && Blocks(n, gone, eaters) && Survives(n, gone)
    ensures CanStrand(n, gone)
  {
    OthersDie(n, gone, eaters, n);
    var s0, s := Stage(n, gone, eaters, 0, 0, 0), Stage(n, gone, eaters, n, n, n);
    var states: seq<State>, acts: seq<Action> :| Leads(n, states, acts, s0, s);
    var i: nat :| i < n && i !in gone;
    assert s.pc[i] == Asleep;
  }

  // ---------------------------------------------------------- main results

  /** Cancelling exactly the threads in `gone` can strand a living philosopher if and only if somebody survives and
      some of the cancelled ones, no two of them neighbours, sit beside all the survivors. */
  lemma StrandsExactlyWhen(n: nat, gone: set<nat>)
    requires 2 <= n
    ensures CanStrand(n, gone) <==> Survives(n, gone) && exists eaters :: Blocks(n, gone, eaters)
  {
    if CanStrand(n, gone) {
      var states: seq<State>, acts: seq<Action> :|
        && Execution(n, states, acts) && Init(n, states[0])
        && Stranded(states[|acts|]) && CancelledAre(states[|acts|], gone);
      ReachableInv(n, states, acts, |acts|);
      StrandedIsBlocked(n, states[|acts|], gone);
    }
    if Survives(n, gone) && exists eaters :: Blocks(n, gone, eaters) {
      var eaters :| Blocks(n, gone, eaters);
      BlockedIsStranded(n, gone, eaters);
    }
  }

  /** With two philosophers, cancelling one of them can strand the other. */
  lemma OneOfTwoStrands()
    ensures CanStrand(2, {0})
  {
    Neighbours(2, 0);
    Neighbours(2, 1);
    assert Blocks(2, {0}, {0});
    assert Survives(2, {0}) by {
      assert 1 !in {0};
    }
    StrandsExactlyWhen(2, {0});
  }

  // ------------------------------------------- a neighbour that died waiting

  /** A sleeper is cancelled: it takes the mutex back, its handler releases it, and its mode stays. */
  lemma SleeperEnds(n: nat, s0: State, s: State, i: nat)
    requires 2 <= n && Reaches(n, s0, s) && s.Shape(n) && i < n && s.owner == Free
    requires s.pc[i] == Asleep && !s.cancelled[i]
    ensures Reaches(n, s0, State(s.pc[i := Dead], s.philo, Free, s.cancelled[i := true]))
  {
    var s1 := Do(n, s0, s, Cancel(i));
    var s2 := Do(n, s0, s1, Die(i));
    assert s2 == State(s.pc[i := CancelLock], s.philo, Free, s.cancelled[i := true]);
    var s3 := Do(n, s0, s2, Run(i));
    assert s3.pc == s.pc[i := Cleanup];
    var s4 := Do(n, s0, s3, Run(i));
    assert s4.pc == s.pc[i := Dead];
  }

  /** A philosopher that has eaten takes the mutex and thinks. */
  lemma StopsEating(n: nat, s0: State, s: State, i: nat)
    requires 2 <= n && Reaches(n, s0, s) && s.Shape(n) && i < n && s.owner == Free
    requires s.pc[i] == Eating && !s.cancelled[i]
    ensures Reaches(n, s0, At(s, i, PutLeft, THINK, By(i)))
  {
    var s1 := Do(n, s0, s, Run(i));
    var s2 := Do(n, s0, s1, Run(i));
    var s3 := Do(n, s0, s2, Run(i));
    assert s3.pc == s.pc[i := PutLeft];
  }

  /** The sleeper that `change_philo_state(j)` signals wakes. */
  function Roused(pcs: seq<PC>, modes: seq<Mode>, j: nat): seq<PC>
    requires |pcs| == |modes| && j < |pcs|
  {
    if MayEat(modes, j) && pcs[j] == Asleep then pcs[j := Woken] else pcs
  }

  /** Line 44. */
  lemma ExaminesLeft(n: nat, s0: State, s: State, i: nat)
    requires 2 <= n && Reaches(n, s0, s) && s.Shape(n) && i < n && s.pc[i] == PutLeft && Left(n, i) < n
    ensures Reaches(n, s0, State(Roused(s.pc, s.philo, Left(n, i))[i := PutRight], Promoted(s.philo, Left(n, i)),
                                 s.owner, s.cancelled))
  {
    Neighbours(n, i);
    var s1 := Do(n, s0, s, Run(i));
    if MayEat(s.philo, Left(n, i)) {
      var s2 := Do(n, s0, s1, Run(i));
      assert s2.pc == Roused(s.pc, s.philo, Left(n, i))[i := PutRight];
    }
  }

  /** Lines 45-46. */
  lemma ExaminesRight(n: nat, s0: State, s: State, i: nat)
    requires 2 <= n && Reaches(n, s0, s) && s.Shape(n) && i < n && s.pc[i] == PutRight && Right(n, i) < n
    ensures Reaches(n, s0, State(Roused(s.pc, s.philo, Right(n, i))[i := PutLeave], Promoted(s.philo, Right(n, i)),
                                 s.owner, s.cancelled))
  {
    Neighbours(n, i);
    var s1 := Do(n, s0, s, Run(i));
    if MayEat(s.philo, Right(n, i)) {
      var s2 := Do(n, s0, s1, Run(i));
      assert s2.pc == Roused(s.pc, s.philo, Right(n, i))[i := PutLeave];
    }
  }

  lemma Leaves(n: nat, s0: State, s: State, i: nat)
    requires 2 <= n && Reaches(n, s0, s) && s.Shape(n) && i < n && s.pc[i] == PutLeave
    ensures Reaches(n, s0, State(s.pc[i := Thinking], s.philo, Free, s.cancelled))
  {
    var s1 := Do(n, s0, s, Run(i));
  }

  /** `put_back` without interruption (lines 40-47): the philosopher thinks, then first its left and next its right
      neighbour is promoted if it may eat, and woken if it sleeps; nobody else changes. */
  lemma PutsBack(n: nat, s0: State, s: State, i: nat)
    requires 2 <= n && Reaches(n, s0, s) && s.Shape(n) && i < n && s.owner == Free
    requires s.pc[i] == Eating && !s.cancelled[i]
    ensures Left(n, i) < n && Right(n, i) < n
    ensures var m0 := s.philo[i := THINK];
      var m1 := Promoted(m0, Left(n, i));
      var pcs := Roused(Roused(s.pc[i := Thinking], m0, Left(n, i)), m1, Right(n, i));
      Reaches(n, s0, State(pcs, Promoted(m1, Right(n, i)), Free, s.cancelled))
  {
    Neighbours(n, i);
    StopsEating(n, s0, s, i);
    var s1 := At(s, i, PutLeft, THINK, By(i));
    ExaminesLeft(n, s0, s1, i);
    var m0 := s1.philo;
    var s2 := State(Roused(s1.pc, m0, Left(n, i))[i := PutRight], Promoted(m0, Left(n, i)), By(i), s.cancelled);
    ExaminesRight(n, s0, s2, i);
    var m1 := s2.philo;
    var s3 := State(Roused(s2.pc, m1, Right(n, i))[i := PutLeave], Promoted(m1, Right(n, i)), By(i), s.cancelled);
    Leaves(n, s0, s3, i);
    assert s3.pc[i := Thinking] == Roused(Roused(s.pc[i := Thinking], m0, Left(n, i)), m1, Right(n, i));
  }

  /** Philosopher 0 eats and philosopher 1 falls asleep. */
  lemma EatsAndDozes(s0: State) returns (s: State)
    requires s0 == State([Thinking, Thinking], [THINK, THINK], Free, [false, false])
    ensures Reaches(2, s0, s) && s == State([Eating, Asleep], [EAT, WAIT], Free, [false, false])
  {
    Neighbours(2, 0);
    Neighbours(2, 1);
    Stay(2, s0);
    Eats(2, s0, s0, 0);
    var s1 := At(s0, 0, Eating, EAT, Free);
    assert s1.pc == [Eating, Thinking] && s1.philo == [EAT, THINK];
    Dozes(2, s0, s1, 1);
    s := At(s1, 1, Asleep, WAIT, Free);
    assert s.pc == [Eating, Asleep] && s.philo == [EAT, WAIT];
  }

  /** Then philosopher 1 is cancelled and dies waiting. */
  lemma DiesWaiting(s0: State) returns (d: State)
    requires s0 == State([Thinking, Thinking], [THINK, THINK], Free, [false, false])
    ensures Reaches(2, s0, d) && d == State([Eating, Dead], [EAT, WAIT], Free, [false, true])
  {
    var s := EatsAndDozes(s0);
    SleeperEnds(2, s0, s, 1);
    d := State(s.pc[1 := Dead], s.philo, Free, s.cancelled[1 := true]);
    assert d.pc == [Eating, Dead] && d.cancelled == [false, true];
  }

  /** Philosopher 0 puts its forks back and promotes the dead philosopher 1. */
  lemma PromotesTheDead(d: State) returns (s: State)
    requires d == State([Eating, Dead], [EAT, WAIT], Free, [false, true])
    ensures Reaches(2, d, s) && s == State([Thinking, Dead], [THINK, EAT], Free, [false, true])
  {
    Neighbours(2, 0);
    Neighbours(2, 1);
    Stay(2, d);
    PutsBack(2, d, d, 0);
    var m0 := d.philo[0 := THINK];
    assert m0 == [THINK, WAIT] && Promoted(m0, 1) == [THINK, EAT];
    s := State(d.pc[0 := Thinking], Promoted(m0, 1), Free, d.cancelled);
    assert s.pc == [Thinking, Dead];
  }

  /** Philosopher 0 gets hungry again and falls asleep. */
  lemma PromotedStrands(d: State) returns (t: State)
    requires d == State([Eating, Dead], [EAT, WAIT], Free, [false, true])
    ensures Reaches(2, d, t) && t == State([Asleep, Dead], [WAIT, EAT], Free, [false, true])
  {
    var s := PromotesTheDead(d);
    Neighbours(2, 0);
    Dozes(2, d, s, 0);
    t := At(s, 0, Asleep, WAIT, Free);
    assert t.pc == [Asleep, Dead] && t.philo == [WAIT, EAT];
  }

  /** A thread that died waiting can be promoted afterwards and strand its neighbour: it is dead in state WAIT at
      first, and dead in state EAT when its neighbour falls asleep beside it. */
  lemma DeadWaiterStrands(s0: State) returns (d: State, t: State)
    requires s0 == State([Thinking, Thinking], [THINK, THINK], Free, [false, false])
    ensures Init(2, s0) && Reaches(2, s0, d) && d.Shape(2) && d.pc[1] == Dead && d.philo[1] == WAIT
    ensures Reaches(2, d, t) && Stranded(t) && t.philo == [WAIT, EAT]
  {
    d := DiesWaiting(s0);
    t := PromotedStrands(d);
    assert t.pc[0] == Asleep;
  }
}
