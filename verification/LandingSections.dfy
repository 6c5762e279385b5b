/** The sections of cw09/zad2 run without interruption: what a plane does to the shared variables between
    two `usleep`s, first as runs of the step relation, then as methods on the variables themselves. */
module LandingSections {
  import opened Mutexes
  import opened LandingStrip

  // ------------------------------------------------------------------- runs

  /** A run from `s` to `t`, without spurious wake-ups. */
  ghost predicate Leads(a: Airport, states: seq<State>, acts: seq<Action>, s: State, t: State) {
    && Execution(a, states, acts) && states[0] == s && states[|acts|] == t
    && forall i :: 0 <= i < |acts| ==> acts[i].Run?
  }

  ghost predicate Reaches(a: Airport, s: State, t: State) {
    exists states: seq<State>, acts: seq<Action> :: Leads(a, states, acts, s, t)
  }

  lemma Stay(a: Airport, s: State)
    ensures Reaches(a, s, s)
  {
    assert Leads(a, [s], [], s, s);
  }

  lemma Extend(a: Airport, s0: State, s: State, p: nat, t: State)
    requires Reaches(a, s0, s) && PlaneStep(a, s, p, t)
    ensures Reaches(a, s0, t)
  {
    var states: seq<State>, acts: seq<Action> :| Leads(a, states, acts, s0, s);
    var longer, more := states + [t], acts + [Run(p)];
    forall i | 0 <= i < |more|
      ensures Step(a, longer[i], more[i], longer[i + 1])
    {
      if i < |acts| {
        assert Step(a, states[i], acts[i], states[i + 1]);
      }
    }
    assert Leads(a, longer, more, s0, t);
  }

  /** One more statement that sends no signal. */
  lemma Go(a: Airport, s0: State, s: State, p: nat) returns (t: State)
    requires Reaches(a, s0, s) && Ready(s, p) && !Code(s.pc[p]).Signal?
    ensures t == After(a, s, p) && Reaches(a, s0, t)
  {
    t := ReadyCanStep(a, s, p);
    Extend(a, s0, s, p, t);
  }

  // --------------------------------------------------------------- sections

  /** No mutex is owned. */
  predicate Calm(s: State) {
    s.strip == s.landCount == s.takeCount == Free
  }

  /** After lines 38-41 or 65-67. */
  function Joined(s: State, p: nat): State
    requires p < |s.pc|
  {
    s.WithCount(s.pc[p].phase, 1).Goto(p, PC(s.pc[p].phase, WantStrip))
  }

  /** After a test that fails. */
  function Slept(s: State, p: nat): State
    requires p < |s.pc|
  {
    s.Goto(p, PC(s.pc[p].phase, Asleep))
  }

  /** `w` is a plane that a signal of `p` for the sleepers of `phase` may wake, or `p` itself if nobody sleeps there. */
  ghost predicate Picks(s: State, phase: Phase, p: nat, w: nat) {
    if Sleeps(s, phase) then s.IsAt(w, PC(phase, Asleep)) else w == p
  }

  /** Plane `w` has been woken, if it slept. */
  function Roused(s: State, w: nat): State {
    if w < |s.pc| && s.pc[w].place == Asleep then s.Goto(w, s.pc[w].(place := Woken)) else s
  }

  /** After a test that succeeds, the crossing and the signal. */
  function Crossed(s: State, p: nat): State
    requires p < |s.pc|
  {
    var phase := s.pc[p].phase;
    s.WithCount(phase, -1).(board := s.board + if phase.Landing? then 1 else -1).Goto(p, PC(phase.Other(), Arriving))
  }

  lemma Join(a: Airport, s0: State, s: State, p: nat)
    requires Reaches(a, s0, s) && Calm(s) && p < |s.pc| && s.pc[p].place == Arriving
    ensures Reaches(a, s0, Joined(s, p)) && Calm(Joined(s, p))
  {
    var s1 := Go(a, s0, s, p);
    var s2 := Go(a, s0, s1, p);
    var s3 := Go(a, s0, s2, p);
    assert s3.pc == Joined(s, p).pc;
  }

  /** Before the test, the plane owns the strip and the other phase's counter. */
  function Testing(s: State, p: nat): State
    requires p < |s.pc|
  {
    var phase := s.pc[p].phase;
    s.WithOwner(Strip, By(p)).WithOwner(phase.Other().CountMutex(), By(p)).Goto(p, PC(phase, Test))
  }

  /** Lines 42-44 or 68-70, and the same after a wake-up. */
  lemma Approach(a: Airport, s0: State, s: State, p: nat)
    requires Reaches(a, s0, s) && Calm(s) && p < |s.pc|
    requires s.pc[p].place == WantStrip || s.pc[p].place == Woken
    ensures Reaches(a, s0, Testing(s, p))
  {
    var s1 := Go(a, s0, s, p);
    var s2 := Go(a, s0, s1, p);
    assert s2.pc == Testing(s, p).pc;
  }

  /** Lines 46-48 or 71-73. */
  lemma Refuse(a: Airport, s0: State, s: State, p: nat)
    requires Reaches(a, s0, s) && Calm(s) && p < |s.pc| && Refused(a, s, s.pc[p].phase)
    requires s.pc[p].place == WantStrip || s.pc[p].place == Woken
    ensures Reaches(a, s0, Slept(s, p)) && Calm(Slept(s, p))
  {
    Approach(a, s0, s, p);
    var s1 := Go(a, s0, Testing(s, p), p);
    var s2 := Go(a, s0, s1, p);
    var s3 := Go(a, s0, s2, p);
    assert s3.pc == Slept(s, p).pc;
  }

  /** Past the test, and past the waiting counter, the plane owns only the strip. */
  function Cleared(s: State, p: nat): State
    requires p < |s.pc|
  {
    s.WithOwner(Strip, By(p)).Goto(p, s.pc[p].(place := LockOwn))
  }

  function Dequeued(s: State, p: nat): State
    requires p < |s.pc|
  {
    s.WithOwner(Strip, By(p)).WithCount(s.pc[p].phase, -1).Goto(p, s.pc[p].(place := Crossing))
  }

  /** Lines 46-52 or 71-76 when the test succeeds. */
  lemma Clear(a: Airport, s0: State, s: State, p: nat)
    requires Reaches(a, s0, s) && Calm(s) && p < |s.pc| && !Refused(a, s, s.pc[p].phase)
    requires s.pc[p].place == WantStrip || s.pc[p].place == Woken
    ensures Reaches(a, s0, Cleared(s, p))
  {
    Approach(a, s0, s, p);
    var s1 := Go(a, s0, Testing(s, p), p);
    var s2 := Go(a, s0, s1, p);
    assert s2.pc == Cleared(s, p).pc;
  }

  /** Lines 54-56 or 78-80. */
  lemma Dequeue(a: Airport, s0: State, s: State, p: nat)
    requires Calm(s) && p < |s.pc| && Reaches(a, s0, Cleared(s, p))
    ensures Reaches(a, s0, Dequeued(s, p))
  {
    var s1 := Go(a, s0, Cleared(s, p), p);
    var s2 := Go(a, s0, s1, p);
    var s3 := Go(a, s0, s2, p);
    assert s3.pc == Dequeued(s, p).pc;
  }

  /** Lines 59 or 83; `w` is the sleeper that the signal picks. */
  lemma Announce(a: Airport, s0: State, s: State, p: nat, w: nat)
    requires Reaches(a, s0, s) && p < |s.pc| && s.pc[p].place == Notify && Picks(s, s.pc[p].phase.Other(), p, w)
    ensures Reaches(a, s0, Roused(s, w).Goto(p, s.pc[p].(place := Leave)))
  {
    var phase, u := s.pc[p].phase.Other(), Roused(s, w);
    assert s.SomeAt(PC(phase, Asleep)) ==> Wakes(s, w, u);
    assert Signals(s, phase, u);
    Extend(a, s0, s, p, u.Goto(p, s.pc[p].(place := Leave)));
  }

  /** After lines 58 or 82. */
  function Moved(s: State, p: nat): State
    requires p < |s.pc|
  {
    var d := Dequeued(s, p);
    d.(board := d.board + if s.pc[p].phase.Landing? then 1 else -1).Goto(p, s.pc[p].(place := Notify))
  }

  lemma Move(a: Airport, s0: State, s: State, p: nat)
    requires p < |s.pc| && Reaches(a, s0, Dequeued(s, p))
    ensures Reaches(a, s0, Moved(s, p)) && Moved(s, p).pc == s.pc[p := s.pc[p].(place := Notify)]
  {
    var s1 := Go(a, s0, Dequeued(s, p), p);
  }

  /** Lines 60 or 84. */
  lemma Release(a: Airport, s0: State, s: State, p: nat, w: nat)
    requires Calm(s) && p < |s.pc| && s.pc[p].place != Asleep && Picks(s, s.pc[p].phase.Other(), p, w)
    requires Reaches(a, s0, Roused(Moved(s, p), w).Goto(p, s.pc[p].(place := Leave)))
    ensures Reaches(a, s0, Crossed(Roused(s, w), p)) && Calm(Crossed(Roused(s, w), p))
  {
    var s1 := Go(a, s0, Roused(Moved(s, p), w).Goto(p, s.pc[p].(place := Leave)), p);
    assert s1.pc == Crossed(Roused(s, w), p).pc;
  }

  /** Lines 42-60 or 68-84: the whole section when the test succeeds. */
  lemma Cross(a: Airport, s0: State, s: State, p: nat, w: nat)
    requires Reaches(a, s0, s) && Calm(s) && p < |s.pc| && !Refused(a, s, s.pc[p].phase)
    requires s.pc[p].place == WantStrip || s.pc[p].place == Woken
    requires Picks(s, s.pc[p].phase.Other(), p, w)
    ensures Reaches(a, s0, Crossed(Roused(s, w), p)) && Calm(Crossed(Roused(s, w), p))
  {
    Clear(a, s0, s, p);
    Dequeue(a, s0, s, p);
    Move(a, s0, s, p);
    PicksStill(s, Moved(s, p), p, w);
    Announce(a, s0, Moved(s, p), p, w);
    Release(a, s0, s, p, w);
  }

  lemma SamePicks(s: State, t: State, phase: Phase, p: nat, w: nat)
    requires s.pc == t.pc
    ensures Sleeps(s, phase) == Sleeps(t, phase) && Picks(s, phase, p, w) == Picks(t, phase, p, w)
  {
    assert forall q: nat :: s.IsAt(q, PC(phase, Asleep)) == t.IsAt(q, PC(phase, Asleep));
  }

  lemma PicksStill(s: State, s1: State, p: nat, w: nat)
    requires p < |s.pc| && s.pc[p].place != Asleep && Picks(s, s.pc[p].phase.Other(), p, w)
    requires s1.pc == s.pc[p := s.pc[p].(place := Notify)]
    ensures Picks(s1, s.pc[p].phase.Other(), p, w)
  {
    var asleep := PC(s.pc[p].phase.Other(), Asleep);
    assert forall q: nat :: s1.IsAt(q, asleep) <==> s.IsAt(q, asleep);
  }

  /** The shared variables of the program, updated in place by the planes. */
  class Monitor {
    const airport: Airport
    var pc: seq<PC>
    var strip: Owner
    var landCount: Owner
    var takeCount: Owner
    var board: int
    var waitLand: int
    var waitTake: int

    constructor (airport: Airport)
      ensures Init(airport, Value()) && this.airport == airport
    {
      this.airport := airport;
      pc := seq(airport.planes, _ => PC(Landing, Arriving));
      strip, landCount, takeCount := Free, Free, Free;
      board, waitLand, waitTake := 0, 0, 0;
    }

    function Value(): State
      reads this
    {
      State(pc, strip, landCount, takeCount, board, waitLand, waitTake)
    }

    method SetOwner(m: Mutex, o: Owner)
      modifies this`strip, this`landCount, this`takeCount
      ensures Value() == old(Value()).WithOwner(m, o)
    {
      match m
      case Strip => strip := o;
      case LandCount => landCount := o;
      case TakeCount => takeCount := o;
    }

    /** `pthread_cond_signal`: one of the sleepers of `phase` wakes, if there is one; `p` is the signaller. */
    method SignalOne(phase: Phase, p: nat) returns (w: nat)
      modifies this`pc
      ensures Picks(old(Value()), phase, p, w)
      ensures Value() == if Sleeps(old(Value()), phase) then Roused(old(Value()), w) else old(Value())
      ensures Signals(old(Value()), phase, Value())
    {
      var asleep := PC(phase, Asleep);
      w := p;
      if q :| 0 <= q < |pc| && pc[q] == asleep {
        w := q;
        assert Value().IsAt(w, asleep);
        pc := pc[w := asleep.(place := Woken)];
        assert Wakes(old(Value()), w, Value());
      }
    }

    /** Plane `p` executes its next instruction, unless it is blocked. */
    method Execute(p: nat) returns (ran: bool)
      requires p < |pc|
      modifies this
      ensures ran == old(Ready(Value(), p))
      ensures if ran then PlaneStep(airport, old(Value()), p, Value()) else Value() == old(Value())
    {
      var phase := pc[p].phase;
      ran := true;
      match Code(pc[p]) {
        case Lock(m, next) =>
          ran := Value().OwnerOf(m) == Free;
          if ran {
            SetOwner(m, By(p));
            pc := pc[p := next];
          }
        case Unlock(m, next) =>
          SetOwner(m, Free);
          pc := pc[p := next];
        case Count(d, next) =>
          if phase.Landing? {
            waitLand := waitLand + d;
          } else {
            waitTake := waitTake + d;
          }
          pc := pc[p := next];
        case Board(d, next) =>
          board := board + d;
          pc := pc[p := next];
        case Guard(refused, cleared) =>
          pc := pc[p := if Refused(airport, Value(), phase) then refused else cleared];
        case Sleep(asleep) =>
          strip := Free;
          pc := pc[p := asleep];
        case Blocked(_) =>
          ran := false;
        case Signal(next) =>
          var _ := SignalOne(phase.Other(), p);
          pc := pc[p := next];
      }
    }

    /** The same on a reachable state, which stays one that satisfies the invariant. */
    method ExecuteReachable(p: nat) returns (ran: bool)
      requires p < |pc| && airport.Valid() && Inv(airport, Value())
      modifies this
      ensures ran == old(Ready(Value(), p))
      ensures if ran then PlaneStep(airport, old(Value()), p, Value()) else Value() == old(Value())
      ensures Inv(airport, Value())
    {
      ran := Execute(p);
      if ran {
        StepInv(airport, old(Value()), Run(p), Value());
      }
    }

    /** Lines 38-41 or 65-67 without interruption. */
    method JoinQueue(p: nat)
      requires p < |pc| && Calm(Value()) && pc[p].place == Arriving
      modifies this`pc, this`waitLand, this`waitTake
      ensures Value() == Joined(old(Value()), p) && Calm(Value())
      ensures Reaches(airport, old(Value()), Value())
    {
      Stay(airport, Value());
      Join(airport, Value(), Value(), p);
      if pc[p].phase.Landing? {
        waitLand := waitLand + 1;
      } else {
        waitTake := waitTake + 1;
      }
      pc := pc[p := pc[p].(place := WantStrip)];
    }

    /** Lines 42-60 or 68-84 without interruption: the plane crosses exactly when its condition lets it,
        and then one sleeper of the other phase wakes, if there is one; otherwise it falls asleep. */
    method UseStrip(p: nat) returns (crossed: bool)
      requires p < |pc| && Calm(Value()) && (pc[p].place == WantStrip || pc[p].place == Woken)
      modifies this`pc, this`board, this`waitLand, this`waitTake
      ensures crossed ==
        if old(pc)[p].phase.Landing? then old(board) != airport.n && (old(board) < airport.k || old(waitTake) <= 0)
        else airport.k <= old(board) || old(waitLand) <= 0
      ensures crossed == !old(Refused(airport, Value(), pc[p].phase))
      ensures !crossed ==> Value() == Slept(old(Value()), p)
      ensures crossed ==> exists w: nat ::
        Picks(old(Value()), old(pc)[p].phase.Other(), p, w) && Value() == Crossed(Roused(old(Value()), w), p)
      ensures Calm(Value()) && Reaches(airport, old(Value()), Value())
    {
      ghost var before := Value();
      Stay(airport, before);
      var phase := pc[p].phase;
      if phase.Landing? {
        crossed := !(board == airport.n || (board >= airport.k && waitTake > 0));
      } else {
        crossed := !(board < airport.k && waitLand > 0);
      }
      if !crossed {
        Refuse(airport, before, before, p);
        pc := pc[p := PC(phase, Asleep)];
        return;
      }
      if phase.Landing? {
        waitLand := waitLand - 1;
        board := board + 1;
      } else {
        waitTake := waitTake - 1;
        board := board - 1;
      }
      ghost var counted := Value();
      var w := SignalOne(phase.Other(), p);
      SamePicks(before, counted, phase.Other(), p, w);
      pc := pc[p := PC(phase.Other(), Arriving)];
      Cross(airport, before, before, p, w);
    }
  }
}
